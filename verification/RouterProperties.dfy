/** Whole-run properties of the call router: exact bookkeeping, admission, fairness, balance, stickiness. */
module RouterProperties {
  import opened Sets
  import opened ChannelKey
  import opened SpeechStream
  import opened CallRouter

  // ---------- Exact bookkeeping ----------

  function CallsOn(calls: map<string, int>, id: int): set<string> {
    set s | s in calls && calls[s] == id
  }

  function CallsUpTo(calls: map<string, int>, id: int): set<string> {
    set s | s in calls && calls[s] <= id
  }

  /** Each counter is the number of calls mapped to its processor and lies in 0..capacity. */
  ghost predicate Exact(c: Config, r: Router) {
    && WellFormed(c, r)
    && forall p :: 0 <= p < c.processors ==>
         0 <= r.status[p] <= c.capacity && r.status[p] == Size(CallsOn(r.calls, p + 1))
  }

  /** An EOCS is remembered only for an ongoing call, and never enough of them to complete it. */
  ghost predicate SignalsPending(c: Config, r: Router) {
    forall s :: (Key(s, 1) in r.done || Key(s, 2) in r.done) ==> s in r.calls && !Completed(c, r.done, s)
  }

  ghost predicate Invariant(c: Config, r: Router) {
    Exact(c, r) && SignalsPending(c, r)
  }

  lemma InitialInvariant(c: Config)
    ensures Invariant(c, Initial(c))
  {
    assert forall p :: CallsOn(Initial(c).calls, p) == {};
  }

  lemma AssignCounts(calls: map<string, int>, session: string, id: int, p: int)
    requires session !in calls
    ensures Size(CallsOn(calls[session := id], p)) == Size(CallsOn(calls, p)) + if p == id then 1 else 0
  {
    hide Size;
    if p == id {
      assert CallsOn(calls[session := id], p) == CallsOn(calls, p) + {session};
      AddOne(CallsOn(calls, p), session);
    } else {
      assert CallsOn(calls[session := id], p) == CallsOn(calls, p);
    }
  }

  lemma ReleaseCounts(calls: map<string, int>, session: string, p: int)
    requires session in calls
    ensures Size(CallsOn(calls - {session}, p)) == Size(CallsOn(calls, p)) - if p == calls[session] then 1 else 0
  {
    hide Size;
    if p == calls[session] {
      assert CallsOn(calls - {session}, p) == CallsOn(calls, p) - {session};
      RemoveOne(CallsOn(calls, p), session);
    } else {
      assert CallsOn(calls - {session}, p) == CallsOn(calls, p);
    }
  }

  lemma StepExact(c: Config, r: Router, t: BinarySpeech)
    requires Exact(c, r)
    ensures Exact(c, Route(c, r, t).0)
  {
    hide Size;
    var r' := Route(c, r, t).0;
    ChooseIsFirstFree(c.capacity, r.status, r.recent, Choose(c.capacity, r.status, r.recent));
    forall p | 0 <= p < c.processors
      ensures 0 <= r'.status[p] <= c.capacity && r'.status[p] == Size(CallsOn(r'.calls, p + 1))
    {
      if !t.endOfCall && t.session !in r.calls {
        AssignCounts(r.calls, t.session, r'.recent, p + 1);
      } else if t.endOfCall && t.session in r.calls {
        ReleaseCounts(r.calls, t.session, p + 1);
      }
    }
  }

  lemma StepSignals(c: Config, r: Router, t: BinarySpeech)
    requires WellFormed(c, r) && SignalsPending(c, r)
    ensures SignalsPending(c, Next(c, r, t))
  {
    var r' := Next(c, r, t);
    forall s | Key(s, 1) in r'.done || Key(s, 2) in r'.done
      ensures s in r'.calls && !Completed(c, r'.done, s)
    {
      SignalAfter(c, r, t, s, 1);
      SignalAfter(c, r, t, s, 2);
    }
  }

  /** What a step does to the remembered signal of one channel of any session. */
  lemma SignalAfter(c: Config, r: Router, t: BinarySpeech, session: string, channel: int)
    requires WellFormed(c, r) && (channel == 1 || channel == 2)
    ensures Key(session, channel) in Next(c, r, t).done <==>
            if t.endOfCall && t.session == session && session in r.calls
            then session in Next(c, r, t).calls && (channel == t.channel || Key(session, channel) in r.done)
            else Key(session, channel) in r.done
  {
    KeyInjective(session, channel, t.session, t.channel);
    KeyInjective(session, channel, t.session, 1);
    KeyInjective(session, channel, t.session, 2);
  }

  function Run(c: Config, r: Router, ts: seq<BinarySpeech>): (r': Router)
    requires WellFormed(c, r)
    ensures WellFormed(c, r')
    decreases |ts|
  {
    if ts == [] then r else Run(c, Next(c, r, ts[0]), ts[1..])
  }

  /** One step of a run; the bounds survive every tuple. */
  function Next(c: Config, r: Router, t: BinarySpeech): (r': Router)
    requires WellFormed(c, r)
    ensures WellFormed(c, r')
  {
    Route(c, r, t).0
  }

  lemma {:induction false} RunInvariant(c: Config, r: Router, ts: seq<BinarySpeech>)
    requires Invariant(c, r)
    ensures Invariant(c, Run(c, r, ts))
    decreases |ts|
  {
    hide Size;
    if ts != [] {
      StepExact(c, r, ts[0]);
      StepSignals(c, r, ts[0]);
      RunInvariant(c, Next(c, r, ts[0]), ts[1..]);
    }
  }

  /** Counters summed over the first m processors: equal to m * capacity exactly when all of those are full. */
  lemma {:induction false} CountUpTo(c: Config, r: Router, m: nat)
    requires Exact(c, r) && m <= c.processors
    ensures Size(CallsUpTo(r.calls, m)) <= m * c.capacity
    ensures Size(CallsUpTo(r.calls, m)) == m * c.capacity <==> forall p :: 0 <= p < m ==> r.status[p] >= c.capacity
  {
    hide Size;
    if m == 0 {
      EmptySize(CallsUpTo(r.calls, 0));
    } else {
      CountUpTo(c, r, m - 1);
      assert CallsUpTo(r.calls, m) == CallsUpTo(r.calls, m - 1) + CallsOn(r.calls, m);
      DisjointSize(CallsUpTo(r.calls, m - 1), CallsOn(r.calls, m));
      assert m * c.capacity == (m - 1) * c.capacity + c.capacity;
      assert r.status[m - 1] == Size(CallsOn(r.calls, m));
    }
  }

  /** The calls that all processors can serve at once. */
  function Places(c: Config): nat {
    c.processors * c.capacity
  }

  /** Admission is exact: a fragment of a new call is refused if and only if N * capacity calls are mapped. */
  lemma RefusedIffFull(c: Config, r: Router, t: BinarySpeech)
    requires Exact(c, r)
    ensures Size(r.calls.Keys) <= Places(c)
    ensures Route(c, r, t).1 == Refused <==>
            !t.endOfCall && t.size > 0 && t.session !in r.calls && Size(r.calls.Keys) == Places(c)
  {
    hide Size;
    assert CallsUpTo(r.calls, c.processors) == r.calls.Keys;
    CountUpTo(c, r, c.processors);
    ChooseIsFirstFree(c.capacity, r.status, r.recent, -1);
    ChooseIsFirstFree(c.capacity, r.status, r.recent, Choose(c.capacity, r.status, r.recent));
  }

  /** The same two facts for every state that any input can lead to. */
  lemma ReachableBookkeeping(c: Config, ts: seq<BinarySpeech>, t: BinarySpeech)
    ensures var r := Run(c, Initial(c), ts);
      && (forall p :: 0 <= p < c.processors ==> 0 <= r.status[p] == Size(CallsOn(r.calls, p + 1)) <= c.capacity)
      && (Route(c, r, t).1 == Refused <==>
          !t.endOfCall && t.size > 0 && t.session !in r.calls && Size(r.calls.Keys) == Places(c))
  {
    var r := Run(c, Initial(c), ts);
    InitialInvariant(c);
    RunInvariant(c, Initial(c), ts);
    assert Exact(c, r) && WellFormed(c, r);
    hide *;
    ExactCounts(c, r);
    RefusedIffFull(c, r, t);
  }

  lemma ExactCounts(c: Config, r: Router)
    requires Exact(c, r)
    ensures forall p :: 0 <= p < c.processors ==> 0 <= r.status[p] == Size(CallsOn(r.calls, p + 1)) <= c.capacity
  {
    hide Size, CallsOn;
    forall p | 0 <= p < c.processors ensures 0 <= r.status[p] == Size(CallsOn(r.calls, p + 1)) <= c.capacity {
      ExactAt(c, r, p);
    }
  }

  lemma ExactAt(c: Config, r: Router, p: nat)
    requires Exact(c, r) && p < c.processors
    ensures 0 <= r.status[p] <= c.capacity && r.status[p] == Size(CallsOn(r.calls, p + 1))
  {
    hide Size, CallsOn;
  }

  // ---------- Bounded waiting ----------

  /** A new call was given a processor by this tuple. */
  predicate Assigns(c: Config, r: Router, t: BinarySpeech)
    requires WellFormed(c, r)
  {
    !t.endOfCall && t.session !in r.calls && Route(c, r, t).1.Forwarded?
  }

  /** The processor ids of the successful assignments of a run, in order. */
  function Chosen(c: Config, r: Router, ts: seq<BinarySpeech>): seq<int>
    requires WellFormed(c, r)
    decreases |ts|
  {
    if ts == [] then [] else
      (if Assigns(c, r, ts[0]) then [Route(c, r, ts[0]).1.processor] else []) + Chosen(c, Next(c, r, ts[0]), ts[1..])
  }

  /** Processor index p has a free place whenever the run makes an assignment. */
  predicate FreeAtAssignments(c: Config, r: Router, ts: seq<BinarySpeech>, p: nat)
    requires WellFormed(c, r) && p < c.processors
    decreases |ts|
  {
    ts != [] ==>
      && (Assigns(c, r, ts[0]) ==> r.status[p] < c.capacity)
      && FreeAtAssignments(c, Next(c, r, ts[0]), ts[1..], p)
  }

  /** Choosing another processor brings the cursor strictly nearer to a processor with a free place. */
  lemma CursorApproaches(c: Config, r: Router, t: BinarySpeech, p: nat)
    requires WellFormed(c, r) && p < c.processors
    requires Assigns(c, r, t) && r.status[p] < c.capacity && Route(c, r, t).1.processor != p + 1
    ensures Distance(Cursor(Next(c, r, t).recent, c.processors), p, c.processors)
          < Distance(Cursor(r.recent, c.processors), p, c.processors)
  {
    var n := c.processors;
    var start := Cursor(r.recent, n);
    var i := Choose(c.capacity, r.status, r.recent);
    ChooseIsFirstFree(c.capacity, r.status, r.recent, i);
    var k: nat :| k < n && i == Slot(start, k, n) && BusyBefore(c.capacity, r.status, start, k);
    var d := Distance(start, p, n);
    assert r.status[Slot(start, d, n)] < c.capacity;
    assert k < d;
  }

  /** Round-robin fairness: with interleaved releases and refusals, a processor that has a free place at each of
      more assignments than its distance from the cursor is chosen by one of them. */
  lemma {:induction false} BoundedWaiting(c: Config, r: Router, ts: seq<BinarySpeech>, p: nat)
    requires WellFormed(c, r) && p < c.processors
    requires FreeAtAssignments(c, r, ts, p)
    requires |Chosen(c, r, ts)| > Distance(Cursor(r.recent, c.processors), p, c.processors)
    ensures p + 1 in Chosen(c, r, ts)
    decreases |ts|
  {
    var rest := Chosen(c, Next(c, r, ts[0]), ts[1..]);
    if Assigns(c, r, ts[0]) {
      if Route(c, r, ts[0]).1.processor != p + 1 {
        CursorApproaches(c, r, ts[0], p);
        BoundedWaiting(c, Next(c, r, ts[0]), ts[1..], p);
      }
    } else {
      BoundedWaiting(c, Next(c, r, ts[0]), ts[1..], p);
    }
  }

  /** N assignments always suffice, from whatever state the window starts in. */
  lemma ChosenWithinN(c: Config, before: seq<BinarySpeech>, window: seq<BinarySpeech>, p: nat)
    requires p < c.processors
    requires var r := Run(c, Initial(c), before);
      FreeAtAssignments(c, r, window, p) && |Chosen(c, r, window)| >= c.processors
    ensures p + 1 in Chosen(c, Run(c, Initial(c), before), window)
  {
    BoundedWaiting(c, Run(c, Initial(c), before), window, p);
  }

  // ---------- Exact balance without releases ----------

  function Total(q: nat, n: nat, m: nat): nat {
    q * n + m
  }

  /** q * N + m calls were admitted since the processors were idle, and none has ended. */
  ghost predicate Balanced(c: Config, r: Router, q: nat, m: nat) {
    && Exact(c, r) && m < c.processors && Size(r.calls.Keys) == Total(q, c.processors, m)
    && Cursor(r.recent, c.processors) == m
    && forall p :: 0 <= p < c.processors ==> r.status[p] == q + if p < m then 1 else 0
  }

  lemma BalancedStep(c: Config, r: Router, t: BinarySpeech, q: nat, m: nat)
    requires Balanced(c, r, q, m) && Assigns(c, r, t)
    ensures Route(c, r, t).1.processor == m + 1
    ensures if m + 1 < c.processors then Balanced(c, Next(c, r, t), q, m + 1) else Balanced(c, Next(c, r, t), q + 1, 0)
  {
    hide Size, Total;
    var i := Choose(c.capacity, r.status, r.recent);
    ChooseIsFirstFree(c.capacity, r.status, r.recent, i);
    assert r.status[m] <= r.status[i] < c.capacity;
    assert FirstFree(c.capacity, r.status, r.recent, m) by {
      assert m == Slot(m, 0, c.processors);
    }
    ChooseIsFirstFree(c.capacity, r.status, r.recent, m);
    StepExact(c, r, t);
    assert Next(c, r, t).calls.Keys == r.calls.Keys + {t.session};
    AddOne(r.calls.Keys, t.session);
    NextTotal(q, c.processors, m);
  }

  lemma NextTotal(q: nat, n: nat, m: nat)
    requires m < n
    ensures Total(q, n, m) + 1 == if m + 1 < n then Total(q, n, m + 1) else Total(q + 1, n, 0)
  {
    assert (q + 1) * n == q * n + n;
  }

  lemma DivModUnique(k: nat, n: nat, q: nat, m: nat)
    requires m < n && k == q * n + m
    ensures k / n == q && k % n == m
  {
    var q', m' := k / n, k % n;
    assert (q - q') * n == m' - m;
    if q > q' {
      AtLeastOnce(q - q', n);
    } else if q < q' {
      AtLeastOnce(q' - q, n);
    }
  }

  lemma AtLeastOnce(x: int, n: nat)
    requires x >= 1
    ensures x * n >= n
  {
    assert x * n == (x - 1) * n + n;
  }

  /** The ring position that is j places after m. */
  function Position(m: nat, j: nat, n: nat): (i: nat)
    requires m < n
    ensures i < n
    decreases j
  {
    if j == 0 then m else Position(if m + 1 < n then m + 1 else 0, j - 1, n)
  }

  lemma Wraps(j: nat, n: nat)
    requires n > 0
    ensures (j + n) % n == j % n
  {
    var q, m := j / n, j % n;
    assert j + n == (q + 1) * n + m;
    DivModUnique(j + n, n, q + 1, m);
  }

  lemma {:induction false} PositionIsRemainder(m: nat, j: nat, n: nat)
    requires m < n
    ensures Position(m, j, n) == Remainder(m + j, n)
    decreases j
  {
    if j == 0 {
      DivModUnique(m, n, 0, m);
    } else {
      hide Remainder;
      if m + 1 < n {
        PositionIsRemainder(m + 1, j - 1, n);
      } else {
        PositionIsRemainder(0, j - 1, n);
        RemainderWraps(j - 1, n);
      }
    }
  }

  function Remainder(k: nat, n: nat): nat
    requires n > 0
  {
    k % n
  }

  lemma RemainderWraps(j: nat, n: nat)
    requires n > 0
    ensures Remainder(j + n, n) == Remainder(j, n)
  {
    Wraps(j, n);
  }

  /** The ids are those of the processors in ring order, starting at index m. */
  predicate InTurn(ids: seq<int>, m: nat, n: nat)
    requires m < n
  {
    forall j :: 0 <= j < |ids| ==> ids[j] == Position(m, j, n) + 1
  }

  lemma NextInTurn(rest: seq<int>, m: nat, n: nat)
    requires m < n && InTurn(rest, if m + 1 < n then m + 1 else 0, n)
    ensures InTurn([m + 1] + rest, m, n)
  {
  }

  lemma ChosenFirst(c: Config, r: Router, ts: seq<BinarySpeech>)
    requires WellFormed(c, r) && ts != []
    ensures var rest := Chosen(c, Next(c, r, ts[0]), ts[1..]);
      Chosen(c, r, ts) == if Assigns(c, r, ts[0]) then [Route(c, r, ts[0]).1.processor] + rest else rest
    ensures Run(c, r, ts) == Run(c, Next(c, r, ts[0]), ts[1..])
  {
    hide Next, Route;
  }

  /** Without releases, the calls go to the processors in turn, starting at m. */
  lemma {:induction false} RoundRobinBalances(c: Config, r: Router, ts: seq<BinarySpeech>, q: nat, m: nat)
    returns (q': nat, m': nat)
    requires Balanced(c, r, q, m)
    requires forall i :: 0 <= i < |ts| ==> !ts[i].endOfCall
    ensures Balanced(c, Run(c, r, ts), q', m')
    ensures Total(q', c.processors, m') == Total(q, c.processors, m) + |Chosen(c, r, ts)|
    ensures m < c.processors && InTurn(Chosen(c, r, ts), m, c.processors)
    decreases |ts|
  {
    assert WellFormed(c, r) && m < c.processors;
    q', m' := q, m;
    if ts != [] {
      ChosenFirst(c, r, ts);
      if Assigns(c, r, ts[0]) {
        TurnTaken(c, r, ts[0], q, m);
        hide *;
        q', m' := RoundRobinBalances(c, Next(c, r, ts[0]), ts[1..], AfterTurn(q, m, c.processors).0,
                                     AfterTurn(q, m, c.processors).1);
        TurnAdds(Chosen(c, Next(c, r, ts[0]), ts[1..]), q, m, c.processors);
      } else {
        NothingAssigned(c, r, ts[0], q, m);
        hide *;
        q', m' := RoundRobinBalances(c, Next(c, r, ts[0]), ts[1..], q, m);
      }
    }
  }

  /** The completed rounds and the calls of the current one, after one more call. */
  function AfterTurn(q: nat, m: nat, n: nat): (nat, nat) {
    if m + 1 < n then (q, m + 1) else (q + 1, 0)
  }

  lemma TurnTaken(c: Config, r: Router, t: BinarySpeech, q: nat, m: nat)
    requires Balanced(c, r, q, m) && Assigns(c, r, t)
    ensures Route(c, r, t).1 == Forwarded(m + 1)
    ensures Balanced(c, Next(c, r, t), AfterTurn(q, m, c.processors).0, AfterTurn(q, m, c.processors).1)
  {
    BalancedStep(c, r, t, q, m);
    hide Exact, Total, Size;
  }

  lemma TurnAdds(rest: seq<int>, q: nat, m: nat, n: nat)
    requires m < n && InTurn(rest, AfterTurn(q, m, n).1, n)
    ensures InTurn([m + 1] + rest, m, n)
    ensures Total(AfterTurn(q, m, n).0, n, AfterTurn(q, m, n).1) + |rest| == Total(q, n, m) + |[m + 1] + rest|
  {
    NextInTurn(rest, m, n);
    NextTotal(q, n, m);
    hide Total, InTurn;
  }

  lemma NothingAssigned(c: Config, r: Router, t: BinarySpeech, q: nat, m: nat)
    requires Balanced(c, r, q, m) && !t.endOfCall && !Assigns(c, r, t)
    ensures Balanced(c, Next(c, r, t), q, m)
  {
    hide Size, Total;
  }

  /** Round robin balances exactly: k admissions from idle without releases leave k / N calls on every processor,
      and one more on the first k mod N. */
  lemma LoadsFromIdle(c: Config, ts: seq<BinarySpeech>, p: nat)
    requires p < c.processors
    requires forall i :: 0 <= i < |ts| ==> !ts[i].endOfCall
    ensures var k := |Chosen(c, Initial(c), ts)|;
      && Size(Run(c, Initial(c), ts).calls.Keys) == k
      && Run(c, Initial(c), ts).status[p] == k / c.processors + if p < k % c.processors then 1 else 0
  {
    hide Size;
    InitiallyBalanced(c);
    var q, m := RoundRobinBalances(c, Initial(c), ts, 0, 0);
    DivModUnique(|Chosen(c, Initial(c), ts)|, c.processors, q, m);
  }

  lemma InitiallyBalanced(c: Config)
    requires c.processors > 0
    ensures Balanced(c, Initial(c), 0, 0) && Total(0, c.processors, 0) == 0
  {
    InitialInvariant(c);
    EmptySize(Initial(c).calls.Keys);
  }

  lemma IdsFromIdle(c: Config, ts: seq<BinarySpeech>)
    requires c.processors > 0
    requires forall i :: 0 <= i < |ts| ==> !ts[i].endOfCall
    ensures InTurn(Chosen(c, Initial(c), ts), 0, c.processors)
  {
    InitiallyBalanced(c);
    hide Balanced, Total, Initial;
    var q, m := RoundRobinBalances(c, Initial(c), ts, 0, 0);
  }

  /** ... and admission j, counted from 0, went to the processor with id j mod N + 1. */
  lemma TurnsFromIdle(c: Config, ts: seq<BinarySpeech>, j: nat)
    requires c.processors > 0 && j < |Chosen(c, Initial(c), ts)|
    requires forall i :: 0 <= i < |ts| ==> !ts[i].endOfCall
    ensures Chosen(c, Initial(c), ts)[j] == j % c.processors + 1
  {
    IdsFromIdle(c, ts);
    PositionIsRemainder(0, j, c.processors);
  }

  // ---------- Stickiness ----------

  /** The processors to which the fragments and signals of one session are sent, in order. */
  function SentTo(c: Config, r: Router, ts: seq<BinarySpeech>, session: string): seq<int>
    requires WellFormed(c, r)
    decreases |ts|
  {
    if ts == [] then [] else
      var fate := Route(c, r, ts[0]).1;
      (if ts[0].session == session && fate.Forwarded? then [fate.processor] else [])
      + SentTo(c, Next(c, r, ts[0]), ts[1..], session)
  }

  /** Channels of the session whose EOCS is remembered in r or arrives within ts. */
  predicate Signalled(r: Router, ts: seq<BinarySpeech>, session: string, channel: int) {
    || Key(session, channel) in r.done
    || exists i :: 0 <= i < |ts| && ts[i].endOfCall && ts[i].session == session && ts[i].channel == channel
  }

  /** In two-EOCS mode one step keeps an ongoing call where it is unless it completes the pair of signals. */
  lemma StepSticky(c: Config, r: Router, t: BinarySpeech, session: string)
    requires c.eocsNeeded == 2 && WellFormed(c, r) && session in r.calls
    ensures session in Next(c, r, t).calls <==>
            !(t.endOfCall && t.session == session && Signalled(r, [t], session, 1) && Signalled(r, [t], session, 2))
    ensures session in Next(c, r, t).calls ==> Next(c, r, t).calls[session] == r.calls[session]
    ensures t.session == session ==> Route(c, r, t).1 in {Forwarded(r.calls[session]), EmptyIgnored}
  {
    KeyInjective(t.session, 1, t.session, t.channel);
    KeyInjective(t.session, 2, t.session, t.channel);
    if t.endOfCall && t.session == session {
      assert [t][0] == t;
      assert Signalled(r, [t], session, 1) <==> Key(session, 1) in r.done[Key(session, t.channel) := true];
      assert Signalled(r, [t], session, 2) <==> Key(session, 2) in r.done[Key(session, t.channel) := true];
    }
  }

  /** In two-EOCS mode every forwarded tuple of a call goes to the processor it was assigned, for as long as not
      both channels have signalled; repeated signals of one channel release nothing. */
  lemma {:induction false} StickyUntilBothSignalled(c: Config, r: Router, ts: seq<BinarySpeech>, session: string)
    requires c.eocsNeeded == 2 && WellFormed(c, r) && session in r.calls
    requires !(Signalled(r, ts, session, 1) && Signalled(r, ts, session, 2))
    ensures session in Run(c, r, ts).calls && Run(c, r, ts).calls[session] == r.calls[session]
    ensures forall j :: 0 <= j < |SentTo(c, r, ts, session)| ==> SentTo(c, r, ts, session)[j] == r.calls[session]
    decreases |ts|
  {
    if ts != [] {
      var t, rest := ts[0], ts[1..];
      assert forall ch :: Signalled(r, [t], session, ch) ==> Signalled(r, ts, session, ch);
      StepSticky(c, r, t, session);
      SignalAfter(c, r, t, session, 1);
      SignalAfter(c, r, t, session, 2);
      assert forall ch :: 1 <= ch <= 2 && Signalled(Next(c, r, t), rest, session, ch) ==> Signalled(r, ts, session, ch);
      StickyUntilBothSignalled(c, Next(c, r, t), rest, session);
    }
  }

  /** The signal that completes the pair is the one that frees the place, and it frees exactly one. */
  lemma ReleasedBySecondSignal(c: Config, r: Router, t: BinarySpeech, other: int)
    requires c.eocsNeeded == 2 && Invariant(c, r) && t.session in r.calls && t.endOfCall
    requires {t.channel, other} == {1, 2}
    ensures var r' := Next(c, r, t); var p := r.calls[t.session] - 1;
      && (t.session !in r'.calls <==> Key(t.session, other) in r.done)
      && r'.status == (if t.session in r'.calls then r.status else r.status[p := r.status[p] - 1])
      && (t.session !in r'.calls ==> Key(t.session, 1) !in r'.done && Key(t.session, 2) !in r'.done)
  {
    KeyInjective(t.session, 1, t.session, 2);
  }

  /** A repeated signal of one channel changes no counter and no assignment. */
  lemma RepeatedSignalChangesNothing(c: Config, r: Router, t: BinarySpeech)
    requires c.eocsNeeded == 2 && Invariant(c, r) && t.endOfCall && (t.channel == 1 || t.channel == 2)
    requires Key(t.session, t.channel) in r.done
    ensures Next(c, r, t).status == r.status && Next(c, r, t).calls == r.calls && Next(c, r, t).done.Keys == r.done.Keys
  {
    KeyInjective(t.session, 1, t.session, 2);
  }

  /** Runs compose: consuming the queue in two portions is consuming it whole. */
  lemma {:induction false} RunConcat(c: Config, r: Router, a: seq<BinarySpeech>, b: seq<BinarySpeech>)
    requires WellFormed(c, r)
    ensures Run(c, r, a + b) == Run(c, Run(c, r, a), b)
    decreases |a|
  {
    if a == [] {
      assert a + b == b;
    } else {
      assert (a + b)[0] == a[0] && (a + b)[1..] == a[1..] + b;
      RunConcat(c, Next(c, r, a[0]), a[1..], b);
    }
  }

  // ---------- Refusals ----------

  /** No tuple of the queue is refused. */
  predicate NeverRefused(c: Config, r: Router, ts: seq<BinarySpeech>)
    requires WellFormed(c, r)
    decreases |ts|
  {
    ts != [] ==> Route(c, r, ts[0]).1 != Refused && NeverRefused(c, Next(c, r, ts[0]), ts[1..])
  }

  /** Every tuple of the queue is sent to a processor. */
  predicate AllForwarded(c: Config, r: Router, ts: seq<BinarySpeech>)
    requires WellFormed(c, r)
    decreases |ts|
  {
    ts != [] ==> Route(c, r, ts[0]).1.Forwarded? && AllForwarded(c, Next(c, r, ts[0]), ts[1..])
  }

  lemma {:induction false} NeverRefusedConcat(c: Config, r: Router, a: seq<BinarySpeech>, b: seq<BinarySpeech>)
    requires WellFormed(c, r)
    ensures NeverRefused(c, r, a + b) <==> NeverRefused(c, r, a) && NeverRefused(c, Run(c, r, a), b)
    decreases |a|
  {
    if a == [] {
      assert a + b == b;
    } else {
      assert (a + b)[0] == a[0] && (a + b)[1..] == a[1..] + b;
      NeverRefusedConcat(c, Next(c, r, a[0]), a[1..], b);
    }
  }

  lemma {:induction false} AllForwardedConcat(c: Config, r: Router, a: seq<BinarySpeech>, b: seq<BinarySpeech>)
    requires WellFormed(c, r)
    ensures AllForwarded(c, r, a + b) <==> AllForwarded(c, r, a) && AllForwarded(c, Run(c, r, a), b)
    decreases |a|
  {
    if a == [] {
      assert a + b == b;
    } else {
      assert (a + b)[0] == a[0] && (a + b)[1..] == a[1..] + b;
      AllForwardedConcat(c, Next(c, r, a[0]), a[1..], b);
    }
  }

  // ---------- Two-EOCS mode as a ledger of owed signals ----------

  /** For every call that holds a place, the channels of which the signal is still owed. */
  type Ledger = map<string, set<int>>

  /** A first fragment opens an account if there is a place; a signal pays for its channel; a paid account is closed. */
  function Entered(c: Config, owed: Ledger, t: BinarySpeech): Ledger {
    if t.endOfCall then
      if t.session !in owed then owed
      else if owed[t.session] <= {t.channel} then owed - {t.session}
      else owed[t.session := owed[t.session] - {t.channel}]
    else if t.size > 0 && t.session !in owed && Size(owed.Keys) < Places(c) then owed[t.session := {1, 2}]
    else owed
  }

  function LedgerOf(c: Config, owed: Ledger, ts: seq<BinarySpeech>): Ledger
    decreases |ts|
  {
    if ts == [] then owed else LedgerOf(c, Entered(c, owed, ts[0]), ts[1..])
  }

  predicate OwedMatch(owed: Ledger, r: Router, session: string) {
    && (session in owed <==> session in r.calls)
    && (session in owed ==>
          && owed[session] <= {1, 2}
          && (1 in owed[session] <==> Key(session, 1) !in r.done)
          && (2 in owed[session] <==> Key(session, 2) !in r.done))
  }

  ghost predicate LedgerMatches(owed: Ledger, r: Router) {
    forall session :: OwedMatch(owed, r, session)
  }

  lemma CallsAfter(c: Config, r: Router, t: BinarySpeech, session: string)
    requires c.eocsNeeded == 2 && Exact(c, r)
    ensures session in Next(c, r, t).calls <==>
      if t.session != session then session in r.calls
      else if session in r.calls then
        !(t.endOfCall && (t.channel == 1 || Key(session, 1) in r.done) && (t.channel == 2 || Key(session, 2) in r.done))
      else !t.endOfCall && t.size > 0 && Size(r.calls.Keys) < Places(c)
  {
    RefusedIffFull(c, r, t);
    hide Size, Exact, Places;
    KeyInjective(session, 1, session, t.channel);
    KeyInjective(session, 2, session, t.channel);
  }

  /** The account of a call that a signal may pay for or close. */
  lemma OwedAfterSignal(c: Config, owed: Ledger, r: Router, r': Router, t: BinarySpeech)
    requires OwedMatch(owed, r, t.session) && t.endOfCall
    requires t.session in r.calls ==> !(Key(t.session, 1) in r.done && Key(t.session, 2) in r.done)
    requires t.session in r'.calls <==>
      t.session in r.calls && !((t.channel == 1 || Key(t.session, 1) in r.done) && (t.channel == 2 || Key(t.session, 2) in r.done))
    requires t.session in r'.calls ==>
      && (Key(t.session, 1) in r'.done <==> t.channel == 1 || Key(t.session, 1) in r.done)
      && (Key(t.session, 2) in r'.done <==> t.channel == 2 || Key(t.session, 2) in r.done)
    ensures OwedMatch(Entered(c, owed, t), r', t.session)
  {
    hide Key, Size, Places;
    if t.session in owed {
      assert owed[t.session] <= {t.channel} <==>
        (1 in owed[t.session] ==> t.channel == 1) && (2 in owed[t.session] ==> t.channel == 2);
    }
  }

  lemma OwedAfterFragment(c: Config, owed: Ledger, r: Router, r': Router, t: BinarySpeech)
    requires OwedMatch(owed, r, t.session) && !t.endOfCall && owed.Keys == r.calls.Keys
    requires t.session !in r.calls ==> Key(t.session, 1) !in r.done && Key(t.session, 2) !in r.done
    requires t.session in r'.calls <==> t.session in r.calls || (t.size > 0 && Size(r.calls.Keys) < Places(c))
    requires Key(t.session, 1) in r'.done <==> Key(t.session, 1) in r.done
    requires Key(t.session, 2) in r'.done <==> Key(t.session, 2) in r.done
    ensures OwedMatch(Entered(c, owed, t), r', t.session)
  {
    hide Key, Size, Places;
  }

  lemma OwedElsewhere(c: Config, owed: Ledger, r: Router, r': Router, t: BinarySpeech, session: string)
    requires OwedMatch(owed, r, session) && t.session != session
    requires session in r'.calls <==> session in r.calls
    requires Key(session, 1) in r'.done <==> Key(session, 1) in r.done
    requires Key(session, 2) in r'.done <==> Key(session, 2) in r.done
    ensures OwedMatch(Entered(c, owed, t), r', session)
  {
    hide Key, Size, Places;
  }

  lemma SignalsPendingOf(c: Config, r: Router, session: string)
    requires c.eocsNeeded == 2 && SignalsPending(c, r)
    ensures session !in r.calls ==> Key(session, 1) !in r.done && Key(session, 2) !in r.done
    ensures !(Key(session, 1) in r.done && Key(session, 2) in r.done)
  {
    hide Key;
  }

  lemma InvariantHolds(c: Config, r: Router)
    requires Invariant(c, r)
    ensures Exact(c, r) && SignalsPending(c, r) && WellFormed(c, r)
  {
    hide Size, SignalsPending;
  }

  lemma MatchAt(owed: Ledger, r: Router, session: string)
    requires LedgerMatches(owed, r)
    ensures OwedMatch(owed, r, session)
  {
    hide OwedMatch;
  }

  lemma OwedStep(c: Config, owed: Ledger, r: Router, t: BinarySpeech, session: string)
    requires c.eocsNeeded == 2 && Invariant(c, r) && LedgerMatches(owed, r)
    ensures WellFormed(c, r) && OwedMatch(Entered(c, owed, t), Next(c, r, t), session)
  {
    hide *;
    InvariantHolds(c, r);
    MatchAt(owed, r, session);
    SameAccounts(owed, r);
    SignalsPendingOf(c, r, session);
    CallsAfter(c, r, t, session);
    SignalAfter(c, r, t, session, 1);
    SignalAfter(c, r, t, session, 2);
    if t.session != session {
      OwedElsewhere(c, owed, r, Next(c, r, t), t, session);
    } else if t.endOfCall {
      OwedAfterSignal(c, owed, r, Next(c, r, t), t);
    } else {
      OwedAfterFragment(c, owed, r, Next(c, r, t), t);
    }
  }

  lemma SameAccounts(owed: Ledger, r: Router)
    requires LedgerMatches(owed, r)
    ensures owed.Keys == r.calls.Keys
  {
    forall session ensures session in owed <==> session in r.calls {
      assert OwedMatch(owed, r, session);
    }
  }

  lemma {:induction false} LedgerRun(c: Config, owed: Ledger, r: Router, ts: seq<BinarySpeech>)
    requires c.eocsNeeded == 2 && Invariant(c, r) && LedgerMatches(owed, r)
    ensures LedgerMatches(LedgerOf(c, owed, ts), Run(c, r, ts))
    decreases |ts|
  {
    if ts != [] {
      forall session ensures OwedMatch(Entered(c, owed, ts[0]), Next(c, r, ts[0]), session) {
        OwedStep(c, owed, r, ts[0], session);
      }
      StepExact(c, r, ts[0]);
      StepSignals(c, r, ts[0]);
      hide OwedMatch, Invariant, Exact, SignalsPending, Entered, Route, Size;
      assert Invariant(c, Next(c, r, ts[0])) by { InvariantAfter(c, r, ts[0]); }
      LedgerRun(c, Entered(c, owed, ts[0]), Next(c, r, ts[0]), ts[1..]);
    }
  }

  lemma InvariantAfter(c: Config, r: Router, t: BinarySpeech)
    requires Invariant(c, r)
    ensures Invariant(c, Next(c, r, t))
  {
    StepExact(c, r, t);
    StepSignals(c, r, t);
    hide Exact, SignalsPending, Route;
  }

  lemma NothingOwed(c: Config)
    ensures LedgerMatches(map[], Initial(c))
  {
    hide Key;
    forall session ensures OwedMatch(map[], Initial(c), session) {
    }
  }

  /** Whatever arrives in two-EOCS mode, the places taken are the open accounts: the next first fragment is refused
      exactly when N * capacity accounts are open, and the processors are idle exactly when no signal is owed. */
  lemma PlacesAreOwed(c: Config, ts: seq<BinarySpeech>, t: BinarySpeech)
    requires c.eocsNeeded == 2
    ensures var r, owed := Run(c, Initial(c), ts), LedgerOf(c, map[], ts);
      && r.calls.Keys == owed.Keys
      && (Route(c, r, t).1 == Refused <==>
            !t.endOfCall && t.size > 0 && t.session !in owed && Size(owed.Keys) == Places(c))
      && ((forall p :: 0 <= p < c.processors ==> r.status[p] == 0) <==> owed == map[])
  {
    hide *;
    InitialInvariant(c);
    InvariantHolds(c, Initial(c));
    var r, owed := Run(c, Initial(c), ts), LedgerOf(c, map[], ts);
    NothingOwed(c);
    LedgerRun(c, map[], Initial(c), ts);
    RunInvariant(c, Initial(c), ts);
    SameAccounts(owed, r);
    InvariantHolds(c, r);
    RefusedIffFull(c, r, t);
    IdleIffNoCalls(c, r);
    assert owed == map[] <==> owed.Keys == {};
  }

  lemma IdleIffNoCalls(c: Config, r: Router)
    requires Exact(c, r) && WellFormed(c, r)
    ensures (forall p :: 0 <= p < c.processors ==> r.status[p] == 0) <==> r.calls.Keys == {}
  {
    hide Size;
    ExactCounts(c, r);
    if r.calls.Keys == {} {
      forall p | 0 <= p < c.processors ensures r.status[p] == 0 {
        EmptySize(CallsOn(r.calls, p + 1));
      }
    } else {
      var session :| session in r.calls;
      assert session in CallsOn(r.calls, r.calls[session]);
      EmptySize(CallsOn(r.calls, r.calls[session]));
      assert r.status[r.calls[session] - 1] != 0;
    }
  }

  // ---------- Where a tuple goes ----------

  /** What became of tuple i of the queue. */
  function FateAt(c: Config, r: Router, ts: seq<BinarySpeech>, i: nat): Fate
    requires WellFormed(c, r) && i < |ts|
  {
    Route(c, Run(c, r, ts[..i]), ts[i]).1
  }

  /** The call is known before and after each of the first n tuples. */
  predicate KnownUpTo(c: Config, r: Router, ts: seq<BinarySpeech>, session: string, n: nat)
    requires WellFormed(c, r) && n <= |ts|
    decreases n
  {
    session in r.calls && (n > 0 ==> KnownUpTo(c, Next(c, r, ts[0]), ts[1..], session, n - 1))
  }

  /** In either mode: a call that stays known keeps its processor, and its tuples go there. */
  lemma StepKeepsProcessor(c: Config, r: Router, t: BinarySpeech, session: string)
    requires WellFormed(c, r) && session in r.calls
    ensures session in Next(c, r, t).calls ==> Next(c, r, t).calls[session] == r.calls[session]
    ensures t.session == session && (t.endOfCall || t.size > 0) ==> Route(c, r, t).1 == Forwarded(r.calls[session])
  {
  }

  lemma {:induction false} KnownKeepsProcessor(c: Config, r: Router, ts: seq<BinarySpeech>, session: string, i: nat)
    requires WellFormed(c, r) && i <= |ts| && KnownUpTo(c, r, ts, session, i)
    ensures session in Run(c, r, ts[..i]).calls && Run(c, r, ts[..i]).calls[session] == r.calls[session]
    decreases i
  {
    if i > 0 {
      assert ts[..i][0] == ts[0] && ts[..i][1..] == ts[1..][..i - 1];
      StepKeepsProcessor(c, r, ts[0], session);
      hide Next, Route;
      KnownKeepsProcessor(c, Next(c, r, ts[0]), ts[1..], session, i - 1);
    }
  }

  /** While a call is known, every non-empty fragment and every signal of it is sent to the processor it was assigned. */
  lemma KnownGoesHome(c: Config, r: Router, ts: seq<BinarySpeech>, session: string, i: nat)
    requires WellFormed(c, r) && i < |ts| && KnownUpTo(c, r, ts, session, i)
    requires ts[i].session == session && (ts[i].endOfCall || ts[i].size > 0)
    ensures FateAt(c, r, ts, i) == Forwarded(r.calls[session])
  {
    KnownKeepsProcessor(c, r, ts, session, i);
    StepKeepsProcessor(c, Run(c, r, ts[..i]), ts[i], session);
    hide Route, KnownUpTo, Run;
  }

  /** The tuple is an end of call signal of channel 1 or 2 of the session. */
  predicate EndsChannel(t: BinarySpeech, session: string) {
    t.endOfCall && t.session == session && (t.channel == 1 || t.channel == 2)
  }

  /** In one-EOCS mode the first signal of a call, and nothing else, makes it unknown. */
  lemma OneSignalEnds(c: Config, r: Router, t: BinarySpeech, session: string)
    requires c.eocsNeeded == 1 && Invariant(c, r) && session in r.calls
    ensures session in Next(c, r, t).calls <==> !EndsChannel(t, session)
  {
    KeyInjective(session, 1, session, t.channel);
    KeyInjective(session, 2, session, t.channel);
  }

  lemma {:induction false} KnownUntilSignal(c: Config, r: Router, ts: seq<BinarySpeech>, session: string, n: nat)
    requires c.eocsNeeded == 1 && Invariant(c, r) && WellFormed(c, r) && session in r.calls && n <= |ts|
    requires forall j :: 0 <= j < n ==> !EndsChannel(ts[j], session)
    ensures KnownUpTo(c, r, ts, session, n)
    decreases n
  {
    if n > 0 {
      OneSignalEnds(c, r, ts[0], session);
      InvariantAfter(c, r, ts[0]);
      hide Invariant, Next, EndsChannel;
      KnownUntilSignal(c, Next(c, r, ts[0]), ts[1..], session, n - 1);
    }
  }

  /** One-EOCS mode: from its assignment up to and including its first signal, every non-empty fragment and that signal
      are sent to the processor assigned, none is ignored or refused; and with the signal the call is unknown. */
  lemma OneSignalSticky(c: Config, r: Router, ts: seq<BinarySpeech>, session: string, i: nat)
    requires c.eocsNeeded == 1 && Invariant(c, r) && WellFormed(c, r) && session in r.calls && i < |ts|
    requires forall j :: 0 <= j < i ==> !EndsChannel(ts[j], session)
    requires ts[i].session == session && (ts[i].endOfCall || ts[i].size > 0)
    ensures FateAt(c, r, ts, i) == Forwarded(r.calls[session])
    ensures session in Run(c, r, ts[..i + 1]).calls <==> !EndsChannel(ts[i], session)
  {
    KnownUntilSignal(c, r, ts, session, i);
    KnownGoesHome(c, r, ts, session, i);
    KnownKeepsProcessor(c, r, ts, session, i);
    RunInvariant(c, r, ts[..i]);
    OneSignalEnds(c, Run(c, r, ts[..i]), ts[i], session);
    RunOneMore(c, r, ts, i);
    hide Invariant, Next, EndsChannel, FateAt, KnownUpTo, Run;
  }

  lemma RunOneMore(c: Config, r: Router, ts: seq<BinarySpeech>, i: nat)
    requires WellFormed(c, r) && i < |ts|
    ensures Run(c, r, ts[..i + 1]) == Next(c, Run(c, r, ts[..i]), ts[i])
  {
    var r' := Run(c, r, ts[..i]);
    assert ts[..i + 1] == ts[..i] + [ts[i]];
    RunConcat(c, r, ts[..i], [ts[i]]);
    hide Next;
    assert [ts[i]][1..] == [];
    assert Run(c, r', [ts[i]]) == Run(c, Next(c, r', ts[i]), []);
  }

  /** Two-EOCS mode: the same as long as not both channels have signalled. */
  lemma {:induction false} KnownUntilBoth(c: Config, r: Router, ts: seq<BinarySpeech>, session: string, n: nat)
    requires c.eocsNeeded == 2 && WellFormed(c, r) && session in r.calls && n <= |ts|
    requires !(Signalled(r, ts[..n], session, 1) && Signalled(r, ts[..n], session, 2))
    ensures KnownUpTo(c, r, ts, session, n)
    decreases n
  {
    if n > 0 {
      var t := ts[0];
      assert ts[..n][0] == t && ts[..n][1..] == ts[1..][..n - 1];
      assert forall ch :: Signalled(r, [t], session, ch) ==> Signalled(r, ts[..n], session, ch);
      StepSticky(c, r, t, session);
      SignalAfter(c, r, t, session, 1);
      SignalAfter(c, r, t, session, 2);
      LaterSignalled(c, r, ts[..n], session, 1);
      LaterSignalled(c, r, ts[..n], session, 2);
      hide Signalled, Next;
      KnownUntilBoth(c, Next(c, r, t), ts[1..], session, n - 1);
    }
  }

  lemma LaterSignalled(c: Config, r: Router, ts: seq<BinarySpeech>, session: string, channel: int)
    requires WellFormed(c, r) && ts != [] && session in r.calls && (channel == 1 || channel == 2)
    requires session in Next(c, r, ts[0]).calls
    ensures Signalled(Next(c, r, ts[0]), ts[1..], session, channel) ==> Signalled(r, ts, session, channel)
  {
    SignalAfter(c, r, ts[0], session, channel);
    hide Next, Key;
    if exists i :: 0 <= i < |ts[1..]| && ts[1..][i].endOfCall && ts[1..][i].session == session && ts[1..][i].channel == channel {
      var i :| 0 <= i < |ts[1..]| && ts[1..][i].endOfCall && ts[1..][i].session == session && ts[1..][i].channel == channel;
      assert ts[i + 1] == ts[1..][i];
    }
  }

  lemma TwoSignalsSticky(c: Config, r: Router, ts: seq<BinarySpeech>, session: string, i: nat)
    requires c.eocsNeeded == 2 && WellFormed(c, r) && session in r.calls && i < |ts|
    requires !(Signalled(r, ts[..i], session, 1) && Signalled(r, ts[..i], session, 2))
    requires ts[i].session == session && (ts[i].endOfCall || ts[i].size > 0)
    ensures FateAt(c, r, ts, i) == Forwarded(r.calls[session])
  {
    KnownUntilBoth(c, r, ts, session, i);
    KnownGoesHome(c, r, ts, session, i);
    hide FateAt;
  }

  /** A tuple that is not sent anywhere is an empty fragment, a signal of an unknown call, or a first fragment without a
      place, and it changes nothing. */
  lemma UnsentChangesNothing(c: Config, r: Router, t: BinarySpeech)
    requires Exact(c, r)
    ensures !Route(c, r, t).1.Forwarded? <==>
      if t.endOfCall then t.session !in r.calls
      else t.size == 0 || (t.session !in r.calls && Size(r.calls.Keys) == Places(c))
    ensures !Route(c, r, t).1.Forwarded? ==> Next(c, r, t) == r
  {
    RefusedIffFull(c, r, t);
    hide Size, Places, Exact;
  }

  lemma {:induction false} NeverRefusedAt(c: Config, r: Router, ts: seq<BinarySpeech>, i: nat)
    requires WellFormed(c, r) && NeverRefused(c, r, ts) && i < |ts|
    ensures FateAt(c, r, ts, i) != Refused
    decreases i
  {
    if i == 0 {
      assert ts[..0] == [];
    } else {
      assert ts[..i][0] == ts[0] && ts[..i][1..] == ts[1..][..i - 1];
      hide Next, Route;
      NeverRefusedAt(c, Next(c, r, ts[0]), ts[1..], i - 1);
    }
  }

  /** A queue of which a part has been consumed. */
  lemma FateLater(c: Config, r: Router, ts: seq<BinarySpeech>, i: nat, j: nat)
    requires WellFormed(c, r) && i + j < |ts|
    ensures FateAt(c, Run(c, r, ts[..i]), ts[i..], j) == FateAt(c, r, ts, i + j)
    ensures forall k: nat :: k <= j ==> Run(c, Run(c, r, ts[..i]), ts[i..][..k]) == Run(c, r, ts[..i + k])
  {
    hide Route, Next, Run;
    forall k: nat | k <= j ensures Run(c, Run(c, r, ts[..i]), ts[i..][..k]) == Run(c, r, ts[..i + k]) {
      assert ts[..i + k] == ts[..i] + ts[i..][..k];
      RunConcat(c, r, ts[..i], ts[i..][..k]);
    }
  }

  lemma FirstFragment(c: Config, r: Router, t: BinarySpeech)
    requires WellFormed(c, r) && !t.endOfCall && t.size > 0 && Route(c, r, t).1 != Refused
    ensures Route(c, r, t).1.Forwarded? && t.session in Next(c, r, t).calls
    ensures Next(c, r, t).calls[t.session] == Route(c, r, t).1.processor
  {
  }

  /** One-EOCS mode: when nothing is refused, a fragment and a later tuple of the same call, without a signal of it in
      between, go to one processor. */
  lemma OneProcessorUntilSignal(c: Config, ts: seq<BinarySpeech>, i: nat, j: nat)
    requires c.eocsNeeded == 1 && i < j < |ts| && ts[i].session == ts[j].session
    requires NeverRefused(c, Initial(c), ts)
    requires !ts[i].endOfCall && ts[i].size > 0 && (ts[j].endOfCall || ts[j].size > 0)
    requires forall k :: i <= k < j ==> !EndsChannel(ts[k], ts[j].session)
    ensures FateAt(c, Initial(c), ts, i).Forwarded? && FateAt(c, Initial(c), ts, j) == FateAt(c, Initial(c), ts, i)
    ensures ts[j].session in Run(c, Initial(c), ts[..j + 1]).calls <==> !EndsChannel(ts[j], ts[j].session)
  {
    hide EndsChannel, NeverRefused, Route, Next, Invariant;
    var r0, n, m := Initial(c), i + 1, j - i - 1;
    NeverRefusedAt(c, r0, ts, i);
    FirstFragment(c, Run(c, r0, ts[..i]), ts[i]);
    RunOneMore(c, r0, ts, i);
    InitialInvariant(c);
    RunInvariant(c, r0, ts[..n]);
    FateLater(c, r0, ts, n, m);
    OneSignalSticky(c, Run(c, r0, ts[..n]), ts[n..], ts[j].session, m);
    RunOneMore(c, r0, ts, j);
    RunOneMore(c, Run(c, r0, ts[..n]), ts[n..], m);
  }
}
