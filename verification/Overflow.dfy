/** Two-EOCS mode without the pairing of channels: calls that wait for a signal fill the router, whatever the limit. */
module Overflow {
  import opened Wrappers
  import opened Sets
  import opened ChannelKey
  import opened SpeechStream
  import opened GatewaySource
  import opened GatewayProperties
  import opened GatewayRefinement
  import opened GatewayOutput
  import opened EndToEnd
  import opened TwoSignals
  import R = CallRouter
  import P = RouterProperties

  // ---------- Any calls that were left unsettled ----------

  /** The run leaves this call unsettled, and nobody answers. */
  predicate LeftWaiting(s: Source, gone: Gone, es: seq<Event>, session: string)
    decreases |es|
  {
    es != [] &&
      if Unsettles(s, gone, es[0], session) then
        NeverAnswered(Step(0, s, es[0]), es[1..], session, Owed(s, es[0]))
      else LeftWaiting(Step(0, s, es[0]), GoneAfter(s, gone, es[0]), es[1..], session)
  }

  lemma LeftByAnEvent(s: Source, gone: Gone, es: seq<Event>, session: string)
    requires LeftWaiting(s, gone, es, session)
    ensures es != []
  {
  }

  lemma LeftNow(s: Source, gone: Gone, es: seq<Event>, session: string)
    requires es != [] && Unsettles(s, gone, es[0], session) && LeftWaiting(s, gone, es, session)
    ensures NeverAnswered(Step(0, s, es[0]), es[1..], session, Owed(s, es[0]))
  {
    hide Unsettles, NeverAnswered, Step, GoneAfter;
  }

  lemma LeftLater(s: Source, gone: Gone, es: seq<Event>, session: string)
    requires es != [] && !Unsettles(s, gone, es[0], session) && LeftWaiting(s, gone, es, session)
    ensures LeftWaiting(Step(0, s, es[0]), GoneAfter(s, gone, es[0]), es[1..], session)
  {
    hide Unsettles, NeverAnswered, Step, GoneAfter;
  }

  lemma HeadAndTail<T>(es: seq<T>)
    requires es != []
    ensures es == [es[0]] + es[1..]
  {
  }

  lemma {:induction false} WaitingStays(c: R.Config, s: Source, gone: Gone, r: R.Router, es: seq<Event>, session: string)
    requires c.eocsNeeded == 2 && Refines(s) && P.Invariant(c, r) && R.WellFormed(c, r) && CoupledAt(s, gone, r, session)
    requires FreshOpens(s, es) && P.NeverRefused(c, r, Output(s, es)) && LeftWaiting(s, gone, es, session)
    ensures session in P.Run(c, r, Output(s, es)).calls
    decreases |es|
  {
    hide *;
    LeftByAnEvent(s, gone, es, session);
    var e, s', ts := es[0], Step(0, s, es[0]), Emits(s, es[0]);
    Unroll(s, es);
    Composed(c, s, r, es);
    if Unsettles(s, gone, e, session) {
      LeftNow(s, gone, es, session);
      HeadAndTail(es);
      WaitsForTheOwed(c, s, gone, r, e, es[1..], session);
    } else {
      LeftLater(s, gone, es, session);
      StepRefines(s, e);
      P.RunInvariant(c, r, ts);
      CoupledAtStep(c, s, gone, r, e, session);
      WaitingStays(c, s', GoneAfter(s, gone, e), P.Run(c, r, ts), es[1..], session);
    }
  }

  /** The first packet of a new call that the limit admits. */
  predicate Admits(s: Source, e: Event) {
    StartsSpeaking(s, e) && s.connections[e.h].session !in s.channels && s.active < s.limit
  }

  lemma AdmittedTuple(s: Source, e: Event)
    requires Refines(s) && Admits(s, e)
    ensures var ts := Emits(s, e);
      |ts| == 1 && !ts[0].endOfCall && ts[0].size > 0 && ts[0].session == s.connections[e.h].session
  {
    hide Size;
    FirstPacketShape(s, e.h, e.size);
  }

  lemma {:induction false} FreshPrefix(s: Source, es: seq<Event>, e: Event)
    requires FreshOpens(s, es + [e])
    ensures FreshOpens(s, es) && FreshOpen(Run(0, s, es), e)
    decreases |es|
  {
    if es == [] {
      assert es + [e] == [e];
    } else {
      assert (es + [e])[0] == es[0] && (es + [e])[1..] == es[1..] + [e];
      hide Step;
      FreshPrefix(Step(0, s, es[0]), es[1..], e);
    }
  }

  lemma OutputOfOne(s: Source, e: Event)
    ensures Output(s, [e]) == Emits(s, e)
  {
    assert [e][1..] == [];
    hide Step, Emits;
  }

  /** N * capacity calls that wait, and a fragment of another one. */
  lemma FullOfWaiting(c: R.Config, r: R.Router, t: BinarySpeech, waiting: set<string>)
    requires P.Exact(c, r) && waiting <= r.calls.Keys && Size(waiting) >= P.Places(c)
    requires !t.endOfCall && t.size > 0 && t.session !in waiting
    ensures R.Route(c, r, t).1 == R.Refused
  {
    P.RefusedIffFull(c, r, t);
    hide Size, P.Places, P.Exact, R.Route;
    SmallerSet(waiting, r.calls.Keys);
    if t.session in r.calls {
      AddOne(waiting, t.session);
      SmallerSet(waiting + {t.session}, r.calls.Keys);
    }
  }

  /** Once N * capacity calls have been left unsettled and nobody answers for them, the first fragment of any other call
      that is admitted is refused, unless something was refused before it already. */
  lemma WaitingCallsOverflow(c: R.Config, limit: nat, now: int, es: seq<Event>, e: Event, waiting: set<string>)
    requires c.eocsNeeded == 2 && FreshOpens(Initial(limit, now), es + [e])
    requires Size(waiting) >= P.Places(c)
    requires forall session :: session in waiting ==> LeftWaiting(Initial(limit, now), {}, es, session)
    requires var s := Run(0, Initial(limit, now), es); Admits(s, e) && s.connections[e.h].session !in waiting
    ensures !P.NeverRefused(c, R.Initial(c), Output(Initial(limit, now), es + [e]))
  {
    hide *;
    var s0, r0 := Initial(limit, now), R.Initial(c);
    var s := Run(0, s0, es);
    InitialRefines(limit, now);
    P.InitialInvariant(c);
    InvariantIsExact(c, r0);
    ExactIsWellFormed(c, r0);
    InitiallyCoupled(c, limit, now);
    FreshPrefix(s0, es, e);
    RunRefines(s0, es);
    OutputConcat(s0, es, [e]);
    OutputOfOne(s, e);
    AdmittedTuple(s, e);
    P.NeverRefusedConcat(c, r0, Output(s0, es), Emits(s, e));
    if P.NeverRefused(c, r0, Output(s0, es)) {
      forall session | session in waiting ensures session in P.Run(c, r0, Output(s0, es)).calls {
        CoupledHere(s0, {}, r0, session);
        WaitingStays(c, s0, {}, r0, es, session);
      }
      var r := P.Run(c, r0, Output(s0, es));
      P.RunInvariant(c, r0, Output(s0, es));
      InvariantIsExact(c, r);
      FullOfWaiting(c, r, Emits(s, e)[0], waiting);
      OneTuple(c, r, s, e);
    }
  }

  // ---------- A limit of one call is enough ----------

  /** A call of one connection, which speaks once and closes. */
  function LoneCaller(k: nat, now: int): seq<Event> {
    NewCaller(k, now) + [Close(k, now)]
  }

  function LoneCallers(k: nat, n: nat, now: int): seq<Event>
    requires k <= n
    decreases n - k
  {
    if k == n then [] else LoneCaller(k, now) + LoneCallers(k + 1, n, now)
  }

  /** Nobody is connected and no call is live. */
  predicate Vacant(s: Source) {
    s.connections == map[] && s.channels == map[] && s.throttled == {} && s.active == 0
  }

  lemma LoneCallerSteps(s: Source, k: nat, now: int)
    requires Vacant(s) && s.limit > 0
    ensures var es := LoneCaller(k, now);
      var s1 := Step(0, s, es[0]); var s2 := Step(0, s1, es[1]); var s3 := Step(0, s2, es[2]); var s4 := Step(0, s3, es[3]);
      && FreshOpen(s, es[0]) && Emits(s, es[0]) == [] && Emits(s1, es[1]) == []
      && |Emits(s2, es[2])| == 1 && Fragment(Emits(s2, es[2])[0], Decimal(k))
      && |Emits(s3, es[3])| == 1 && Signals(Emits(s3, es[3])[0], Decimal(k), 1)
      && Vacant(s4) && s4.limit == s.limit
  {
    hide Size, Decimal;
    DecimalNotEmpty(k);
    var es := LoneCaller(k, now);
    var s1 := Step(0, s, es[0]);
    var s2 := Step(0, s1, es[1]);
    assert s2.connections[k] == Connection(Started, now, 0, 0, Decimal(k), false, 0);
    var s3 := Step(0, s2, es[2]);
    assert s3.connections[k] == Connection(Started, now, 1, 1, Decimal(k), false, 1);
    assert s3.channels == map[Decimal(k) := [now]] && s3.active == 1 && s3.throttled == {};
    var s4 := Step(0, s3, es[3]);
    assert s4.connections == map[] && s4.channels == map[];
  }

  lemma DecimalNotEmpty(k: nat)
    ensures Decimal(k) != ""
  {
    DigitsOnly(k);
  }

  predicate Fragment(t: BinarySpeech, session: string) {
    !t.endOfCall && t.size > 0 && t.session == session
  }

  lemma FourThenRest(k: nat, n: nat, now: int)
    requires k < n
    ensures var all, es, rest := LoneCallers(k, n, now), LoneCaller(k, now), LoneCallers(k + 1, n, now);
      && |es| == 4 && |all| > 3 && all[0] == es[0] && all[1..][0] == es[1] && all[1..][1..][0] == es[2] && all[1..][1..][1..][0] == es[3]
      && all[1..][1..][1..][1..] == rest && es[2].Binary? && es[3].Close? && es[1].TextMessage?
  {
    var all, es, rest := LoneCallers(k, n, now), LoneCaller(k, now), LoneCallers(k + 1, n, now);
    assert all == es + rest && |es| == 4;
  }

  lemma NotOpening(s: Source, e: Event)
    ensures !e.Open? ==> FreshOpen(s, e)
  {
  }

  /** The two tuples of a lone caller, and what is left of the run. */
  lemma LoneRound(s: Source, k: nat, n: nat, now: int) returns (s': Source, t: BinarySpeech, u: BinarySpeech)
    requires Vacant(s) && s.limit > 0 && k < n
    ensures Fragment(t, Decimal(k)) && Signals(u, Decimal(k), 1) && Vacant(s') && s'.limit == s.limit
    ensures Output(s, LoneCallers(k, n, now)) == [t] + ([u] + Output(s', LoneCallers(k + 1, n, now)))
    ensures FreshOpens(s, LoneCallers(k, n, now)) <==> FreshOpens(s', LoneCallers(k + 1, n, now))
  {
    hide *;
    LoneCallerSteps(s, k, now);
    FourThenRest(k, n, now);
    var es, all := LoneCaller(k, now), LoneCallers(k, n, now);
    var s1 := Step(0, s, es[0]);
    var s2 := Step(0, s1, es[1]);
    var s3 := Step(0, s2, es[2]);
    s' := Step(0, s3, es[3]);
    t, u := Emits(s2, es[2])[0], Emits(s3, es[3])[0];
    NotOpening(s1, es[1]);
    NotOpening(s2, es[2]);
    NotOpening(s3, es[3]);
    Unroll(s, all);
    Unroll(s1, all[1..]);
    Unroll(s2, all[1..][1..]);
    Unroll(s3, all[1..][1..][1..]);
    assert Emits(s2, es[2]) == [t] && Emits(s3, es[3]) == [u];
  }

  /** The router after both tuples: if there was a place, it is taken for good. */
  lemma LoneTuples(c: R.Config, r: R.Router, t: BinarySpeech, u: BinarySpeech, session: string)
    requires c.eocsNeeded == 2 && P.Invariant(c, r) && P.Exact(c, r) && R.WellFormed(c, r)
    requires Fragment(t, session) && Signals(u, session, 1) && session !in r.calls
    requires Size(r.calls.Keys) < P.Places(c)
    ensures var r' := P.Next(c, P.Next(c, r, t), u);
      r'.calls.Keys == r.calls.Keys + {session} && P.Invariant(c, r')
  {
    hide Size, P.Places, P.Exact, P.Invariant, R.Route, R.WellFormed, Key;
    RefusedNext(c, r, t);
    NoSignalOfUnknown(c, r, session);
    FragmentKeepsSignals(c, r, t);
    RouterStep(c, r, t);
    RouterStep(c, P.Next(c, r, t), u);
    TwoSignalRoute(c, P.Next(c, r, t), u);
  }

  /** Every caller so far holds a place, and every later one is new. */
  ghost predicate Taken(r: R.Router, k: nat) {
    Size(r.calls.Keys) == k && forall i: nat :: i >= k ==> Decimal(i) !in r.calls
  }

  lemma TakenNext(r: R.Router, r': R.Router, k: nat)
    requires Taken(r, k) && r'.calls.Keys == r.calls.Keys + {Decimal(k)}
    ensures Taken(r', k + 1)
  {
    hide Size, Decimal;
    assert Decimal(k) !in r.calls;
    AddOne(r.calls.Keys, Decimal(k));
    forall i: nat | i >= k + 1 ensures Decimal(i) !in r'.calls {
      if Decimal(i) == Decimal(k) {
        DecimalInjective(i, k);
      }
    }
  }

  lemma TakenNow(r: R.Router, k: nat)
    requires Taken(r, k)
    ensures Size(r.calls.Keys) == k && Decimal(k) !in r.calls
  {
    hide Size, Decimal;
  }

  lemma FragmentFacts(t: BinarySpeech, session: string)
    requires Fragment(t, session)
    ensures !t.endOfCall && t.size > 0 && t.session == session
  {
  }

  lemma NoLoneCallersLeft(s: Source, n: nat, now: int)
    ensures FreshOpens(s, LoneCallers(n, n, now))
  {
  }

  lemma {:induction false} LoneCallersOverflow(c: R.Config, s: Source, r: R.Router, k: nat, now: int)
    requires c.eocsNeeded == 2 && k <= P.Places(c) && Vacant(s) && s.limit > 0
    requires P.Invariant(c, r) && R.WellFormed(c, r) && Taken(r, k)
    ensures FreshOpens(s, LoneCallers(k, P.Places(c) + 1, now))
    ensures !P.NeverRefused(c, r, Output(s, LoneCallers(k, P.Places(c) + 1, now)))
    decreases P.Places(c) - k
  {
    hide *;
    var n := P.Places(c) + 1;
    var s', t, u := LoneRound(s, k, n, now);
    var rest := Output(s', LoneCallers(k + 1, n, now));
    InvariantIsExact(c, r);
    TakenNow(r, k);
    FragmentFacts(t, Decimal(k));
    RefusedNext(c, r, t);
    HeadRefused(c, r, t, [u] + rest);
    if k < P.Places(c) {
      LoneTuples(c, r, t, u, Decimal(k));
      HeadRefused(c, P.Next(c, r, t), u, rest);
      TakenNext(r, P.Next(c, P.Next(c, r, t), u), k);
      LoneCallersOverflow(c, s', P.Next(c, P.Next(c, r, t), u), k + 1, now);
    } else {
      NoLoneCallersLeft(s', n, now);
    }
  }

  lemma {:induction false} LoneCallersSetNoLimit(k: nat, n: nat, now: int)
    requires k <= n
    ensures forall i :: 0 <= i < |LoneCallers(k, n, now)| ==> !LoneCallers(k, n, now)[i].SetLimit?
    decreases n - k
  {
    if k < n {
      LoneCallersSetNoLimit(k + 1, n, now);
    }
  }

  lemma InitiallyVacant(limit: nat, now: int)
    ensures Vacant(Initial(limit, now)) && Initial(limit, now).limit == limit
  {
  }

  lemma InitiallyTaken(c: R.Config)
    ensures Taken(R.Initial(c), 0)
  {
    hide Decimal;
    EmptySize(R.Initial(c).calls.Keys);
  }

  /** N * capacity + 1 calls of one connection each, one after the other: the last one is refused, under any limit. */
  lemma LoneCallsOverflow(c: R.Config, limit: nat, now: int)
    requires c.eocsNeeded == 2 && limit > 0
    ensures var s, es := Initial(limit, now), LoneCallers(0, P.Places(c) + 1, now);
      FreshOpens(s, es) && !P.NeverRefused(c, R.Initial(c), Output(s, es))
  {
    hide *;
    P.InitialInvariant(c);
    InvariantIsExact(c, R.Initial(c));
    ExactIsWellFormed(c, R.Initial(c));
    InitiallyVacant(limit, now);
    InitiallyTaken(c);
    LoneCallersOverflow(c, Initial(limit, now), R.Initial(c), 0, now);
  }

  // ---------- A limit of none protects ----------

  /** Under a limit of 0 every call is throttled. */
  lemma NothingForwarded(s: Source)
    requires Accounted(s) && s.active <= 0
    ensures Forwarding(s) == {}
  {
    hide Size, Forwarding, Accounted;
    ForwardingIsActive(s);
    EmptySize(Forwarding(s));
    SizeIsNat(Forwarding(s));
  }

  lemma SizeIsNat<T>(a: set<T>)
    ensures Size(a) >= 0
  {
  }

  lemma RefinedIsAccounted(s: Source)
    requires Refines(s)
    ensures Accounted(s)
  {
    hide Accounted;
  }

  lemma NothingEmitted(s: Source, e: Event)
    requires Refines(s) && FreshOpen(s, e) && Forwarding(s) == {} && Forwarding(Step(0, s, e)) == {}
    ensures Emits(s, e) == []
  {
    hide Refines, Step, Emits, Forwarding;
    ForwardingStep(s, e);
  }

  lemma FirstLimit(s: Source, es: seq<Event>, bound: int)
    requires es != [] && LimitsBelow(s, es, bound)
    ensures s.limit <= bound && LimitBelow(es[0], bound)
  {
  }

  lemma LaterLimits(s: Source, s': Source, es: seq<Event>, bound: int)
    requires es != [] && LimitsBelow(s, es, bound) && s'.limit <= bound
    ensures LimitsBelow(s', es[1..], bound)
  {
  }

  lemma {:induction false} NothingSubmitted(s: Source, es: seq<Event>)
    requires Refines(s) && s.active <= 0 && FreshOpens(s, es) && LimitsBelow(s, es, 0)
    ensures Output(s, es) == []
    decreases |es|
  {
    if es != [] {
      var s', e := Step(0, s, es[0]), es[0];
      hide *;
      Unroll(s, es);
      FirstLimit(s, es, 0);
      RefinedIsAccounted(s);
      ActiveStep(s, e, 0);
      StepRefines(s, e);
      RefinedIsAccounted(s');
      NothingForwarded(s);
      NothingForwarded(s');
      NothingEmitted(s, e);
      LaterLimits(s, s', es, 0);
      NothingSubmitted(s', es[1..]);
    }
  }

  lemma ProtectedByNone(c: R.Config, limit: nat, now: int, es: seq<Event>)
    ensures Protected(c, limit, now, es, 0)
  {
    if FreshOpens(Initial(limit, now), es) && LimitsBelow(Initial(limit, now), es, 0) {
      hide Output, FreshOpens, Size, LimitsBelow;
      InitialRefines(limit, now);
      NothingSubmitted(Initial(limit, now), es);
    }
  }

  lemma UnprotectedBySome(c: R.Config, bound: nat) returns (es: seq<Event>)
    requires c.eocsNeeded == 2 && bound > 0
    ensures !Protected(c, bound, 0, es, bound)
  {
    es := LoneCallers(0, P.Places(c) + 1, 0);
    LoneCallersSetNoLimit(0, P.Places(c) + 1, 0);
    LoneCallsOverflow(c, bound, 0);
    assert LimitsBelow(Initial(bound, 0), es, bound) by {
      hide LoneCallers, P.Places;
    }
    hide LoneCallers, P.Places, Output, FreshOpens, P.NeverRefused, R.Initial;
  }

  /** In two-EOCS mode the throttling alone does not protect the router: the runs under a bound on the limits are all free
      of refusals exactly when the bound admits no call at all. SettledAdmission says what the calls have to do besides. */
  lemma ProtectedIffNoneAdmitted(c: R.Config, bound: nat)
    requires c.eocsNeeded == 2
    ensures bound == 0 <==> forall limit: nat, now, es :: Protected(c, limit, now, es, bound)
  {
    hide P.Places, Protected;
    if bound == 0 {
      forall limit: nat, now, es ensures Protected(c, limit, now, es, bound) {
        ProtectedByNone(c, limit, now, es);
      }
    } else {
      var es := UnprotectedBySome(c, bound);
    }
  }
}
