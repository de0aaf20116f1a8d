/** The voice gateway source composed with the call router: the source's throttling protects the router. */
module EndToEnd {
  import opened Wrappers
  import opened Sets
  import opened ChannelKey
  import opened SpeechStream
  import opened GatewaySource
  import opened GatewayProperties
  import opened GatewayRefinement
  import opened GatewayOutput
  import R = CallRouter
  import P = RouterProperties

  /** The calls that the source forwards. */
  function Forwarding(s: Source): set<string> {
    s.channels.Keys - s.throttled
  }

  /** The router after the tuples of one event. An event submits at most one tuple. */
  lemma OneTuple(c: R.Config, r: R.Router, s: Source, e: Event)
    requires R.WellFormed(c, r)
    ensures |Emits(s, e)| <= 1
    ensures P.Run(c, r, Emits(s, e)) == if Emits(s, e) == [] then r else P.Next(c, r, Emits(s, e)[0])
    ensures P.NeverRefused(c, r, Emits(s, e)) <==> Emits(s, e) == [] || R.Route(c, r, Emits(s, e)[0]).1 != R.Refused
    ensures P.AllForwarded(c, r, Emits(s, e)) <==> Emits(s, e) == [] || R.Route(c, r, Emits(s, e)[0]).1.Forwarded?
  {
    var ts := Emits(s, e);
    if ts != [] {
      assert ts[1..] == [];
      assert P.Run(c, P.Next(c, r, ts[0]), ts[1..]) == P.Next(c, r, ts[0]);
    }
  }

  /** What a step does to the forwarded calls, told by the tuples it submits. */
  ghost predicate ForwardingTold(s: Source, s': Source, ts: seq<BinarySpeech>) {
    if ts == [] then Forwarding(s') == Forwarding(s)
    else
      && (ts[0].channel == 1 || ts[0].channel == 2)
      && if ts[0].endOfCall then
           ts[0].session in Forwarding(s) && Forwarding(s) - {ts[0].session} <= Forwarding(s') <= Forwarding(s)
         else
           ts[0].size > 0 && ts[0].session in Forwarding(s') && Forwarding(s') == Forwarding(s) + {ts[0].session}
  }

  lemma LaterPacketForwarding(s: Source, h: Handle, size: nat)
    requires Refines(s) && h in s.connections && s.connections[h].packets > 0
    ensures ForwardingTold(s, AfterBinary(s, h, size).0, AfterBinary(s, h, size).1)
  {
    hide Size, Numbered, OneFirstChannel;
    assert ConnectionOk(s.connections[h]) && Summarises(s, s.connections[h].session);
    assert h in Speaking(s.connections, s.connections[h].session);
  }

  lemma FirstPacketForwarding(s: Source, h: Handle, size: nat)
    requires Refines(s) && h in s.connections && s.connections[h].packets == 0
    ensures ForwardingTold(s, AfterBinary(s, h, size).0, AfterBinary(s, h, size).1)
  {
    hide Size, OneFirstChannel;
    if size > 0 && s.connections[h].status == Started {
      assert Summarises(s, s.connections[h].session);
      FirstPacketShape(s, h, size);
    }
  }

  lemma CloseForwarding(s: Source, h: Handle, now: int)
    requires Refines(s) && h in s.connections
    ensures ForwardingTold(s, AfterClose(s, h, now, 0), BeforePurge(s, h).1)
  {
    hide Size, OneFirstChannel;
    assert ConnectionOk(s.connections[h]);
  }

  /** What an event does to the forwarded calls. */
  lemma ForwardingStep(s: Source, e: Event)
    requires Refines(s) && FreshOpen(s, e)
    ensures ForwardingTold(s, Step(0, s, e), Emits(s, e))
  {
    hide Size, Refines, AfterClose, BeforePurge;
    match e
    case Binary(h, size) =>
      if h in s.connections {
        if s.connections[h].packets > 0 {
          LaterPacketForwarding(s, h, size);
        } else {
          FirstPacketForwarding(s, h, size);
        }
        hide AfterBinary;
      }
    case Close(h, now) =>
      if h in s.connections {
        CloseForwarding(s, h, now);
      } else {
        IgnoredClose(s, h, now);
      }
    case _ =>
  }

  lemma IgnoredClose(s: Source, h: Handle, now: int)
    requires h !in s.connections
    ensures AfterClose(s, h, now, 0) == s
  {
  }

  /** As many calls are forwarded as are active. */
  lemma ForwardingIsActive(s: Source)
    requires Accounted(s)
    ensures Size(Forwarding(s)) == s.active
  {
    SizeWithout(s.channels.Keys, s.throttled);
    assert s.channels.Keys * s.throttled == s.throttled;
  }

  /** The limit in force, and with it the active calls, fit the processors. */
  ghost predicate Sound(c: R.Config, s: Source, r: R.Router) {
    && Refines(s) && s.active <= P.Places(c) && s.limit <= P.Places(c)
    && P.Invariant(c, r)
  }

  lemma SoundFacts(c: R.Config, s: Source, r: R.Router)
    requires Sound(c, s, r)
    ensures Refines(s) && Accounted(s) && s.active <= P.Places(c) && s.limit <= P.Places(c)
    ensures R.WellFormed(c, r) && P.Exact(c, r) && P.Invariant(c, r)
  {
    hide Size;
  }

  /** An accepted limit stays within the bound. */
  predicate LimitBelow(e: Event, bound: int) {
    e.SetLimit? ==> e.value <= bound
  }

  lemma ActiveStep(s: Source, e: Event, bound: int)
    requires Accounted(s) && s.active <= bound && s.limit <= bound && LimitBelow(e, bound)
    ensures Step(0, s, e).active <= bound && Step(0, s, e).limit <= bound
  {
    hide Size, Accounted, AfterClose;
    if e.Close? {
      CloseStep(0, s, e.h, e.now);
    }
  }

  lemma RouterStep(c: R.Config, r: R.Router, t: BinarySpeech)
    requires P.Invariant(c, r)
    ensures P.Invariant(c, P.Next(c, r, t))
  {
    P.StepExact(c, r, t);
    P.StepSignals(c, r, t);
  }

  lemma SoundStep(c: R.Config, s: Source, r: R.Router, e: Event)
    requires Sound(c, s, r) && FreshOpen(s, e) && LimitBelow(e, P.Places(c))
    ensures Sound(c, Step(0, s, e), P.Run(c, r, Emits(s, e)))
  {
    assert Accounted(s) && R.WellFormed(c, r);
    hide Size, P.Invariant, P.Places, Refines, Step, Emits, R.Route;
    StepRefines(s, e);
    ActiveStep(s, e, P.Places(c));
    OneTuple(c, r, s, e);
    if Emits(s, e) != [] {
      RouterStep(c, r, Emits(s, e)[0]);
    }
  }

  lemma RefusedOnlyWhenFull(c: R.Config, r: R.Router, t: BinarySpeech)
    requires P.Exact(c, r) && R.Route(c, r, t).1 == R.Refused
    ensures t.session !in r.calls && Size(r.calls.Keys) == P.Places(c)
  {
    P.RefusedIffFull(c, r, t);
  }

  /** While the router knows only forwarded calls, there is a place for one more of them. */
  lemma PlaceForForwarded(c: R.Config, s': Source, r: R.Router, t: BinarySpeech)
    requires P.Exact(c, r) && Accounted(s') && s'.active <= P.Places(c)
    requires r.calls.Keys <= Forwarding(s') && t.session in Forwarding(s')
    ensures R.Route(c, r, t).1 != R.Refused
  {
    assert R.WellFormed(c, r);
    hide Size, R.Route, Forwarding, P.Exact, Accounted, P.Places;
    if R.Route(c, r, t).1 == R.Refused {
      RefusedOnlyWhenFull(c, r, t);
      SmallerSet(r.calls.Keys + {t.session}, Forwarding(s'));
      ForwardingIsActive(s');
      AddOne(r.calls.Keys, t.session);
    }
  }

  /** When every connection has closed, nothing is live, and a router that knows only live calls is idle. */
  lemma IdleAtTheEnd(c: R.Config, s: Source, r: R.Router)
    requires Refines(s) && P.Invariant(c, r) && r.calls.Keys <= Forwarding(s) && s.connections == map[]
    ensures forall p :: 0 <= p < c.processors ==> r.status[p] == 0
  {
    forall session ensures session !in s.channels {
      assert Summarises(s, session);
      assert Speaking(s.connections, session) == {};
    }
    assert r.calls.Keys == {};
    assert forall p :: P.CallsOn(r.calls, p) == {};
  }

  /** The router fed with the submissions of a run, event by event. */
  lemma Composed(c: R.Config, s: Source, r: R.Router, es: seq<Event>)
    requires R.WellFormed(c, r) && es != []
    ensures var s', ts := Step(0, s, es[0]), Emits(s, es[0]);
      && Run(0, s, es) == Run(0, s', es[1..])
      && P.Run(c, r, Output(s, es)) == P.Run(c, P.Run(c, r, ts), Output(s', es[1..]))
      && (P.NeverRefused(c, r, Output(s, es)) <==>
            P.NeverRefused(c, r, ts) && P.NeverRefused(c, P.Run(c, r, ts), Output(s', es[1..])))
      && (P.AllForwarded(c, r, Output(s, es)) <==>
            P.AllForwarded(c, r, ts) && P.AllForwarded(c, P.Run(c, r, ts), Output(s', es[1..])))
  {
    hide Step, Emits, R.Route, P.Run, P.NeverRefused, P.AllForwarded;
    var s', ts := Step(0, s, es[0]), Emits(s, es[0]);
    P.RunConcat(c, r, ts, Output(s', es[1..]));
    P.NeverRefusedConcat(c, r, ts, Output(s', es[1..]));
    P.AllForwardedConcat(c, r, ts, Output(s', es[1..]));
  }

  // ---------- One end of call signal completes a call ----------

  /** One tuple in one-EOCS mode: a fragment makes its call known, a signal makes it unknown. */
  lemma OneSignalRoute(c: R.Config, r: R.Router, t: BinarySpeech)
    requires c.eocsNeeded == 1 && R.WellFormed(c, r) && (t.channel == 1 || t.channel == 2)
    requires !t.endOfCall ==> t.size > 0
    ensures P.Next(c, r, t).calls.Keys ==
      if t.endOfCall then r.calls.Keys - {t.session}
      else if R.Route(c, r, t).1 == R.Refused then r.calls.Keys else r.calls.Keys + {t.session}
  {
  }

  lemma OneSignalStep(c: R.Config, s: Source, r: R.Router, e: Event)
    requires c.eocsNeeded == 1 && Sound(c, s, r) && r.calls.Keys <= Forwarding(s)
    requires FreshOpen(s, e) && LimitBelow(e, P.Places(c))
    ensures P.NeverRefused(c, r, Emits(s, e))
    ensures P.Run(c, r, Emits(s, e)).calls.Keys <= Forwarding(Step(0, s, e))
  {
    hide Size, P.Exact, Refines, Step, Emits, R.Route, Accounted, Forwarding, P.Places, Sound;
    SoundFacts(c, s, r);
    SoundStep(c, s, r, e);
    var s' := Step(0, s, e);
    SoundFacts(c, s', P.Run(c, r, Emits(s, e)));
    ForwardingStep(s, e);
    OneTuple(c, r, s, e);
    if Emits(s, e) != [] {
      var t := Emits(s, e)[0];
      if !t.endOfCall {
        PlaceForForwarded(c, s', r, t);
      } else {
        assert R.Route(c, r, t).1 != R.Refused by { SignalNotRefused(c, r, t); }
      }
      OneSignalRoute(c, r, t);
    }
  }

  lemma SignalNotRefused(c: R.Config, r: R.Router, t: BinarySpeech)
    requires R.WellFormed(c, r) && t.endOfCall
    ensures R.Route(c, r, t).1 != R.Refused
  {
  }

  lemma {:induction false} OneSignalRun(c: R.Config, s: Source, r: R.Router, es: seq<Event>)
    requires c.eocsNeeded == 1 && Sound(c, s, r) && r.calls.Keys <= Forwarding(s)
    requires FreshOpens(s, es) && LimitsBelow(s, es, P.Places(c))
    ensures P.NeverRefused(c, r, Output(s, es))
    ensures Sound(c, Run(0, s, es), P.Run(c, r, Output(s, es)))
    ensures P.Run(c, r, Output(s, es)).calls.Keys <= Forwarding(Run(0, s, es))
    decreases |es|
  {
    if es != [] {
      var s', ts := Step(0, s, es[0]), Emits(s, es[0]);
      assert FreshOpen(s, es[0]) && FreshOpens(s', es[1..]) && LimitBelow(es[0], P.Places(c));
      SoundFacts(c, s, r);
      OneSignalStep(c, s, r, es[0]);
      SoundStep(c, s, r, es[0]);
      SoundFacts(c, s', P.Run(c, r, ts));
      assert LimitsBelow(s', es[1..], P.Places(c));
      hide *;
      Composed(c, s, r, es);
      OneSignalRun(c, s', P.Run(c, r, ts), es[1..]);
    }
  }

  /** While no limit above N * capacity is accepted, with one EOCS per call, whatever the connections do: the router
      refuses no tuple of an admitted call, and it is idle once every connection has closed. */
  lemma OneSignalAdmission(c: R.Config, limit: nat, now: int, es: seq<Event>)
    requires c.eocsNeeded == 1
    requires FreshOpens(Initial(limit, now), es) && LimitsBelow(Initial(limit, now), es, P.Places(c))
    ensures var output := Output(Initial(limit, now), es); var r := P.Run(c, R.Initial(c), output);
      && P.NeverRefused(c, R.Initial(c), output)
      && (Run(0, Initial(limit, now), es).connections == map[] ==>
            forall p :: 0 <= p < c.processors ==> r.status[p] == 0)
  {
    var s, r := Initial(limit, now), R.Initial(c);
    InitiallySound(c, limit, now);
    SoundFacts(c, s, r);
    hide Size, Sound, Output, P.Invariant, Refines, FreshOpens, Initial, Forwarding, P.Places;
    assert r.calls.Keys == {};
    hide R.Initial;
    OneSignalRun(c, s, r, es);
    SoundFacts(c, Run(0, s, es), P.Run(c, r, Output(s, es)));
    if Run(0, s, es).connections == map[] {
      IdleAtTheEnd(c, Run(0, s, es), P.Run(c, r, Output(s, es)));
    }
  }

  lemma InitiallySound(c: R.Config, limit: nat, now: int)
    requires limit <= P.Places(c)
    ensures Sound(c, Initial(limit, now), R.Initial(c))
  {
    InitialRefines(limit, now);
    P.InitialInvariant(c);
  }

  /** Every fragment that the source submits has speech, and every tuple has channel 1 or 2. */
  lemma {:induction false} OutputShape(s: Source, es: seq<Event>)
    requires Refines(s) && FreshOpens(s, es)
    ensures forall i :: 0 <= i < |Output(s, es)| ==>
      var t := Output(s, es)[i]; (t.endOfCall || t.size > 0) && (t.channel == 1 || t.channel == 2)
    decreases |es|
  {
    if es != [] {
      ForwardingStep(s, es[0]);
      StepRefines(s, es[0]);
      AtMostOneTuple(s, es[0]);
      assert FreshOpens(Step(0, s, es[0]), es[1..]);
      assert Output(s, es) == Emits(s, es[0]) + Output(Step(0, s, es[0]), es[1..]);
      hide Refines, Step, Emits, FreshOpens, Output, Forwarding;
      OutputShape(Step(0, s, es[0]), es[1..]);
    }
  }

  lemma AtMostOneTuple(s: Source, e: Event)
    ensures |Emits(s, e)| <= 1
  {
  }

  /** ... and between a fragment of a call and its next signal, that signal included, all of its tuples are sent to one
      processor; the signal makes the call unknown, so that a fragment of the other channel after it is a new call to
      the router. */
  lemma OneSignalRouting(c: R.Config, limit: nat, now: int, es: seq<Event>, i: nat, j: nat)
    requires c.eocsNeeded == 1
    requires FreshOpens(Initial(limit, now), es) && LimitsBelow(Initial(limit, now), es, P.Places(c))
    requires var output := Output(Initial(limit, now), es);
      && i < j < |output| && output[i].session == output[j].session && !output[i].endOfCall
      && forall k :: i <= k < j && output[k].session == output[j].session ==> !output[k].endOfCall
    ensures var output := Output(Initial(limit, now), es);
      && P.FateAt(c, R.Initial(c), output, i).Forwarded?
      && P.FateAt(c, R.Initial(c), output, j) == P.FateAt(c, R.Initial(c), output, i)
      && (output[j].session in P.Run(c, R.Initial(c), output[..j + 1]).calls <==> !output[j].endOfCall)
  {
    hide P.Places, Output, P.Run, P.FateAt, Initial, R.Initial, FreshOpens, LimitsBelow, Refines, P.NeverRefused;
    var output := Output(Initial(limit, now), es);
    OneSignalAdmission(c, limit, now, es);
    InitialRefines(limit, now);
    OutputShape(Initial(limit, now), es);
    P.OneProcessorUntilSignal(c, output, i, j);
  }

  // ---------- A limit above the capacity ----------

  /** One connection that speaks for a session of its own. */
  function NewCaller(k: nat, now: int): seq<Event> {
    [Open(k, now), TextMessage(k, Action("start", Some(Decimal(k)), Some(false)), true), Binary(k, 1)]
  }

  function NewCallers(k: nat, n: nat, now: int): seq<Event>
    requires k <= n
    decreases n - k
  {
    if k == n then [] else NewCaller(k, now) + NewCallers(k + 1, n, now)
  }

  /** k calls of one connection each are forwarded, and the limit leaves room for another. */
  ghost predicate Filled(s: Source, k: nat) {
    && s.active == k && s.throttled == {} && Size(s.channels.Keys) == k
    && (forall h :: h in s.connections ==> h < k)
    && (forall i: nat :: i >= k ==> Decimal(i) !in s.channels)
  }

  lemma CallerSteps(s: Source, k: nat, now: int)
    requires Filled(s, k) && k < s.limit
    ensures var es := NewCaller(k, now); var s1 := Step(0, s, es[0]); var s2 := Step(0, s1, es[1]); var s3 := Step(0, s2, es[2]);
      && FreshOpen(s, es[0]) && Emits(s, es[0]) == [] && Emits(s1, es[1]) == [] && |Emits(s2, es[2])| == 1
      && !Emits(s2, es[2])[0].endOfCall && Emits(s2, es[2])[0].size > 0 && Emits(s2, es[2])[0].session == Decimal(k)
      && s3.channels.Keys == s.channels.Keys + {Decimal(k)} && Decimal(k) !in s.channels
      && s3.limit == s.limit && Filled(s3, k + 1)
  {
    hide Size;
    DigitsOnly(k);
    var es := NewCaller(k, now);
    var s1 := Step(0, s, es[0]);
    var s2 := Step(0, s1, es[1]);
    assert s2.connections[k] == Connection(Started, now, 0, 0, Decimal(k), false, 0);
    var s3 := Step(0, s2, es[2]);
    assert s3.channels == s.channels[Decimal(k) := [now]];
    AddOne(s.channels.Keys, Decimal(k));
    assert s3.channels.Keys == s.channels.Keys + {Decimal(k)};
    forall i: nat | i >= k + 1 ensures Decimal(i) !in s3.channels {
      if Decimal(i) == Decimal(k) {
        DecimalInjective(i, k);
      }
    }
  }

  /** An event without a tuple leaves the router where it is. */
  lemma Quiet(s: Source, es: seq<Event>)
    requires es != [] && Emits(s, es[0]) == []
    ensures Output(s, es) == Output(Step(0, s, es[0]), es[1..])
    ensures FreshOpens(s, es) <==> FreshOpen(s, es[0]) && FreshOpens(Step(0, s, es[0]), es[1..])
  {
    hide Step, Emits;
  }

  lemma CallerOutput(s: Source, k: nat, n: nat, now: int)
    requires Filled(s, k) && k < s.limit && k < n
    ensures var es := NewCaller(k, now); var s2 := Step(0, Step(0, s, es[0]), es[1]); var s3 := Step(0, s2, es[2]);
      && Output(s, NewCallers(k, n, now)) == Emits(s2, es[2]) + Output(s3, NewCallers(k + 1, n, now))
      && (FreshOpens(s, NewCallers(k, n, now)) <==> FreshOpens(s3, NewCallers(k + 1, n, now)))
  {
    CallerSteps(s, k, now);
    var es, all, rest := NewCaller(k, now), NewCallers(k, n, now), NewCallers(k + 1, n, now);
    assert all == es + rest && all[0] == es[0] && all[1..][0] == es[1] && all[1..][1..][0] == es[2] && all[1..][1..][1..] == rest;
    var s1 := Step(0, s, es[0]);
    assert es[2].Binary?;
    hide Filled, Step, Emits, NewCaller, NewCallers;
    Quiet(s, all);
    Quiet(s1, all[1..]);
  }

  lemma RefusedNext(c: R.Config, r: R.Router, t: BinarySpeech)
    requires P.Exact(c, r) && !t.endOfCall && t.size > 0 && t.session !in r.calls
    ensures R.Route(c, r, t).1 == R.Refused <==> Size(r.calls.Keys) == P.Places(c)
    ensures R.Route(c, r, t).1 != R.Refused ==> P.Next(c, r, t).calls.Keys == r.calls.Keys + {t.session}
    ensures P.Exact(c, P.Next(c, r, t))
  {
    P.RefusedIffFull(c, r, t);
    P.StepExact(c, r, t);
    hide Size, P.Exact, P.Places;
  }

  lemma HeadRefused(c: R.Config, r: R.Router, t: BinarySpeech, ts: seq<BinarySpeech>)
    requires R.WellFormed(c, r)
    ensures P.NeverRefused(c, r, [t] + ts) <==> R.Route(c, r, t).1 != R.Refused && P.NeverRefused(c, P.Next(c, r, t), ts)
  {
    assert ([t] + ts)[0] == t && ([t] + ts)[1..] == ts;
    hide R.Route, P.Next;
  }

  /** The state after a caller, its tuple, and what is left of the run. */
  lemma CallerRound(s: Source, k: nat, n: nat, now: int) returns (s': Source, t: BinarySpeech)
    requires Filled(s, k) && k < s.limit && k < n
    ensures !t.endOfCall && t.size > 0 && t.session !in s.channels && Size(s.channels.Keys) == k
    ensures s'.channels.Keys == s.channels.Keys + {t.session} && s'.limit == s.limit && Filled(s', k + 1)
    ensures Output(s, NewCallers(k, n, now)) == [t] + Output(s', NewCallers(k + 1, n, now))
    ensures FreshOpens(s, NewCallers(k, n, now)) <==> FreshOpens(s', NewCallers(k + 1, n, now))
  {
    CallerSteps(s, k, now);
    CallerOutput(s, k, n, now);
    assert Size(s.channels.Keys) == k;
    var es := NewCaller(k, now);
    var s2 := Step(0, Step(0, s, es[0]), es[1]);
    hide *;
    s' := Step(0, s2, es[2]);
    t := Emits(s2, es[2])[0];
    assert Emits(s2, es[2]) == [t];
  }

  lemma NoCallersLeft(s: Source, n: nat, now: int)
    ensures FreshOpens(s, NewCallers(n, n, now))
  {
  }

  lemma {:induction false} CallersOverflow(c: R.Config, s: Source, r: R.Router, k: nat, now: int)
    requires k <= P.Places(c) && Filled(s, k) && s.limit > P.Places(c)
    requires P.Exact(c, r) && r.calls.Keys == s.channels.Keys
    ensures FreshOpens(s, NewCallers(k, P.Places(c) + 1, now))
    ensures R.WellFormed(c, r) && !P.NeverRefused(c, r, Output(s, NewCallers(k, P.Places(c) + 1, now)))
    decreases P.Places(c) - k
  {
    hide *;
    ExactIsWellFormed(c, r);
    var n := P.Places(c) + 1;
    var s', t := CallerRound(s, k, n, now);
    RefusedNext(c, r, t);
    HeadRefused(c, r, t, Output(s', NewCallers(k + 1, n, now)));
    if k < P.Places(c) {
      CallersOverflow(c, s', P.Next(c, r, t), k + 1, now);
    } else {
      NoCallersLeft(s', n, now);
    }
  }

  lemma ExactIsWellFormed(c: R.Config, r: R.Router)
    requires P.Exact(c, r)
    ensures R.WellFormed(c, r)
  {
    hide Size;
  }

  lemma InvariantIsExact(c: R.Config, r: R.Router)
    requires P.Invariant(c, r)
    ensures P.Exact(c, r)
  {
    hide P.Exact;
  }

  lemma InitiallyFilled(limit: nat, value: nat, now: int)
    ensures var s, e := Initial(limit, now), SetLimit(value); var s' := Step(0, s, e);
      && Filled(s', 0) && s'.limit == value && s'.channels.Keys == {} && Emits(s, e) == [] && FreshOpen(s, e)
  {
    hide Decimal;
    EmptySize(Initial(limit, now).channels.Keys);
  }

  lemma InitiallyExact(c: R.Config)
    ensures P.Exact(c, R.Initial(c)) && R.Initial(c).calls.Keys == {}
  {
    assert R.Initial(c).calls.Keys == {};
    hide *;
    P.InitialInvariant(c);
    InvariantIsExact(c, R.Initial(c));
  }

  /** The bound on the limits is needed: whatever limit was in force, once one above N * capacity is accepted, one call
      more than there are places gets a tuple of an admitted call refused. */
  lemma RefusedAboveCapacity(c: R.Config, limit: nat, value: int, now: int)
    requires value > P.Places(c)
    ensures var es := [SetLimit(value)] + NewCallers(0, P.Places(c) + 1, now);
      FreshOpens(Initial(limit, now), es) && !P.NeverRefused(c, R.Initial(c), Output(Initial(limit, now), es))
  {
    hide *;
    var es := [SetLimit(value)] + NewCallers(0, P.Places(c) + 1, now);
    assert es[0] == SetLimit(value) && es[1..] == NewCallers(0, P.Places(c) + 1, now);
    InitiallyFilled(limit, value, now);
    InitiallyExact(c);
    Quiet(Initial(limit, now), es);
    CallersOverflow(c, Step(0, Initial(limit, now), es[0]), R.Initial(c), 0, now);
  }

  lemma {:induction false} CallersSetNoLimit(k: nat, n: nat, now: int)
    requires k <= n
    ensures forall i :: 0 <= i < |NewCallers(k, n, now)| ==> !NewCallers(k, n, now)[i].SetLimit?
    decreases n - k
  {
    if k < n {
      CallersSetNoLimit(k + 1, n, now);
    }
  }

  ghost predicate Protected(c: R.Config, limit: nat, now: int, es: seq<Event>, bound: nat) {
    FreshOpens(Initial(limit, now), es) && LimitsBelow(Initial(limit, now), es, bound) ==>
      P.NeverRefused(c, R.Initial(c), Output(Initial(limit, now), es))
  }

  lemma ProtectedWithin(c: R.Config, limit: nat, now: int, es: seq<Event>, bound: nat)
    requires c.eocsNeeded == 1 && bound <= P.Places(c)
    ensures Protected(c, limit, now, es, bound)
  {
    hide P.Places, Initial, R.Initial, Output, FreshOpens, P.NeverRefused;
    if FreshOpens(Initial(limit, now), es) && LimitsBelow(Initial(limit, now), es, bound) {
      OneSignalAdmission(c, limit, now, es);
    }
  }

  lemma UnprotectedAbove(c: R.Config, bound: nat) returns (es: seq<Event>)
    requires bound > P.Places(c)
    ensures !Protected(c, 0, 0, es, bound)
  {
    var callers := NewCallers(0, P.Places(c) + 1, 0);
    CallersSetNoLimit(0, P.Places(c) + 1, 0);
    RefusedAboveCapacity(c, 0, bound, 0);
    es := [SetLimit(bound)] + callers;
    assert LimitsBelow(Initial(0, 0), es, bound) by {
      hide NewCallers, P.Places;
    }
    hide NewCallers, P.Places, Output, FreshOpens, P.NeverRefused, R.Initial;
  }

  /** The throttling protects the router in every run exactly when the limits it may be given fit the processors. */
  lemma ProtectedIffLimitsFit(c: R.Config, bound: nat)
    requires c.eocsNeeded == 1
    ensures bound <= P.Places(c) <==> forall limit: nat, now, es :: Protected(c, limit, now, es, bound)
  {
    hide P.Places, Protected;
    if bound <= P.Places(c) {
      forall limit: nat, now, es ensures Protected(c, limit, now, es, bound) {
        ProtectedWithin(c, limit, now, es, bound);
      }
    } else {
      var es := UnprotectedAbove(c, bound);
    }
  }
}
