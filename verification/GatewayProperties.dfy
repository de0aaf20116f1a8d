/** Whole-run properties of the voice gateway source: accounting, limits, peak and purge. */
module GatewayProperties {
  import opened Sets
  import opened SpeechStream
  import opened GatewaySource

  function Run(interval: int, s: Source, es: seq<Event>): Source
    decreases |es|
  {
    if es == [] then s else Run(interval, Step(interval, s, es[0]), es[1..])
  }

  // ---------- Active and throttled calls, purge included ----------

  /** Live calls are split into active and throttled ones, and the active count is exact. */
  ghost predicate Accounted(s: Source) {
    && NoEmptyList(s)
    && s.channels.Keys <= s.numbers.Keys
    && s.throttled <= s.channels.Keys
    && s.active == Size(s.channels.Keys) - Size(s.throttled)
  }

  lemma PurgeAccounted(s: Source, now: int, interval: int)
    requires Accounted(s)
    ensures Accounted(Purged(s, now, interval))
    ensures Purged(s, now, interval).active <= s.active && Purged(s, now, interval).limit == s.limit
    ensures Purged(s, now, interval).throttled <= s.throttled && Purged(s, now, interval).peak == s.peak
    ensures Size(Purged(s, now, interval).channels.Keys) <= Size(s.channels.Keys)
  {
    hide Size;
    var stale := StaleSessions(s.channels, now, interval);
    assert stale <= s.channels.Keys;
    var p := Purged(s, now, interval);
    assert p.channels.Keys == s.channels.Keys - stale;
    SizeWithout(s.channels.Keys, stale);
    SizeWithout(s.throttled, stale);
    SizeWithout(stale, s.throttled);
    assert s.channels.Keys * stale == stale;
    assert stale * s.throttled == s.throttled * stale;
  }

  lemma EndedAccounted(s: Source, session: string)
    requires Accounted(s) && session in s.channels
    ensures Accounted(CallEnded(s, session))
    ensures Size(CallEnded(s, session).channels.Keys) == Size(s.channels.Keys) - 1
  {
    hide Size;
    var e := CallEnded(s, session);
    assert e.channels.Keys == s.channels.Keys - {session};
    assert e.numbers.Keys == s.numbers.Keys - {session};
    RemoveOne(s.channels.Keys, session);
    RemoveOne(s.throttled, session);
  }

  lemma ClosedAccounted(s: Source, h: Handle)
    requires Accounted(s) && h in s.connections
    ensures var s' := BeforePurge(s, h).0;
      && Accounted(s') && s'.active <= s.active && s'.limit == s.limit && s'.throttled <= s.throttled
      && s'.peak == s.peak && Size(s'.channels.Keys) <= Size(s.channels.Keys)
  {
    hide Size;
    var session := s.connections[h].session;
    if session in s.channels {
      EndedAccounted(s, session);
      var channels := s.channels[session := s.channels[session][..|s.channels[session]| - 1]];
      assert channels.Keys == s.channels.Keys;
    }
  }

  lemma FirstPacketAccounted(s: Source, session: string, startTime: int)
    requires Accounted(s)
    ensures Accounted(AfterFirstPacket(s, session, startTime))
  {
    hide Size;
    if session in s.channels {
      assert s.channels[session := s.channels[session] + [startTime]].Keys == s.channels.Keys;
    } else {
      assert s.channels[session := [startTime]].Keys == s.channels.Keys + {session};
      assert s.numbers[session := s.counter + 1].Keys == s.numbers.Keys + {session};
      AddOne(s.channels.Keys, session);
      AddOne(s.throttled, session);
    }
  }

  lemma BinaryAccounted(s: Source, h: Handle, size: nat)
    requires Accounted(s)
    ensures Accounted(AfterBinary(s, h, size).0)
  {
    hide Size;
    if h in s.connections {
      var c := s.connections[h];
      FirstPacketAccounted(s, c.session, c.startTime);
      hide AfterFirstPacket;
      forall t: Source, connections | Accounted(t)
        ensures Accounted(t.(connections := connections, numbers := Touched(t.numbers, c.session)))
      {
      }
      hide Accounted;
    }
  }

  /** What every event keeps, with any purge interval: in particular the active count never underflows. */
  lemma StepAccounted(interval: int, s: Source, e: Event)
    requires Accounted(s)
    ensures Accounted(Step(interval, s, e)) && Step(interval, s, e).active >= 0
  {
    hide Size;
    match e
    case Binary(h, size) =>
      hide AfterBinary;
      BinaryAccounted(s, h, size);
      NonNegative(Step(interval, s, e));
    case Close(h, now) =>
      hide AfterClose;
      CloseStep(interval, s, h, now);
      NonNegative(Step(interval, s, e));
    case _ =>
      NonNegative(Step(interval, s, e));
  }

  lemma NonNegative(s: Source)
    requires Accounted(s)
    ensures s.active >= 0
  {
    hide Size;
    SizeWithout(s.channels.Keys, s.throttled);
    assert s.channels.Keys * s.throttled == s.throttled;
  }

  /** Closing a connection, with or without a purge, admits nobody. */
  lemma CloseStep(interval: int, s: Source, h: Handle, now: int)
    requires Accounted(s)
    ensures var s' := AfterClose(s, h, now, interval);
      && Accounted(s') && s'.active <= s.active && s'.limit == s.limit && s'.throttled <= s.throttled
      && s'.peak == s.peak && Size(s'.channels.Keys) <= Size(s.channels.Keys)
  {
    hide Size;
    if h in s.connections {
      ClosedAccounted(s, h);
      var s1 := BeforePurge(s, h).0;
      PurgeAccounted(s1, now, interval);
      var s2 := AfterPurge(s1, now, interval);
      assert Accounted(s2.(connections := s2.connections - {h})) by {
        assert Accounted(s2);
        hide BeforePurge, AfterPurge;
      }
      hide BeforePurge, Purged, Accounted;
    }
  }

  /** The limits of a run: the one it starts with and every value accepted by the setter. */
  predicate LimitsBelow(s: Source, es: seq<Event>, bound: int) {
    s.limit <= bound && forall i :: 0 <= i < |es| && es[i].SetLimit? ==> es[i].value <= bound
  }

  /** The active count never exceeds the largest limit ever in force, purge included. */
  lemma {:induction false} ActiveWithinLimits(interval: int, s: Source, es: seq<Event>, bound: int)
    requires Accounted(s) && LimitsBelow(s, es, bound) && s.active <= bound
    ensures var s' := Run(interval, s, es); Accounted(s') && 0 <= s'.active <= bound
    decreases |es|
  {
    hide Size;
    NonNegative(s);
    if es != [] {
      StepAccounted(interval, s, es[0]);
      if es[0].Close? {
        CloseStep(interval, s, es[0].h, es[0].now);
      }
      var s1 := Step(interval, s, es[0]);
      assert s1.active <= bound && s1.limit <= bound by {
        hide Accounted, AfterClose;
      }
      ActiveWithinLimits(interval, s1, es[1..], bound);
    }
  }

  lemma ReachableAccounting(interval: int, limit: nat, now: int, es: seq<Event>, bound: int)
    requires LimitsBelow(Initial(limit, now), es, bound)
    ensures var s := Run(interval, Initial(limit, now), es);
      && s.throttled <= s.channels.Keys && s.active == Size(s.channels.Keys - s.throttled) && 0 <= s.active <= bound
  {
    ActiveWithinLimits(interval, Initial(limit, now), es, bound);
    var s := Run(interval, Initial(limit, now), es);
    SizeWithout(s.channels.Keys, s.throttled);
    assert s.channels.Keys * s.throttled == s.throttled;
  }

  // ---------- The high-water mark ----------

  /** Largest number of live calls, active plus throttled, in any state of the run. */
  function MostLiveCalls(interval: int, s: Source, es: seq<Event>): int
    decreases |es|
  {
    if es == [] then Size(s.channels.Keys)
    else Max(Size(s.channels.Keys), MostLiveCalls(interval, Step(interval, s, es[0]), es[1..]))
  }

  /** Throttled calls remember that the limit was reached while they were all present. */
  ghost predicate PeakCovers(s: Source) {
    && s.active <= s.limit
    && s.peak >= Size(s.channels.Keys)
    && (s.throttled != {} ==> s.peak >= s.limit + Size(s.throttled))
  }

  lemma NewCallPeak(s: Source, session: string, startTime: int)
    requires Accounted(s) && PeakCovers(s) && session !in s.channels
    ensures var s' := NewCall(s, session, startTime);
      s'.peak == Max(s.peak, Size(s'.channels.Keys)) && PeakCovers(s')
  {
    hide Size;
    var s' := NewCall(s, session, startTime);
    assert s'.channels.Keys == s.channels.Keys + {session};
    AddOne(s.channels.Keys, session);
    AddOne(s.throttled, session);
    EmptySize(s.throttled);
  }

  lemma PeakStep(interval: int, s: Source, e: Event)
    requires Accounted(s) && PeakCovers(s) && !e.SetLimit?
    ensures var s' := Step(interval, s, e); s'.peak == Max(s.peak, Size(s'.channels.Keys)) && PeakCovers(s')
  {
    hide Size;
    match e
    case Binary(h, size) =>
      if h in s.connections {
        var session := s.connections[h].session;
        if session !in s.channels {
          NewCallPeak(s, session, s.connections[h].startTime);
        } else {
          assert AfterFirstPacket(s, session, s.connections[h].startTime).channels.Keys == s.channels.Keys;
        }
      }
    case Close(h, now) =>
      CloseStep(interval, s, h, now);
      SmallerSet(AfterClose(s, h, now, interval).throttled, s.throttled);
      hide AfterClose, Accounted;
    case _ =>
  }

  lemma {:induction false} PeakFromHere(interval: int, s: Source, es: seq<Event>)
    requires Accounted(s) && PeakCovers(s)
    requires forall i :: 0 <= i < |es| ==> !es[i].SetLimit?
    ensures Run(interval, s, es).peak == Max(s.peak, MostLiveCalls(interval, s, es))
    decreases |es|
  {
    hide Size;
    if es != [] {
      StepAccounted(interval, s, es[0]);
      PeakStep(interval, s, es[0]);
      PeakFromHere(interval, Step(interval, s, es[0]), es[1..]);
      hide Step;
    }
  }

  /** With a fixed limit the high-water mark is exactly the historical maximum of active plus throttled calls,
      although an admission compares it with the active count alone. */
  lemma PeakIsHistoricalMaximum(interval: int, limit: nat, now: int, es: seq<Event>)
    requires forall i :: 0 <= i < |es| ==> !es[i].SetLimit?
    ensures Run(interval, Initial(limit, now), es).peak == MostLiveCalls(interval, Initial(limit, now), es)
  {
    PeakFromHere(interval, Initial(limit, now), es);
    MostLiveCallsNonNegative(interval, Initial(limit, now), es);
  }

  lemma MostLiveCallsNonNegative(interval: int, s: Source, es: seq<Event>)
    ensures MostLiveCalls(interval, s, es) >= 0
  {
  }

  // ---------- The purge and the limit, in numbers ----------

  /** A purge takes place at most once in an interval; it leaves exactly the calls of which every channel, and the
      connections, that are young enough. */
  lemma CloseLeavesTheYoung(s: Source, h: Handle, now: int, interval: int)
    requires h in s.connections
    ensures var s1, s' := BeforePurge(s, h).0, AfterClose(s, h, now, interval);
      var due := interval > 0 && now - s.lastPurge >= interval;
      && s'.lastPurge == (if due then now else s.lastPurge)
      && (forall session :: session in s'.channels <==>
            && session in s1.channels
            && (due ==> forall i :: 0 <= i < |s1.channels[session]| ==> now - s1.channels[session][i] < interval))
      && (forall k :: k in s'.connections <==>
            k in s.connections && k != h && (due ==> now - s.connections[k].startTime <= interval))
  {
    var s1 := BeforePurge(s, h).0;
    BeforePurgeKeeps(s, h);
    PurgedChannels(s1, now, interval);
    PurgedConnections(s1, now, interval);
    hide BeforePurge, Purged;
  }

  lemma BeforePurgeKeeps(s: Source, h: Handle)
    requires h in s.connections
    ensures BeforePurge(s, h).0.connections == s.connections && BeforePurge(s, h).0.lastPurge == s.lastPurge
  {
    hide Size;
  }

  lemma PurgedChannels(s: Source, now: int, interval: int)
    ensures var p := Purged(s, now, interval);
      forall session ::
        && (session in p.channels <==>
              session in s.channels && forall i :: 0 <= i < |s.channels[session]| ==> now - s.channels[session][i] < interval)
        && (session in p.channels ==> p.channels[session] == s.channels[session])
  {
    hide Size, Reborn, StaleConnections;
  }

  lemma PurgedConnections(s: Source, now: int, interval: int)
    ensures var p := Purged(s, now, interval);
      && p.lastPurge == now
      && forall k :: k in p.connections <==> k in s.connections && now - s.connections[k].startTime <= interval
  {
    hide Size, Reborn, StaleSessions;
  }

  /** Some channel of the call started at least an interval ago. */
  predicate HasOldChannel(s: Source, session: string, now: int, interval: int) {
    session in s.channels && exists i :: 0 <= i < |s.channels[session]| && now - s.channels[session][i] >= interval
  }

  /** The end of call signals that a purge sends for a call: on both channels, with number 0. */
  ghost predicate SignalsOldCall(s: Source, now: int, interval: int, t: BinarySpeech) {
    exists session :: HasOldChannel(s, session, now, interval) && session !in s.throttled
      && (t == BinarySpeech(session, false, 1, true, 0, 0, 0, 0) || t == BinarySpeech(session, true, 2, true, 0, 0, 0, 0))
  }

  /** ... and for a connection: its call is not throttled, or was until the purge; a purged call has lost its number. */
  predicate SignalsConnection(s: Source, now: int, interval: int, c: Connection, t: BinarySpeech) {
    var purged := HasOldChannel(s, c.session, now, interval);
    (purged || c.session !in s.throttled)
    && t == BinarySpeech(c.session, c.isCaller, c.channel, true, 0, 0, 0,
                         if purged then 0 else if c.session in s.numbers then s.numbers[c.session] else 0)
  }

  ghost predicate SignalsOldConnection(s: Source, now: int, interval: int, t: BinarySpeech) {
    exists h :: h in s.connections && now - s.connections[h].startTime > interval
      && SignalsConnection(s, now, interval, s.connections[h], t)
  }

  lemma {:induction false} SessionSignalled(order: seq<string>, throttled: set<string>, t: BinarySpeech)
    ensures t in SessionSignals(order, throttled) <==>
      exists session :: session in order && session !in throttled
        && (t == BinarySpeech(session, false, 1, true, 0, 0, 0, 0) || t == BinarySpeech(session, true, 2, true, 0, 0, 0, 0))
  {
    if order != [] {
      SessionSignalled(order[..|order| - 1], throttled, t);
      assert order == order[..|order| - 1] + [order[|order| - 1]];
    }
  }

  predicate Announces(w: Source, c: Connection, t: BinarySpeech) {
    c.session !in w.throttled && t == EndOfCall(c.session, c.isCaller, c.channel, NumberOf(w.numbers, c.session))
  }

  lemma {:induction false} ConnectionSignalled(w: Source, order: seq<Handle>, t: BinarySpeech)
    requires Elements(order) <= w.connections.Keys
    ensures t in ConnectionSignals(w, order) <==>
      exists h :: h in order && h in w.connections && Announces(w, w.connections[h], t)
  {
    if order != [] {
      LastElement(order);
      ConnectionSignalled(w, order[..|order| - 1], t);
      assert order == order[..|order| - 1] + [order[|order| - 1]];
      assert order[|order| - 1] in w.connections;
    }
  }

  lemma AfterStaleSessions(s: Source, now: int, interval: int, c: Connection, t: BinarySpeech)
    ensures var w := WithoutStaleSessions(s, now, interval);
      w.connections == s.connections && (Announces(w, c, t) <==> SignalsConnection(s, now, interval, c, t))
  {
    hide Size;
  }

  lemma OldSessions(s: Source, now: int, interval: int, sessions: seq<string>, session: string)
    requires IsTraversal(sessions, StaleSessions(s.channels, now, interval))
    ensures session in sessions <==> HasOldChannel(s, session, now, interval)
  {
    assert session in Elements(sessions) <==> session in StaleSessions(s.channels, now, interval);
  }

  lemma OldConnections(s: Source, now: int, interval: int, handles: seq<Handle>, h: Handle)
    requires IsTraversal(handles, StaleConnections(s.connections, now, interval))
    ensures h in handles <==> h in s.connections && now - s.connections[h].startTime > interval
  {
    assert h in Elements(handles) <==> h in StaleConnections(s.connections, now, interval);
  }

  lemma FirstHalfTells(s: Source, now: int, interval: int, sessions: seq<string>, t: BinarySpeech)
    requires IsTraversal(sessions, StaleSessions(s.channels, now, interval))
    ensures t in SessionSignals(sessions, s.throttled) <==> SignalsOldCall(s, now, interval, t)
  {
    SessionSignalled(sessions, s.throttled, t);
    forall session ensures session in sessions <==> HasOldChannel(s, session, now, interval) {
      OldSessions(s, now, interval, sessions, session);
    }
    hide SessionSignals, HasOldChannel, StaleSessions, IsTraversal;
  }

  lemma SecondHalfTells(s: Source, now: int, interval: int, handles: seq<Handle>, t: BinarySpeech)
    requires IsTraversal(handles, StaleConnections(s.connections, now, interval)) && Elements(handles) <= s.connections.Keys
    ensures WithoutStaleSessions(s, now, interval).connections == s.connections
    ensures t in ConnectionSignals(WithoutStaleSessions(s, now, interval), handles) <==> SignalsOldConnection(s, now, interval, t)
  {
    var w := WithoutStaleSessions(s, now, interval);
    hide ConnectionSignals, HasOldChannel, StaleConnections, IsTraversal, WithoutStaleSessions, Announces, SignalsConnection,
         Elements;
    AfterStaleSessions(s, now, interval, Connection(Opened, 0, 0, 0, "", false, 0), t);
    ConnectionSignalled(w, handles, t);
    forall h ensures h in handles <==> h in s.connections && now - s.connections[h].startTime > interval {
      OldConnections(s, now, interval, handles, h);
    }
    forall h | h in s.connections
      ensures Announces(w, s.connections[h], t) <==> SignalsConnection(s, now, interval, s.connections[h], t)
    {
      AfterStaleSessions(s, now, interval, s.connections[h], t);
    }
  }

  /** When a purge is due, it submits exactly these signals. */
  lemma PurgeTells(s: Source, now: int, interval: int, purge: seq<BinarySpeech>, t: BinarySpeech)
    requires interval > 0 && now - s.lastPurge >= interval && PurgeSubmits(s, now, interval, purge)
    ensures t in purge <==> SignalsOldCall(s, now, interval, t) || SignalsOldConnection(s, now, interval, t)
  {
    var sessions, handles :| InOrder(s, now, interval, sessions, handles, purge);
    hide SessionSignals, ConnectionSignals, StaleSessions, StaleConnections, IsTraversal, SignalsOldCall, SignalsOldConnection,
         WithoutStaleSessions;
    FirstHalfTells(s, now, interval, sessions, t);
    SecondHalfTells(s, now, interval, handles, t);
  }

  /** There is no purge in the first interval. */
  lemma {:induction false} NoEarlyPurge(interval: int, s: Source, es: seq<Event>)
    requires forall i :: 0 <= i < |es| && es[i].Close? ==> es[i].now - s.lastPurge < interval || interval <= 0
    ensures Run(interval, s, es).lastPurge == s.lastPurge
    decreases |es|
  {
    if es != [] {
      assert Step(interval, s, es[0]).lastPurge == s.lastPurge by {
        hide Size, Purged;
      }
      hide Step;
      NoEarlyPurge(interval, Step(interval, s, es[0]), es[1..]);
    }
  }

  lemma FirstPurge(interval: int, limit: nat, now: int, es: seq<Event>)
    requires forall i :: 0 <= i < |es| && es[i].Close? ==> es[i].now - now < interval
    ensures Run(interval, Initial(limit, now), es).lastPurge == now
  {
    NoEarlyPurge(interval, Initial(limit, now), es);
  }

  /** The latest value set that was not negative. */
  function LimitInForce(limit: int, es: seq<Event>): int
    decreases |es|
  {
    if es == [] then limit
    else LimitInForce(if es[0].SetLimit? && es[0].value >= 0 then es[0].value else limit, es[1..])
  }

  lemma {:induction false} LimitIsLatest(interval: int, s: Source, es: seq<Event>)
    ensures Run(interval, s, es).limit == LimitInForce(s.limit, es)
    decreases |es|
  {
    if es != [] {
      LimitStep(interval, s, es[0]);
      hide Step;
      LimitIsLatest(interval, Step(interval, s, es[0]), es[1..]);
    }
  }

  lemma LimitStep(interval: int, s: Source, e: Event)
    ensures Step(interval, s, e).limit == if e.SetLimit? && e.value >= 0 then e.value else s.limit
  {
    hide Size, Reborn;
  }
}
