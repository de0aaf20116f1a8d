/** Two-EOCS mode of the router behind the voice gateway source: when exactly every place is given back. */
module TwoSignals {
  import opened Wrappers
  import opened Sets
  import opened ChannelKey
  import opened SpeechStream
  import opened GatewaySource
  import opened GatewayProperties
  import opened GatewayRefinement
  import opened GatewayOutput
  import opened EndToEnd
  import R = CallRouter
  import P = RouterProperties

  predicate Speaks(s: Source, h: Handle) {
    h in s.connections && s.connections[h].packets > 0
  }

  predicate StartsSpeaking(s: Source, e: Event) {
    e.Binary? && Packet(s, e, e.h) && s.connections[e.h].packets == 0
  }

  /** Channels of live calls whose connection has closed. */
  type Gone = set<(string, int)>

  function GoneAfter(s: Source, gone: Gone, e: Event): Gone {
    if e.Close? && Speaks(s, e.h) then
      var c := s.connections[e.h];
      if c.session in Step(0, s, e).channels then gone + {(c.session, c.channel)}
      else set x | x in gone && x.0 != c.session
    else gone
  }

  predicate BothGone(gone: Gone, session: string) {
    (session, 1) in gone && (session, 2) in gone
  }

  // The two events after which a place is kept.

  /** A connection speaks for a forwarded call of which both channels have closed. */
  predicate LateSpeech(s: Source, gone: Gone, e: Event) {
    e.Binary? && Packet(s, e, e.h)
    && s.connections[e.h].session in Forwarding(s) && BothGone(gone, s.connections[e.h].session)
  }

  /** The last connection of a forwarded call closes, and the other channel never had one that closed. */
  predicate LoneClose(s: Source, gone: Gone, e: Event) {
    && e.Close? && Speaks(s, e.h) && s.connections[e.h].session in Forwarding(s)
    && |s.channels[s.connections[e.h].session]| == 1
    && (s.connections[e.h].session, 3 - s.connections[e.h].channel) !in gone
  }

  predicate Unsettling(s: Source, gone: Gone, e: Event) {
    LateSpeech(s, gone, e) || LoneClose(s, gone, e)
  }

  /** No event of the run leaves a call unsettled. */
  predicate Settled(s: Source, gone: Gone, es: seq<Event>)
    decreases |es|
  {
    es != [] ==> !Unsettling(s, gone, es[0]) && Settled(Step(0, s, es[0]), GoneAfter(s, gone, es[0]), es[1..])
  }

  /** A further connection of a forwarded call closes after both channels have closed. */
  predicate Surplus(s: Source, gone: Gone, e: Event) {
    && e.Close? && Speaks(s, e.h)
    && s.connections[e.h].session in Forwarding(s) && BothGone(gone, s.connections[e.h].session)
  }

  predicate NoSurplus(s: Source, gone: Gone, es: seq<Event>)
    decreases |es|
  {
    es != [] ==> !Surplus(s, gone, es[0]) && NoSurplus(Step(0, s, es[0]), GoneAfter(s, gone, es[0]), es[1..])
  }

  // How the speakers of one session change.

  ghost predicate Joined(s: Source, s': Source, session: string, h: Handle)
    requires h in s'.connections
  {
    var before, after := Speaking(s.connections, session), Speaking(s'.connections, session);
    && after == before + {h} && h !in before
    && s'.connections[h].channel == (if session in s.channels then 2 else 1)
    && session in s'.channels
    && |s'.channels[session]| == (if session in s.channels then |s.channels[session]| else 0) + 1
  }

  ghost predicate Left(s: Source, s': Source, session: string, h: Handle) {
    var before, after := Speaking(s.connections, session), Speaking(s'.connections, session);
    && after == before - {h} && h in before && session in s.channels
    && (session in s'.channels <==> |s.channels[session]| > 1)
    && (session in s'.channels ==> |s'.channels[session]| == |s.channels[session]| - 1)
  }

  ghost predicate Unchanged(s: Source, s': Source, session: string) {
    && Speaking(s'.connections, session) == Speaking(s.connections, session)
    && (session in s'.channels <==> session in s.channels)
    && (session in s.channels ==> s'.channels[session] == s.channels[session])
  }

  /** A speaking connection keeps its channel number. */
  ghost predicate ChannelsKept(s: Source, s': Source, session: string) {
    forall h | h in Speaking(s.connections, session) && h in Speaking(s'.connections, session) ::
      s'.connections[h].channel == s.connections[h].channel
  }

  predicate SpeechStarts(s: Source, e: Event, session: string) {
    StartsSpeaking(s, e) && s.connections[e.h].session == session
  }

  predicate SpeechEnds(s: Source, e: Event, session: string) {
    e.Close? && Speaks(s, e.h) && s.connections[e.h].session == session
  }

  lemma FirstPacketSpeakers(s: Source, h: Handle, size: nat, session: string)
    requires Refines(s) && h in s.connections && s.connections[h].packets == 0 && size > 0
    requires s.connections[h].status == Started
    ensures var s' := AfterBinary(s, h, size).0;
      && h in s'.connections && ChannelsKept(s, s', session)
      && if s.connections[h].session == session then Joined(s, s', session, h) else Unchanged(s, s', session)
  {
    hide Size, Refines, AfterBinary;
    FirstPacketFacts(s, h, size);
    NewSpeaker(s.connections, h, Spoken(s, s.connections[h], size), session);
  }

  lemma FirstPacketFacts(s: Source, h: Handle, size: nat)
    requires Refines(s) && h in s.connections && s.connections[h].packets == 0 && size > 0
    requires s.connections[h].status == Started
    ensures var c := s.connections[h]; var s' := AfterBinary(s, h, size).0;
      && s'.connections == s.connections[h := Spoken(s, c, size)]
      && s'.channels == s.channels[c.session :=
           if c.session in s.channels then s.channels[c.session] + [c.startTime] else [c.startTime]]
  {
    hide Size;
    FirstPacketShape(s, h, size);
  }

  lemma CloseSpeakers(s: Source, h: Handle, now: int, session: string)
    requires Refines(s) && h in s.connections
    ensures var s' := AfterClose(s, h, now, 0);
      && ChannelsKept(s, s', session)
      && if s.connections[h].packets > 0 && s.connections[h].session == session then Left(s, s', session, h)
         else Unchanged(s, s', session)
  {
    hide Size;
    var c := s.connections[h];
    assert ConnectionOk(c) && Summarises(s, c.session);
    LostSpeaker(s.connections, h, session);
    if c.packets > 0 {
      assert h in Speaking(s.connections, c.session);
    }
  }

  /** What an event does to the speakers of a session; those of other sessions are untouched. */
  lemma SpeakersStep(s: Source, e: Event, session: string)
    requires Refines(s) && FreshOpen(s, e)
    ensures var s' := Step(0, s, e);
      && ChannelsKept(s, s', session)
      && if SpeechStarts(s, e, session) then e.h in s'.connections && Joined(s, s', session, e.h)
         else if SpeechEnds(s, e, session) then Left(s, s', session, e.h)
         else Unchanged(s, s', session)
  {
    hide Size, Refines, AfterBinary, AfterClose, Joined, Left;
    match e
    case Binary(h, size) =>
      if Packet(s, e, h) {
        if s.connections[h].packets > 0 {
          LaterPacketRefines(s, h, size);
        } else {
          FirstPacketSpeakers(s, h, size, session);
        }
      } else {
        IgnoredPacket(s, h, size);
      }
    case Close(h, now) =>
      if h in s.connections {
        CloseSpeakers(s, h, now, session);
      } else {
        IgnoredClose(s, h, now);
      }
    case Open(h, now) =>
    case TextMessage(h, text, acknowledged) =>
      SilentBeforeStart(s, h);
    case SetLimit(value) =>
  }

  lemma IgnoredPacket(s: Source, h: Handle, size: nat)
    requires !Packet(s, Binary(h, size), h)
    ensures AfterBinary(s, h, size) == (s, [])
  {
  }

  lemma SilentBeforeStart(s: Source, h: Handle)
    requires Refines(s)
    ensures h in s.connections && s.connections[h].status == Opened ==> s.connections[h].packets == 0
  {
    hide Size;
    if h in s.connections {
      assert ConnectionOk(s.connections[h]);
    }
  }

  // ---------- The tuple of an event, exactly ----------

  /** A signal is submitted when a speaking connection of a forwarded call closes. */
  lemma CloseTuple(s: Source, h: Handle, now: int)
    requires Refines(s) && h in s.connections
    ensures var s', ts, c := AfterClose(s, h, now, 0), BeforePurge(s, h).1, s.connections[h];
      if c.packets > 0 && c.session in Forwarding(s) then
        && |ts| == 1 && ts[0].endOfCall && ts[0].session == c.session && ts[0].channel == c.channel
        && Forwarding(s') == if c.session in s'.channels then Forwarding(s) else Forwarding(s) - {c.session}
      else ts == [] && Forwarding(s') == Forwarding(s)
  {
    hide Size;
    var c := s.connections[h];
    assert ConnectionOk(c) && Summarises(s, c.session);
    if c.packets > 0 {
      assert h in Speaking(s.connections, c.session);
    }
  }

  /** A fragment is submitted for a packet of a call that is forwarded afterwards. */
  lemma PacketTuple(s: Source, h: Handle, size: nat)
    requires Refines(s) && Packet(s, Binary(h, size), h)
    ensures var s', ts, session := AfterBinary(s, h, size).0, AfterBinary(s, h, size).1, s.connections[h].session;
      if session in Forwarding(s') then
        && |ts| == 1 && !ts[0].endOfCall && ts[0].session == session && ts[0].size > 0
        && Forwarding(s') == Forwarding(s) + {session}
        && (session in Forwarding(s) || (session !in s.channels && s.connections[h].packets == 0))
      else ts == [] && Forwarding(s') == Forwarding(s)
  {
    hide Size;
    var c := s.connections[h];
    assert ConnectionOk(c) && Summarises(s, c.session);
    if c.packets > 0 {
      assert h in Speaking(s.connections, c.session);
    } else {
      FirstPacketShape(s, h, size);
    }
  }

  /** The tuple of an event, if any, and the change of speakers it reports. */
  lemma EventTuple(s: Source, e: Event)
    requires Refines(s) && FreshOpen(s, e)
    ensures var s', ts := Step(0, s, e), Emits(s, e);
      if ts == [] then
        && Forwarding(s') == Forwarding(s)
        && (forall session :: session in Forwarding(s') ==> !SpeechStarts(s, e, session) && !SpeechEnds(s, e, session))
        && !(e.Binary? && Packet(s, e, e.h) && s.connections[e.h].session in Forwarding(s))
      else if ts[0].endOfCall then
        && SpeechEnds(s, e, ts[0].session) && ts[0].channel == s.connections[e.h].channel
        && ts[0].session in Forwarding(s)
        && Forwarding(s') == if ts[0].session in s'.channels then Forwarding(s) else Forwarding(s) - {ts[0].session}
      else
        && e.Binary? && ts[0].size > 0 && Packet(s, e, e.h) && s.connections[e.h].session == ts[0].session
        && Forwarding(s') == Forwarding(s) + {ts[0].session}
        && (ts[0].session in Forwarding(s) || (ts[0].session !in s.channels && SpeechStarts(s, e, ts[0].session)))
    ensures Emits(s, e) != [] ==> Emits(s, e)[0].channel == 1 || Emits(s, e)[0].channel == 2
  {
    hide Size, Refines, AfterBinary, AfterClose, BeforePurge, Forwarding;
    ForwardingStep(s, e);
    match e
    case Binary(h, size) =>
      if Packet(s, e, h) {
        PacketTuple(s, h, size);
      } else {
        IgnoredPacket(s, h, size);
      }
    case Close(h, now) =>
      if h in s.connections {
        CloseTuple(s, h, now);
      }
    case _ =>
  }

  lemma SpeakingChannels(s: Source)
    requires Refines(s)
    ensures forall h :: h in s.connections && s.connections[h].packets > 0 ==> 1 <= s.connections[h].channel <= 2
  {
    hide Size;
    forall h | h in s.connections && s.connections[h].packets > 0 ensures 1 <= s.connections[h].channel <= 2 {
      assert ConnectionOk(s.connections[h]);
    }
  }

  lemma FragmentKeepsSignals(c: R.Config, r: R.Router, t: BinarySpeech)
    requires R.WellFormed(c, r) && !t.endOfCall
    ensures P.Next(c, r, t).done == r.done
  {
  }

  lemma NoSignalOfUnknown(c: R.Config, r: R.Router, session: string)
    requires P.Invariant(c, r) && session !in r.calls
    ensures Key(session, 1) !in r.done && Key(session, 2) !in r.done
  {
  }

  lemma ForwardedIsLive(s: Source, session: string)
    ensures session in Forwarding(s) ==> session in s.channels
  {
  }

  // ---------- Which channels have gone ----------

  /** A channel is gone only of a live call, and after channel 1 is gone only channel 2 speaks. */
  ghost predicate GoneOk(s: Source, gone: Gone, session: string) {
    && (forall channel :: (session, channel) in gone ==> session in s.channels && 1 <= channel <= 2)
    && ((session, 1) in gone ==> forall h | h in Speaking(s.connections, session) :: s.connections[h].channel == 2)
  }

  /** Only a close changes which channels of its session have gone. */
  lemma AllGone(s: Source, gone: Gone, e: Event)
    ensures forall session, channel :: !SpeechEnds(s, e, session) ==>
      ((session, channel) in GoneAfter(s, gone, e) <==> (session, channel) in gone)
    ensures forall session, channel :: SpeechEnds(s, e, session) ==>
      ((session, channel) in GoneAfter(s, gone, e) <==>
        session in Step(0, s, e).channels && ((session, channel) in gone || channel == s.connections[e.h].channel))
  {
    hide Step;
  }

  lemma GoneJoined(s: Source, s': Source, gone: Gone, session: string, h: Handle)
    requires Summarises(s, session) && GoneOk(s, gone, session) && ChannelsKept(s, s', session)
    requires h in s'.connections && Joined(s, s', session, h)
    ensures GoneOk(s', gone, session)
  {
    hide Size;
  }

  lemma GoneLeft(s: Source, s': Source, gone: Gone, gone': Gone, session: string, h: Handle)
    requires GoneOk(s, gone, session) && ChannelsKept(s, s', session) && OneFirstChannel(s.connections)
    requires Left(s, s', session, h) && 1 <= s.connections[h].channel <= 2
    requires forall k | k in Speaking(s.connections, session) :: 1 <= s.connections[k].channel <= 2
    requires forall channel :: (session, channel) in gone' <==>
      session in s'.channels && ((session, channel) in gone || channel == s.connections[h].channel)
    ensures GoneOk(s', gone', session)
  {
    hide Size;
  }

  lemma GoneUnchanged(s: Source, s': Source, gone: Gone, gone': Gone, session: string)
    requires GoneOk(s, gone, session) && ChannelsKept(s, s', session) && Unchanged(s, s', session)
    requires forall channel :: (session, channel) in gone' <==> (session, channel) in gone
    ensures GoneOk(s', gone', session)
  {
    hide Size;
  }

  lemma GoneStep(s: Source, gone: Gone, e: Event, session: string)
    requires Refines(s) && FreshOpen(s, e) && GoneOk(s, gone, session)
    ensures GoneOk(Step(0, s, e), GoneAfter(s, gone, e), session)
  {
    hide Size;
    SpeakersStep(s, e, session);
    SpeakingChannels(s);
    assert Summarises(s, session) && OneFirstChannel(s.connections);
    AllGone(s, gone, e);
    hide Refines, Step, GoneOk, Summarises, OneFirstChannel, Joined, Unchanged, ChannelsKept, GoneAfter;
    if SpeechStarts(s, e, session) {
      GoneJoined(s, Step(0, s, e), gone, session, e.h);
    } else if SpeechEnds(s, e, session) {
      GoneLeft(s, Step(0, s, e), gone, GoneAfter(s, gone, e), session, e.h);
    } else {
      GoneUnchanged(s, Step(0, s, e), gone, GoneAfter(s, gone, e), session);
    }
  }

  // ---------- The router beside the source ----------

  /** The forwarded calls of which not both channels have gone. */
  function Unfinished(s: Source, gone: Gone): set<string> {
    set session | session in Forwarding(s) && !BothGone(gone, session)
  }

  /** The router remembers the signals of exactly the channels that have gone. */
  predicate KeysMatch(gone: Gone, r: R.Router, session: string) {
    && (Key(session, 1) in r.done <==> (session, 1) in gone)
    && (Key(session, 2) in r.done <==> (session, 2) in gone)
  }

  /** The router knows the call exactly while it is unfinished, with the signals of the channels that have gone. */
  ghost predicate CoupledAt(s: Source, gone: Gone, r: R.Router, session: string) {
    && GoneOk(s, gone, session)
    && (session in r.calls <==> session in Unfinished(s, gone))
    && (session in r.calls ==> KeysMatch(gone, r, session))
  }

  /** What is kept in two-EOCS mode while no call is left unsettled. */
  ghost predicate Coupled(s: Source, gone: Gone, r: R.Router) {
    forall session :: CoupledAt(s, gone, r, session)
  }

  /** The event leaves this call unsettled. */
  predicate Unsettles(s: Source, gone: Gone, e: Event, session: string) {
    Unsettling(s, gone, e) && (e.Binary? || e.Close?) && e.h in s.connections && s.connections[e.h].session == session
  }

  /** One tuple in two-EOCS mode: a fragment makes its call known, the second signal makes it unknown. */
  lemma TwoSignalRoute(c: R.Config, r: R.Router, t: BinarySpeech)
    requires c.eocsNeeded == 2 && R.WellFormed(c, r) && (t.channel == 1 || t.channel == 2)
    requires if t.endOfCall then t.session in r.calls else t.size > 0 && R.Route(c, r, t).1 != R.Refused
    ensures R.Route(c, r, t).1.Forwarded?
    ensures P.Next(c, r, t).calls.Keys ==
      if !t.endOfCall then r.calls.Keys + {t.session}
      else if Key(t.session, 3 - t.channel) in r.done then r.calls.Keys - {t.session} else r.calls.Keys
  {
    KeyInjective(t.session, 1, t.session, 2);
    assert Key(t.session, 3 - t.channel) in r.done[Key(t.session, t.channel) := true] <==> Key(t.session, 3 - t.channel) in r.done;
  }

  lemma UnknownSignal(c: R.Config, r: R.Router, t: BinarySpeech)
    requires R.WellFormed(c, r) && t.endOfCall && t.session !in r.calls
    ensures P.Next(c, r, t) == r && R.Route(c, r, t).1 == R.UnknownCall
  {
  }

  lemma UnfinishedForwarded(s: Source, gone: Gone)
    ensures Unfinished(s, gone) <= Forwarding(s)
  {
  }

  lemma StillLive(s: Source, s': Source, session: string, h: Handle)
    requires Left(s, s', session, h) && Refines(s)
    ensures session in s'.channels <==> |s.channels[session]| != 1
  {
    hide Size, Summarises;
  }

  /** A call that a fragment makes known has no channel gone and no signal remembered. */
  lemma NewlyKnown(c: R.Config, s: Source, gone: Gone, r: R.Router, session: string)
    requires P.Invariant(c, r) && GoneOk(s, gone, session)
    requires session !in r.calls && session !in s.channels
    ensures KeysMatch(gone, r, session)
  {
    hide Key, P.Invariant, Speaking;
    NoSignalOfUnknown(c, r, session);
  }

  lemma SameSignals(gone: Gone, gone': Gone, r: R.Router, r': R.Router, session: string)
    requires KeysMatch(gone, r, session)
    requires forall channel :: (session, channel) in gone' <==> (session, channel) in gone
    requires Key(session, 1) in r'.done <==> Key(session, 1) in r.done
    requires Key(session, 2) in r'.done <==> Key(session, 2) in r.done
    ensures KeysMatch(gone', r', session)
  {
    hide Key;
  }

  lemma OneMoreSignal(gone: Gone, gone': Gone, r: R.Router, r': R.Router, session: string, channel: int)
    requires KeysMatch(gone, r, session)
    requires forall ch :: (session, ch) in gone' <==> (session, ch) in gone || ch == channel
    requires Key(session, 1) in r'.done <==> channel == 1 || Key(session, 1) in r.done
    requires Key(session, 2) in r'.done <==> channel == 2 || Key(session, 2) in r.done
    ensures KeysMatch(gone', r', session)
  {
    hide Key;
  }

  lemma UnfinishedIff(s: Source, gone: Gone, session: string)
    ensures session in Unfinished(s, gone) <==> session in Forwarding(s) && !BothGone(gone, session)
  {
  }

  /** A tuple of another call changes neither assignment nor signals of this one. */
  lemma OtherTuple(c: R.Config, r: R.Router, t: BinarySpeech, session: string)
    requires R.WellFormed(c, r) && t.session != session
    ensures session in P.Next(c, r, t).calls <==> session in r.calls
    ensures Key(session, 1) in P.Next(c, r, t).done <==> Key(session, 1) in r.done
    ensures Key(session, 2) in P.Next(c, r, t).done <==> Key(session, 2) in r.done
  {
    P.SignalAfter(c, r, t, session, 1);
    P.SignalAfter(c, r, t, session, 2);
    hide Key;
  }

  /** An event that submits nothing for the call, whatever it submits for others. */
  lemma CoupledElsewhere(s: Source, s': Source, gone: Gone, gone': Gone, r: R.Router, r': R.Router, session: string)
    requires CoupledAt(s, gone, r, session) && GoneOk(s', gone', session)
    requires session in Forwarding(s') <==> session in Forwarding(s)
    requires session in Forwarding(s) ==> forall channel :: (session, channel) in gone' <==> (session, channel) in gone
    requires session in r'.calls <==> session in r.calls
    requires Key(session, 1) in r'.done <==> Key(session, 1) in r.done
    requires Key(session, 2) in r'.done <==> Key(session, 2) in r.done
    ensures CoupledAt(s', gone', r', session)
  {
    hide Key, Forwarding, GoneOk, KeysMatch, Unfinished;
    UnfinishedIff(s, gone, session);
    UnfinishedIff(s', gone', session);
    if session in r.calls {
      SameSignals(gone, gone', r, r', session);
    }
  }

  /** A fragment of the call itself: the router knows the call afterwards, as it is not late. */
  lemma CoupledAfterFragment(c: R.Config, s: Source, gone: Gone, r: R.Router, e: Event, session: string)
    requires c.eocsNeeded == 2 && Refines(s) && FreshOpen(s, e) && P.Invariant(c, r) && CoupledAt(s, gone, r, session)
    requires Emits(s, e) != [] && !Emits(s, e)[0].endOfCall && Emits(s, e)[0].session == session
    requires R.WellFormed(c, r) && R.Route(c, r, Emits(s, e)[0]).1 != R.Refused
    requires !Unsettles(s, gone, e, session) && GoneOk(Step(0, s, e), gone, session)
    ensures CoupledAt(Step(0, s, e), gone, P.Next(c, r, Emits(s, e)[0]), session)
  {
    hide Size, Refines, Step, Emits, R.Route, P.Invariant, Key, Forwarding, KeysMatch, GoneOk, Unfinished;
    EventTuple(s, e);
    var t := Emits(s, e)[0];
    UnfinishedIff(s, gone, session);
    UnfinishedIff(Step(0, s, e), gone, session);
    assert BothGone(gone, session) ==> session in s.channels by { GoneIsLive(s, gone, session); }
    ForwardedIsLive(s, session);
    TwoSignalRoute(c, r, t);
    FragmentKeepsSignals(c, r, t);
    if session !in r.calls {
      NewlyKnown(c, s, gone, r, session);
    }
    SameSignals(gone, gone, r, P.Next(c, r, t), session);
  }

  lemma GoneIsLive(s: Source, gone: Gone, session: string)
    requires GoneOk(s, gone, session)
    ensures BothGone(gone, session) ==> session in s.channels
  {
  }

  /** A signal of the call itself completes it if it is the first one of the second channel. */
  lemma CoupledAfterSignal(c: R.Config, s: Source, gone: Gone, r: R.Router, e: Event, session: string)
    requires c.eocsNeeded == 2 && Refines(s) && FreshOpen(s, e) && P.Invariant(c, r) && CoupledAt(s, gone, r, session)
    requires Emits(s, e) != [] && Emits(s, e)[0].endOfCall && Emits(s, e)[0].session == session
    requires !Unsettles(s, gone, e, session) && GoneOk(Step(0, s, e), GoneAfter(s, gone, e), session) && R.WellFormed(c, r)
    ensures R.Route(c, r, Emits(s, e)[0]).1.Forwarded? <==> !Surplus(s, gone, e)
    ensures CoupledAt(Step(0, s, e), GoneAfter(s, gone, e), P.Next(c, r, Emits(s, e)[0]), session)
  {
    hide Size, Refines, Step, Emits, R.Route, P.Invariant, Key, Forwarding, KeysMatch, GoneOk, Unfinished, GoneAfter;
    hide Left, Joined, Unchanged, ChannelsKept, P.Next;
    EventTuple(s, e);
    var s', t, gone' := Step(0, s, e), Emits(s, e)[0], GoneAfter(s, gone, e);
    SpeakersStep(s, e, session);
    AllGone(s, gone, e);
    StillLive(s, s', session, e.h);
    ForwardedIsLive(s, session);
    UnfinishedIff(s, gone, session);
    UnfinishedIff(s', gone', session);
    if BothGone(gone, session) {
      UnknownSignal(c, r, t);
    } else {
      TwoSignalRoute(c, r, t);
      KnownSignals(gone, r, session);
      if session in P.Next(c, r, t).calls {
        P.SignalAfter(c, r, t, session, 1);
        P.SignalAfter(c, r, t, session, 2);
        OneMoreSignal(gone, gone', r, P.Next(c, r, t), session, t.channel);
      }
    }
  }

  lemma KnownSignals(gone: Gone, r: R.Router, session: string)
    requires KeysMatch(gone, r, session)
    ensures forall channel :: channel == 1 || channel == 2 ==> (Key(session, channel) in r.done <==> (session, channel) in gone)
  {
    hide Key;
  }

  lemma EndsElsewhere(s: Source, e: Event, session: string, other: string)
    requires e.Binary? || (SpeechEnds(s, e, session) && other != session)
    ensures !SpeechEnds(s, e, other)
  {
  }

  lemma CoupledGoneOk(s: Source, gone: Gone, r: R.Router, session: string)
    requires CoupledAt(s, gone, r, session)
    ensures GoneOk(s, gone, session)
  {
    hide GoneOk;
  }

  /** One event, seen from one call: unless it is left unsettled or refused, the router goes on knowing it exactly. */
  lemma CoupledAtStep(c: R.Config, s: Source, gone: Gone, r: R.Router, e: Event, session: string)
    requires c.eocsNeeded == 2 && Refines(s) && FreshOpen(s, e) && P.Invariant(c, r) && CoupledAt(s, gone, r, session)
    requires R.WellFormed(c, r) && P.NeverRefused(c, r, Emits(s, e)) && !Unsettles(s, gone, e, session)
    ensures CoupledAt(Step(0, s, e), GoneAfter(s, gone, e), P.Run(c, r, Emits(s, e)), session)
  {
    hide *;
    CoupledGoneOk(s, gone, r, session);
    GoneStep(s, gone, e, session);
    AllGone(s, gone, e);
    EventTuple(s, e);
    OneTuple(c, r, s, e);
    var s', gone', ts := Step(0, s, e), GoneAfter(s, gone, e), Emits(s, e);
    if ts == [] {
      CoupledElsewhere(s, s', gone, gone', r, r, session);
    } else if ts[0].session != session {
      EndsElsewhere(s, e, ts[0].session, session);
      OtherTuple(c, r, ts[0], session);
      CoupledElsewhere(s, s', gone, gone', r, P.Next(c, r, ts[0]), session);
    } else if ts[0].endOfCall {
      CoupledAfterSignal(c, s, gone, r, e, session);
    } else {
      NotClosing(s, gone, e);
      CoupledAfterFragment(c, s, gone, r, e, session);
    }
  }

  lemma NotClosing(s: Source, gone: Gone, e: Event)
    requires !e.Close?
    ensures GoneAfter(s, gone, e) == gone
  {
  }

  /** While the limits fit and the router knows only forwarded calls, an event has nothing refused. */
  lemma NotRefused(c: R.Config, s: Source, r: R.Router, e: Event)
    requires Sound(c, s, r) && FreshOpen(s, e) && LimitBelow(e, P.Places(c)) && r.calls.Keys <= Forwarding(s)
    ensures R.WellFormed(c, r) && P.NeverRefused(c, r, Emits(s, e))
  {
    hide Size, Sound, Refines, Step, Emits, R.Route, P.Invariant, P.Exact, Accounted, P.Places, Forwarding, P.NeverRefused;
    SoundFacts(c, s, r);
    SoundStep(c, s, r, e);
    SoundFacts(c, Step(0, s, e), P.Run(c, r, Emits(s, e)));
    EventTuple(s, e);
    OneTuple(c, r, s, e);
    if Emits(s, e) != [] {
      if Emits(s, e)[0].endOfCall {
        SignalNotRefused(c, r, Emits(s, e)[0]);
      } else {
        PlaceForForwarded(c, Step(0, s, e), r, Emits(s, e)[0]);
      }
    }
  }

  /** Only a surplus signal is not sent to a processor. */
  lemma SentUnlessSurplus(c: R.Config, s: Source, gone: Gone, r: R.Router, e: Event)
    requires c.eocsNeeded == 2 && Refines(s) && FreshOpen(s, e) && P.Invariant(c, r) && Coupled(s, gone, r)
    requires R.WellFormed(c, r) && P.NeverRefused(c, r, Emits(s, e)) && !Unsettling(s, gone, e)
    ensures P.AllForwarded(c, r, Emits(s, e)) <==> !Surplus(s, gone, e)
  {
    hide Size, Refines, Step, Emits, R.Route, P.Invariant, Key, Forwarding, KeysMatch, GoneOk, Unfinished, GoneAfter, CoupledAt;
    hide Unsettling, P.NeverRefused, P.AllForwarded, P.Run, P.Next;
    EventTuple(s, e);
    OneTuple(c, r, s, e);
    if Emits(s, e) != [] {
      var t := Emits(s, e)[0];
      assert CoupledAt(s, gone, r, t.session);
      if t.endOfCall {
        CoupledGoneOk(s, gone, r, t.session);
        GoneStep(s, gone, e, t.session);
        CoupledAfterSignal(c, s, gone, r, e, t.session);
      } else {
        TwoSignalRoute(c, r, t);
      }
    }
  }

  /** An event that leaves no call unsettled: nothing is refused, only a surplus signal finds its call unknown, and the
      router goes on knowing exactly the unfinished calls. */
  lemma CoupledStep(c: R.Config, s: Source, gone: Gone, r: R.Router, e: Event)
    requires c.eocsNeeded == 2 && Sound(c, s, r) && Coupled(s, gone, r)
    requires FreshOpen(s, e) && LimitBelow(e, P.Places(c)) && !Unsettling(s, gone, e)
    ensures P.NeverRefused(c, r, Emits(s, e)) && (P.AllForwarded(c, r, Emits(s, e)) <==> !Surplus(s, gone, e))
    ensures Coupled(Step(0, s, e), GoneAfter(s, gone, e), P.Run(c, r, Emits(s, e)))
  {
    hide CoupledAt, Sound, Refines, Step, Emits, R.Route, P.Invariant, P.Exact, Accounted, P.Places, Unsettling, GoneAfter;
    hide P.NeverRefused, P.AllForwarded, P.Run, Surplus, Size;
    SoundFacts(c, s, r);
    CoupledCalls(s, gone, r);
    NotRefused(c, s, r, e);
    SentUnlessSurplus(c, s, gone, r, e);
    forall session ensures CoupledAt(Step(0, s, e), GoneAfter(s, gone, e), P.Run(c, r, Emits(s, e)), session) {
      CoupledAtStep(c, s, gone, r, e, session);
    }
  }

  lemma CoupledCalls(s: Source, gone: Gone, r: R.Router)
    requires Coupled(s, gone, r)
    ensures r.calls.Keys == Unfinished(s, gone) <= Forwarding(s)
  {
    hide Forwarding, GoneOk, KeysMatch, Unfinished;
    forall session ensures session in r.calls <==> session in Unfinished(s, gone) {
      assert CoupledAt(s, gone, r, session);
    }
    UnfinishedForwarded(s, gone);
  }

  // ---------- Runs that leave no call unsettled ----------

  function GoneDuring(s: Source, gone: Gone, es: seq<Event>): Gone
    decreases |es|
  {
    if es == [] then gone else GoneDuring(Step(0, s, es[0]), GoneAfter(s, gone, es[0]), es[1..])
  }

  lemma CoupledEnds(c: R.Config, s: Source, gone: Gone, r: R.Router)
    requires Sound(c, s, r) && Coupled(s, gone, r)
    ensures P.NeverRefused(c, r, Output(s, [])) && P.AllForwarded(c, r, Output(s, [])) && NoSurplus(s, gone, [])
    ensures R.WellFormed(c, r) && P.Run(c, r, Output(s, [])) == r && Run(0, s, []) == s && GoneDuring(s, gone, []) == gone
  {
    hide Size;
  }

  lemma {:induction false} SettledRun(c: R.Config, s: Source, gone: Gone, r: R.Router, es: seq<Event>)
    requires c.eocsNeeded == 2 && Sound(c, s, r) && Coupled(s, gone, r)
    requires FreshOpens(s, es) && LimitsBelow(s, es, P.Places(c)) && Settled(s, gone, es)
    ensures R.WellFormed(c, r) && P.NeverRefused(c, r, Output(s, es))
    ensures P.AllForwarded(c, r, Output(s, es)) <==> NoSurplus(s, gone, es)
    ensures Sound(c, Run(0, s, es), P.Run(c, r, Output(s, es)))
    ensures Coupled(Run(0, s, es), GoneDuring(s, gone, es), P.Run(c, r, Output(s, es)))
    decreases |es|
  {
    SoundFacts(c, s, r);
    if es == [] {
      CoupledEnds(c, s, gone, r);
    } else {
      var s', gone', ts := Step(0, s, es[0]), GoneAfter(s, gone, es[0]), Emits(s, es[0]);
      assert FreshOpen(s, es[0]) && FreshOpens(s', es[1..]) && LimitBelow(es[0], P.Places(c));
      assert !Unsettling(s, gone, es[0]) && Settled(s', gone', es[1..]);
      assert NoSurplus(s, gone, es) <==> !Surplus(s, gone, es[0]) && NoSurplus(s', gone', es[1..]);
      assert GoneDuring(s, gone, es) == GoneDuring(s', gone', es[1..]);
      LimitsLater(c, s, r, es);
      hide *;
      CoupledStep(c, s, gone, r, es[0]);
      SoundStep(c, s, r, es[0]);
      Composed(c, s, r, es);
      SettledRun(c, s', gone', P.Run(c, r, ts), es[1..]);
    }
  }

  lemma LimitsLater(c: R.Config, s: Source, r: R.Router, es: seq<Event>)
    requires Sound(c, s, r) && es != [] && FreshOpen(s, es[0]) && LimitsBelow(s, es, P.Places(c))
    ensures LimitBelow(es[0], P.Places(c)) && LimitsBelow(Step(0, s, es[0]), es[1..], P.Places(c))
  {
    hide Step, Emits, P.Places;
    SoundStep(c, s, r, es[0]);
    SoundStepFacts(c, s, r, es[0]);
  }

  lemma SoundStepFacts(c: R.Config, s: Source, r: R.Router, e: Event)
    requires R.WellFormed(c, r) && Sound(c, Step(0, s, e), P.Run(c, r, Emits(s, e)))
    ensures Step(0, s, e).limit <= P.Places(c)
  {
    hide Step, Emits;
  }

  lemma InitiallyCoupled(c: R.Config, limit: nat, now: int)
    ensures Coupled(Initial(limit, now), {}, R.Initial(c))
  {
  }

  /** In two-EOCS mode, while no limit above N * capacity is accepted and no call is left unsettled: nothing is refused,
      every tuple reaches a processor but for the surplus signals, the router knows exactly the forwarded calls of which
      not both channels have gone, and it is idle once every connection has closed. */
  lemma SettledAdmission(c: R.Config, limit: nat, now: int, es: seq<Event>)
    requires c.eocsNeeded == 2
    requires FreshOpens(Initial(limit, now), es) && LimitsBelow(Initial(limit, now), es, P.Places(c))
    requires Settled(Initial(limit, now), {}, es)
    ensures var s := Initial(limit, now); var output := Output(s, es); var r := P.Run(c, R.Initial(c), output);
      && P.NeverRefused(c, R.Initial(c), output)
      && (P.AllForwarded(c, R.Initial(c), output) <==> NoSurplus(s, {}, es))
      && r.calls.Keys == Unfinished(Run(0, s, es), GoneDuring(s, {}, es))
      && (Run(0, s, es).connections == map[] ==> forall p :: 0 <= p < c.processors ==> r.status[p] == 0)
  {
    var s, r := Initial(limit, now), R.Initial(c);
    InitiallySound(c, limit, now);
    InitiallyCoupled(c, limit, now);
    hide *;
    SettledRun(c, s, {}, r, es);
    var s', r' := Run(0, s, es), P.Run(c, r, Output(s, es));
    CoupledCalls(s', GoneDuring(s, {}, es), r');
    SoundFacts(c, s', r');
    if s'.connections == map[] {
      IdleAtTheEnd(c, s', r');
    }
  }

  // ---------- After a call was left unsettled ----------

  function SessionOf(s: Source, e: Event): string
    requires (e.Binary? || e.Close?) && e.h in s.connections
  {
    s.connections[e.h].session
  }

  /** The channel whose signal the router now waits for. */
  function Owed(s: Source, e: Event): int
    requires (e.Binary? || e.Close?) && e.h in s.connections
  {
    if e.Binary? then 1 else 3 - s.connections[e.h].channel
  }

  /** A connection that will be given the owed channel starts to speak for the session in a forwarded call. */
  predicate Answers(s: Source, e: Event, session: string, owed: int) {
    SpeechStarts(s, e, session) && session in Forwarding(Step(0, s, e)) && (owed == 1 <==> session !in s.channels)
  }

  predicate NeverAnswered(s: Source, es: seq<Event>, session: string, owed: int)
    decreases |es|
  {
    es != [] ==> !Answers(s, es[0], session, owed) && NeverAnswered(Step(0, s, es[0]), es[1..], session, owed)
  }

  /** No connection that could signal the owed channel speaks. */
  ghost predicate Silent(s: Source, session: string, owed: int) {
    session in Forwarding(s) ==> forall h | h in Speaking(s.connections, session) :: s.connections[h].channel != owed
  }

  predicate Signals(t: BinarySpeech, session: string, channel: int) {
    t.endOfCall && t.session == session && t.channel == channel
  }

  lemma SilentJoined(s: Source, s': Source, session: string, owed: int, h: Handle)
    requires h in s'.connections && Joined(s, s', session, h) && ChannelsKept(s, s', session)
    requires session in s.channels ==> forall k | k in Speaking(s.connections, session) :: s.connections[k].channel != owed
    requires Summarises(s, session)
    requires (owed == 1 || owed == 2) && !(owed == 1 <==> session !in s.channels)
    ensures Silent(s', session, owed)
  {
    hide Size, Forwarding;
  }

  lemma SilentOtherwise(s: Source, s': Source, session: string, owed: int, h: Handle)
    requires Left(s, s', session, h) || Unchanged(s, s', session)
    requires ChannelsKept(s, s', session)
    requires forall k | k in Speaking(s.connections, session) :: s.connections[k].channel != owed
    ensures Silent(s', session, owed)
  {
    hide Size, Forwarding;
  }

  lemma SilentKept(s: Source, e: Event, session: string, owed: int)
    requires Refines(s) && FreshOpen(s, e) && (owed == 1 || owed == 2)
    requires Silent(s, session, owed) && !Answers(s, e, session, owed)
    ensures Silent(Step(0, s, e), session, owed)
    ensures forall i :: 0 <= i < |Emits(s, e)| ==> !Signals(Emits(s, e)[i], session, owed)
  {
    hide Size, Step, Emits, Forwarding, Joined, Left, Unchanged, ChannelsKept;
    assert Summarises(s, session);
    AtMostOneTuple(s, e);
    hide Refines, Summarises;
    EventTuple(s, e);
    SpeakersStep(s, e, session);
    var s' := Step(0, s, e);
    if session in Forwarding(s') {
      if SpeechStarts(s, e, session) {
        if session in s.channels {
          assert session in Forwarding(s);
        }
        SilentJoined(s, s', session, owed, e.h);
      } else {
        assert session in Forwarding(s);
        SilentOtherwise(s, s', session, owed, if e.Close? then e.h else 0);
      }
    }
  }

  lemma {:induction false} OwedNeverSignalled(s: Source, es: seq<Event>, session: string, owed: int)
    requires Refines(s) && FreshOpens(s, es) && (owed == 1 || owed == 2)
    requires Silent(s, session, owed) && NeverAnswered(s, es, session, owed)
    ensures forall i :: 0 <= i < |Output(s, es)| ==> !Signals(Output(s, es)[i], session, owed)
    decreases |es|
  {
    if es != [] {
      var s' := Step(0, s, es[0]);
      assert FreshOpen(s, es[0]) && FreshOpens(s', es[1..]) && !Answers(s, es[0], session, owed);
      assert NeverAnswered(s', es[1..], session, owed);
      assert Output(s, es) == Emits(s, es[0]) + Output(s', es[1..]);
      hide *;
      StepRefines(s, es[0]);
      SilentKept(s, es[0], session, owed);
      OwedNeverSignalled(s', es[1..], session, owed);
    }
  }

  lemma UnsettlingFacts(s: Source, gone: Gone, e: Event)
    requires Refines(s) && Unsettling(s, gone, e)
    ensures (e.Binary? || e.Close?) && e.h in s.connections && SessionOf(s, e) in Forwarding(s)
    ensures Owed(s, e) == 1 || Owed(s, e) == 2
  {
    hide Size, Forwarding;
    SpeakingChannels(s);
  }

  /** After a late packet all speakers of the call have channel 2; after a lone close nobody speaks. */
  lemma SilentAfterwards(s: Source, gone: Gone, e: Event)
    requires Refines(s) && FreshOpen(s, e) && Unsettling(s, gone, e) && e.h in s.connections && GoneOk(s, gone, SessionOf(s, e))
    ensures Silent(Step(0, s, e), SessionOf(s, e), Owed(s, e))
  {
    hide Size, Step, GoneAfter, Forwarding;
    var session := SessionOf(s, e);
    GoneStep(s, gone, e, session);
    AllGone(s, gone, e);
    SpeakersStep(s, e, session);
    if LoneClose(s, gone, e) {
      StillLive(s, Step(0, s, e), session, e.h);
      NotForwarded(Step(0, s, e), session);
    }
  }

  lemma NotForwarded(s: Source, session: string)
    ensures session !in s.channels ==> session !in Forwarding(s)
  {
  }

  /** The tuple of an unsettling event: a fragment that opens the call anew, or a signal that does not complete it. */
  lemma KeptWaiting(c: R.Config, s: Source, gone: Gone, r: R.Router, e: Event, session: string)
    requires c.eocsNeeded == 2 && Refines(s) && P.Invariant(c, r) && R.WellFormed(c, r) && CoupledAt(s, gone, r, session)
    requires FreshOpen(s, e) && Unsettles(s, gone, e, session) && P.NeverRefused(c, r, Emits(s, e))
    ensures Emits(s, e) != [] && session in P.Next(c, r, Emits(s, e)[0]).calls
    ensures Key(session, Owed(s, e)) !in P.Next(c, r, Emits(s, e)[0]).done
  {
    hide Size, Refines, Step, Emits, R.Route, P.Invariant, Key, Forwarding, GoneOk, P.Next, P.NeverRefused;
    UnsettlingFacts(s, gone, e);
    EventTuple(s, e);
    OneTuple(c, r, s, e);
    UnfinishedIff(s, gone, session);
    var t := Emits(s, e)[0];
    if LateSpeech(s, gone, e) {
      NoSignalOfUnknown(c, r, session);
      TwoSignalRoute(c, r, t);
      FragmentKeepsSignals(c, r, t);
    } else {
      NotBothGone(s, gone, e);
      TwoSignalRoute(c, r, t);
      P.SignalAfter(c, r, t, session, Owed(s, e));
    }
  }

  lemma NotBothGone(s: Source, gone: Gone, e: Event)
    requires Refines(s) && LoneClose(s, gone, e)
    ensures !BothGone(gone, SessionOf(s, e))
  {
    hide Size, Forwarding;
    SpeakingChannels(s);
  }

  lemma RunAfterTuple(c: R.Config, r: R.Router, s: Source, e: Event, es: seq<Event>)
    requires R.WellFormed(c, r) && Emits(s, e) != []
    ensures P.Run(c, r, Output(s, [e] + es)) == P.Run(c, P.Next(c, r, Emits(s, e)[0]), Output(Step(0, s, e), es))
  {
    assert ([e] + es)[0] == e && ([e] + es)[1..] == es;
    hide *;
    OneTuple(c, r, s, e);
    Composed(c, s, r, [e] + es);
  }

  /** A call that misses the owed signal stays with the router while that signal does not come. */
  lemma StaysWaiting(c: R.Config, r: R.Router, ts: seq<BinarySpeech>, session: string, owed: int)
    requires c.eocsNeeded == 2 && R.WellFormed(c, r) && session in r.calls
    requires (owed == 1 || owed == 2) && Key(session, owed) !in r.done
    requires forall i :: 0 <= i < |ts| ==> !Signals(ts[i], session, owed)
    ensures session in P.Run(c, r, ts).calls
  {
    hide *;
    NotSignalled(r, ts, session, owed);
    OneSignalMissing(r, ts, session, owed);
    P.StickyUntilBothSignalled(c, r, ts, session);
  }

  lemma UnsettlesItsSession(s: Source, gone: Gone, e: Event, session: string)
    requires Unsettles(s, gone, e, session)
    ensures Unsettling(s, gone, e) && (e.Binary? || e.Close?) && e.h in s.connections && SessionOf(s, e) == session
  {
    hide Unsettling;
  }

  /** The call that the event leaves unsettled, over every continuation without an answer. */
  lemma WaitsForTheOwed(c: R.Config, s: Source, gone: Gone, r: R.Router, e: Event, es: seq<Event>, session: string)
    requires c.eocsNeeded == 2 && Refines(s) && P.Invariant(c, r) && R.WellFormed(c, r) && CoupledAt(s, gone, r, session)
    requires FreshOpen(s, e) && FreshOpens(Step(0, s, e), es) && P.NeverRefused(c, r, Emits(s, e))
    requires Unsettles(s, gone, e, session) && NeverAnswered(Step(0, s, e), es, session, Owed(s, e))
    ensures session in P.Run(c, r, Output(s, [e] + es)).calls
  {
    hide *;
    UnsettlesItsSession(s, gone, e, session);
    CoupledGoneOk(s, gone, r, session);
    UnsettlingFacts(s, gone, e);
    SilentAfterwards(s, gone, e);
    StepRefines(s, e);
    OwedNeverSignalled(Step(0, s, e), es, session, Owed(s, e));
    KeptWaiting(c, s, gone, r, e, session);
    RunAfterTuple(c, r, s, e, es);
    StaysWaiting(c, P.Next(c, r, Emits(s, e)[0]), Output(Step(0, s, e), es), session, Owed(s, e));
  }

  lemma CoupledHere(s: Source, gone: Gone, r: R.Router, session: string)
    requires Coupled(s, gone, r)
    ensures CoupledAt(s, gone, r, session)
  {
    hide CoupledAt;
  }

  /** From a state without an unsettled call, while the limits fit. */
  lemma WaitsFrom(c: R.Config, s: Source, gone: Gone, r: R.Router, e: Event, es: seq<Event>)
    requires c.eocsNeeded == 2 && Sound(c, s, r) && Coupled(s, gone, r)
    requires FreshOpen(s, e) && LimitBelow(e, P.Places(c)) && FreshOpens(Step(0, s, e), es) && Unsettling(s, gone, e)
    requires (e.Binary? || e.Close?) && e.h in s.connections
    requires NeverAnswered(Step(0, s, e), es, SessionOf(s, e), Owed(s, e))
    ensures R.WellFormed(c, r) && SessionOf(s, e) in P.Run(c, r, Output(s, [e] + es)).calls
  {
    assert Unsettles(s, gone, e, SessionOf(s, e));
    hide *;
    SoundFacts(c, s, r);
    CoupledCalls(s, gone, r);
    NotRefused(c, s, r, e);
    CoupledHere(s, gone, r, SessionOf(s, e));
    WaitsForTheOwed(c, s, gone, r, e, es, SessionOf(s, e));
  }

  lemma {:induction false} OutputConcat(s: Source, a: seq<Event>, b: seq<Event>)
    ensures Output(s, a + b) == Output(s, a) + Output(Run(0, s, a), b)
    decreases |a|
  {
    if a == [] {
      assert a + b == b;
    } else {
      assert (a + b)[0] == a[0] && (a + b)[1..] == a[1..] + b;
      hide Step, Emits;
      OutputConcat(Step(0, s, a[0]), a[1..], b);
    }
  }

  lemma LimitsOfPrefix(s: Source, before: seq<Event>, e: Event, bound: int)
    requires LimitsBelow(s, before + [e], bound)
    ensures LimitsBelow(s, before, bound) && LimitBelow(e, bound)
  {
    assert (before + [e])[|before|] == e;
    assert forall i :: 0 <= i < |before| ==> (before + [e])[i] == before[i];
  }

  lemma WithinBound(limit: nat, now: int, es: seq<Event>, bound: int)
    requires LimitsBelow(Initial(limit, now), es, bound)
    ensures limit <= bound
  {
  }

  /** A call that an event leaves unsettled keeps its place for as long as no connection answers: over every later run,
      whatever limits it sets and whether or not it closes all connections. */
  lemma UnsettledKeepsItsPlace(c: R.Config, limit: nat, now: int, before: seq<Event>, e: Event, later: seq<Event>)
    requires c.eocsNeeded == 2
    requires FreshOpens(Initial(limit, now), before) && LimitsBelow(Initial(limit, now), before + [e], P.Places(c))
    requires Settled(Initial(limit, now), {}, before)
    requires var s := Run(0, Initial(limit, now), before);
      && FreshOpen(s, e) && FreshOpens(Step(0, s, e), later) && (e.Binary? || e.Close?) && e.h in s.connections
      && Unsettling(s, GoneDuring(Initial(limit, now), {}, before), e)
      && NeverAnswered(Step(0, s, e), later, SessionOf(s, e), Owed(s, e))
    ensures SessionOf(Run(0, Initial(limit, now), before), e)
      in P.Run(c, R.Initial(c), Output(Initial(limit, now), before + ([e] + later))).calls
  {
    hide *;
    var s0, r0 := Initial(limit, now), R.Initial(c);
    LimitsOfPrefix(s0, before, e, P.Places(c));
    WithinBound(limit, now, before, P.Places(c));
    InitiallySound(c, limit, now);
    InitiallyCoupled(c, limit, now);
    SettledRun(c, s0, {}, r0, before);
    WaitsFrom(c, Run(0, s0, before), GoneDuring(s0, {}, before), P.Run(c, r0, Output(s0, before)), e, later);
    OutputConcat(s0, before, [e] + later);
    P.RunConcat(c, r0, Output(s0, before), Output(Run(0, s0, before), [e] + later));
  }

  lemma NotSignalled(r: R.Router, ts: seq<BinarySpeech>, session: string, channel: int)
    requires Key(session, channel) !in r.done
    requires forall i :: 0 <= i < |ts| ==> !Signals(ts[i], session, channel)
    ensures !P.Signalled(r, ts, session, channel)
  {
    hide Key;
  }

  lemma OneSignalMissing(r: R.Router, ts: seq<BinarySpeech>, session: string, channel: int)
    requires (channel == 1 || channel == 2) && !P.Signalled(r, ts, session, channel)
    ensures !(P.Signalled(r, ts, session, 1) && P.Signalled(r, ts, session, 2))
  {
    hide P.Signalled;
  }

  // ---------- Idle if and only if settled ----------

  /** The first unsettling event of the run, if any, is not answered later. */
  predicate Unanswered(s: Source, gone: Gone, es: seq<Event>)
    decreases |es|
  {
    es != [] ==>
      var s', e := Step(0, s, es[0]), es[0];
      if (e.Binary? || e.Close?) && e.h in s.connections && Unsettling(s, gone, e) then
        NeverAnswered(s', es[1..], SessionOf(s, e), Owed(s, e))
      else Unanswered(s', GoneAfter(s, gone, e), es[1..])
  }

  lemma UnsettlingHere(s: Source, gone: Gone, es: seq<Event>)
    requires es != [] && Unsettling(s, gone, es[0]) && Unanswered(s, gone, es)
    ensures (es[0].Binary? || es[0].Close?) && es[0].h in s.connections
    ensures NeverAnswered(Step(0, s, es[0]), es[1..], SessionOf(s, es[0]), Owed(s, es[0]))
  {
    hide Step, NeverAnswered, Forwarding;
  }

  lemma UnsettlingLater(s: Source, gone: Gone, es: seq<Event>)
    requires es != [] && !Unsettling(s, gone, es[0])
    ensures Unanswered(s, gone, es) <==> Unanswered(Step(0, s, es[0]), GoneAfter(s, gone, es[0]), es[1..])
    ensures Settled(s, gone, es) <==> Settled(Step(0, s, es[0]), GoneAfter(s, gone, es[0]), es[1..])
  {
    hide Step, NeverAnswered, Unsettling, GoneAfter;
  }

  lemma {:induction false} UnsettledRun(c: R.Config, s: Source, gone: Gone, r: R.Router, es: seq<Event>) returns (session: string)
    requires c.eocsNeeded == 2 && Sound(c, s, r) && Coupled(s, gone, r)
    requires FreshOpens(s, es) && LimitsBelow(s, es, P.Places(c)) && Unanswered(s, gone, es) && !Settled(s, gone, es)
    ensures R.WellFormed(c, r) && session in P.Run(c, r, Output(s, es)).calls
    decreases |es|
  {
    SoundFacts(c, s, r);
    assert es != [] && es == [es[0]] + es[1..];
    var e, s', gone', ts := es[0], Step(0, s, es[0]), GoneAfter(s, gone, es[0]), Emits(s, es[0]);
    assert FreshOpen(s, e) && FreshOpens(s', es[1..]);
    LimitsLater(c, s, r, es);
    hide *;
    if Unsettling(s, gone, e) {
      UnsettlingHere(s, gone, es);
      WaitsFrom(c, s, gone, r, e, es[1..]);
      session := SessionOf(s, e);
    } else {
      UnsettlingLater(s, gone, es);
      CoupledStep(c, s, gone, r, e);
      SoundStep(c, s, r, e);
      Composed(c, s, r, es);
      session := UnsettledRun(c, s', gone', P.Run(c, r, ts), es[1..]);
    }
  }

  lemma NotIdle(c: R.Config, r: R.Router, session: string)
    requires P.Exact(c, r) && session in r.calls
    ensures 0 <= r.calls[session] - 1 < c.processors && r.status[r.calls[session] - 1] > 0
  {
    hide Size;
    var p := r.calls[session] - 1;
    P.ExactAt(c, r, p);
    assert session in P.CallsOn(r.calls, p + 1);
    EmptySize(P.CallsOn(r.calls, p + 1));
  }

  /** Two-EOCS mode gives back every place exactly when no call is left unsettled. */
  lemma IdleIffSettled(c: R.Config, limit: nat, now: int, es: seq<Event>)
    requires c.eocsNeeded == 2
    requires FreshOpens(Initial(limit, now), es) && LimitsBelow(Initial(limit, now), es, P.Places(c))
    requires Unanswered(Initial(limit, now), {}, es) && Run(0, Initial(limit, now), es).connections == map[]
    ensures var s := Initial(limit, now); var r := P.Run(c, R.Initial(c), Output(s, es));
      (forall p :: 0 <= p < c.processors ==> r.status[p] == 0) <==> Settled(s, {}, es)
  {
    var s, r := Initial(limit, now), R.Initial(c);
    if Settled(s, {}, es) {
      SettledAdmission(c, limit, now, es);
    } else {
      InitiallySound(c, limit, now);
      InitiallyCoupled(c, limit, now);
      SoundFacts(c, s, r);
      hide *;
      var session := UnsettledRun(c, s, {}, r, es);
      P.RunInvariant(c, r, Output(s, es));
      InvariantIsExact(c, P.Run(c, r, Output(s, es)));
      NotIdle(c, P.Run(c, r, Output(s, es)), session);
    }
  }

  // ---------- Session ids that are used once ----------

  function EndedBy(s: Source, e: Event): set<string> {
    s.channels.Keys - Step(0, s, e).channels.Keys
  }

  /** No connection starts to speak for a session of which a call has ended. */
  predicate UsedOnce(s: Source, ended: set<string>, es: seq<Event>)
    decreases |es|
  {
    es != [] ==>
      && (StartsSpeaking(s, es[0]) ==> s.connections[es[0].h].session !in ended)
      && UsedOnce(Step(0, s, es[0]), ended + EndedBy(s, es[0]), es[1..])
  }

  lemma {:induction false} OnceNeverAnswered(s: Source, ended: set<string>, es: seq<Event>, session: string, owed: int)
    requires UsedOnce(s, ended, es) && (session in ended || (owed == 1 && session in s.channels))
    ensures NeverAnswered(s, es, session, owed)
    decreases |es|
  {
    if es != [] {
      assert !Answers(s, es[0], session, owed) by {
        hide Step, Packet, Forwarding;
      }
      hide Step, Answers, StartsSpeaking;
      OnceNeverAnswered(Step(0, s, es[0]), ended + EndedBy(s, es[0]), es[1..], session, owed);
    }
  }

  lemma EndedWhenLone(s: Source, gone: Gone, e: Event)
    requires Refines(s) && FreshOpen(s, e) && Unsettling(s, gone, e)
    ensures (e.Binary? || e.Close?) && e.h in s.connections
    ensures SessionOf(s, e) in EndedBy(s, e) || (Owed(s, e) == 1 && SessionOf(s, e) in Step(0, s, e).channels)
  {
    hide Size, Step, Refines, Forwarding, Left;
    UnsettlingFacts(s, gone, e);
    ForwardedIsLive(s, SessionOf(s, e));
    if LoneClose(s, gone, e) {
      SpeakersStep(s, e, SessionOf(s, e));
      StillLive(s, Step(0, s, e), SessionOf(s, e), e.h);
    }
  }

  /** Whoever uses every session id for one call only never answers for a call that was left unsettled. */
  lemma {:induction false} OnceIsUnanswered(s: Source, gone: Gone, ended: set<string>, es: seq<Event>)
    requires Refines(s) && FreshOpens(s, es) && UsedOnce(s, ended, es)
    ensures Unanswered(s, gone, es)
    decreases |es|
  {
    if es != [] {
      var s', e := Step(0, s, es[0]), es[0];
      assert UsedOnce(s', ended + EndedBy(s, e), es[1..]) && FreshOpen(s, e) && FreshOpens(s', es[1..]);
      hide Step, Unsettling, UsedOnce, GoneAfter, Refines, EndedBy, NeverAnswered, SessionOf, Owed;
      if Unsettling(s, gone, e) {
        EndedWhenLone(s, gone, e);
        OnceNeverAnswered(s', ended + EndedBy(s, e), es[1..], SessionOf(s, e), Owed(s, e));
      } else {
        StepRefines(s, e);
        OnceIsUnanswered(s', GoneAfter(s, gone, e), ended + EndedBy(s, e), es[1..]);
      }
    }
  }

  /** When every session id is used for one call only: idle at the end if and only if no call was left unsettled. */
  lemma IdleIffSettledOnce(c: R.Config, limit: nat, now: int, es: seq<Event>)
    requires c.eocsNeeded == 2
    requires FreshOpens(Initial(limit, now), es) && LimitsBelow(Initial(limit, now), es, P.Places(c))
    requires UsedOnce(Initial(limit, now), {}, es) && Run(0, Initial(limit, now), es).connections == map[]
    ensures var s := Initial(limit, now); var r := P.Run(c, R.Initial(c), Output(s, es));
      (forall p :: 0 <= p < c.processors ==> r.status[p] == 0) <==> Settled(s, {}, es)
  {
    hide *;
    InitialRefines(limit, now);
    OnceIsUnanswered(Initial(limit, now), {}, {}, es);
    IdleIffSettled(c, limit, now, es);
  }

  // ---------- Calls of at most two connections ----------

  predicate AnyGone(gone: Gone, session: string) {
    (session, 1) in gone || (session, 2) in gone
  }

  /** No third connection joins a forwarded call. */
  predicate AtMostTwo(s: Source, gone: Gone, es: seq<Event>)
    decreases |es|
  {
    es != [] ==>
      && !ThirdSpeaks(s, gone, es[0])
      && AtMostTwo(Step(0, s, es[0]), GoneAfter(s, gone, es[0]), es[1..])
  }

  predicate ThirdSpeaks(s: Source, gone: Gone, e: Event) {
    && StartsSpeaking(s, e) && s.connections[e.h].session in Forwarding(s)
    && (AnyGone(gone, s.connections[e.h].session) || |s.channels[s.connections[e.h].session]| != 1)
  }

  /** A connection of a forwarded call closes before the other channel of the call has spoken. */
  predicate ClosesEarly(s: Source, gone: Gone, e: Event) {
    && e.Close? && Speaks(s, e.h) && s.connections[e.h].session in Forwarding(s)
    && !AnyGone(gone, s.connections[e.h].session) && |s.channels[s.connections[e.h].session]| != 2
  }

  /** Both channels of every forwarded call speak before either of them closes. */
  predicate BothSpeak(s: Source, gone: Gone, es: seq<Event>)
    decreases |es|
  {
    es != [] ==> !ClosesEarly(s, gone, es[0]) && BothSpeak(Step(0, s, es[0]), GoneAfter(s, gone, es[0]), es[1..])
  }

  /** The speaking channels of one forwarded call of at most two connections. */
  ghost predicate TwoOk(s: Source, gone: Gone, session: string) {
    var speaking := Speaking(s.connections, session);
    session in Forwarding(s) && session in s.channels ==>
      && 1 <= |s.channels[session]| <= 2
      && if AnyGone(gone, session) then
           && |s.channels[session]| == 1
           && forall h | h in speaking :: (session, s.connections[h].channel) !in gone
         else
           && (forall h, k | h in speaking && k in speaking && h != k :: s.connections[h].channel != s.connections[k].channel)
           && (|s.channels[session]| == 1 ==> forall h | h in speaking :: s.connections[h].channel == 1)
  }

  lemma TwoJoined(s: Source, s': Source, gone: Gone, session: string, h: Handle)
    requires Summarises(s, session) && GoneOk(s, gone, session) && TwoOk(s, gone, session) && ChannelsKept(s, s', session)
    requires h in s'.connections && Joined(s, s', session, h)
    requires session in s.channels ==>
      session in Forwarding(s) && !AnyGone(gone, session) && |s.channels[session]| == 1
    ensures TwoOk(s', gone, session)
  {
    hide Size, Forwarding;
  }

  lemma TwoLeft(s: Source, s': Source, gone: Gone, gone': Gone, session: string, h: Handle)
    requires session in Forwarding(s) && TwoOk(s, gone, session) && ChannelsKept(s, s', session)
    requires Left(s, s', session, h)
    requires forall k | k in Speaking(s.connections, session) :: 1 <= s.connections[k].channel <= 2
    requires forall channel :: (session, channel) in gone' <==>
      session in s'.channels && ((session, channel) in gone || channel == s.connections[h].channel)
    ensures TwoOk(s', gone', session)
  {
    hide Size, Forwarding;
  }

  lemma TwoUnchanged(s: Source, s': Source, gone: Gone, gone': Gone, session: string)
    requires session in Forwarding(s) && TwoOk(s, gone, session)
    requires ChannelsKept(s, s', session) && Unchanged(s, s', session)
    requires forall channel :: (session, channel) in gone' <==> (session, channel) in gone
    ensures TwoOk(s', gone', session)
  {
    hide Size, Forwarding;
  }

  /** A call that is forwarded after an event was forwarded before it, or its first connection has just spoken. */
  lemma ForwardedBefore(s: Source, e: Event, session: string)
    requires Refines(s) && FreshOpen(s, e) && session in Forwarding(Step(0, s, e))
    ensures session in Forwarding(s) || (session !in s.channels && SpeechStarts(s, e, session))
  {
    hide Step, Emits, Forwarding, Refines;
    EventTuple(s, e);
  }

  lemma TwoStep(s: Source, gone: Gone, e: Event, session: string)
    requires Refines(s) && FreshOpen(s, e) && GoneOk(s, gone, session) && TwoOk(s, gone, session) && !ThirdSpeaks(s, gone, e)
    ensures TwoOk(Step(0, s, e), GoneAfter(s, gone, e), session)
  {
    hide Size, Step, GoneAfter, Forwarding, GoneOk, TwoOk, Joined, Left, Unchanged, ChannelsKept;
    var s', gone' := Step(0, s, e), GoneAfter(s, gone, e);
    assert Summarises(s, session);
    SpeakersStep(s, e, session);
    SpeakingChannels(s);
    AllGone(s, gone, e);
    hide Refines, Summarises;
    if session in Forwarding(s') {
      ForwardedBefore(s, e, session);
      if SpeechStarts(s, e, session) {
        assert gone' == gone by { NotClosing(s, gone, e); }
        TwoJoined(s, s', gone, session, e.h);
      } else if SpeechEnds(s, e, session) {
        TwoLeft(s, s', gone, gone', session, e.h);
      } else {
        TwoUnchanged(s, s', gone, gone', session);
      }
    } else {
      NotForwardedOk(s', gone', session);
    }
  }

  lemma NotForwardedOk(s: Source, gone: Gone, session: string)
    requires session !in Forwarding(s)
    ensures TwoOk(s, gone, session)
  {
    hide Forwarding;
  }

  /** In a call of at most two connections, only a close before the other channel has spoken leaves it unsettled. */
  lemma UnsettlingIffEarly(s: Source, gone: Gone, e: Event)
    requires Refines(s) && FreshOpen(s, e) && !ThirdSpeaks(s, gone, e)
    requires forall session :: TwoOk(s, gone, session)
    ensures Unsettling(s, gone, e) <==> ClosesEarly(s, gone, e)
    ensures !Surplus(s, gone, e)
  {
    hide Size, Forwarding, Refines;
    SpeakingChannels(s);
    if (e.Binary? || e.Close?) && e.h in s.connections && s.connections[e.h].session in Forwarding(s) {
      var session := s.connections[e.h].session;
      assert TwoOk(s, gone, session);
      ForwardedIsLive(s, session);
      assert s.connections[e.h].packets > 0 ==> e.h in Speaking(s.connections, session);
    }
  }

  lemma {:induction false} SettledIffBothSpeak(s: Source, gone: Gone, es: seq<Event>)
    requires Refines(s) && FreshOpens(s, es) && AtMostTwo(s, gone, es)
    requires forall session :: GoneOk(s, gone, session) && TwoOk(s, gone, session)
    ensures Settled(s, gone, es) <==> BothSpeak(s, gone, es)
    ensures NoSurplus(s, gone, es)
    decreases |es|
  {
    if es != [] {
      var s', gone', e := Step(0, s, es[0]), GoneAfter(s, gone, es[0]), es[0];
      assert FreshOpen(s, e) && FreshOpens(s', es[1..]) && !ThirdSpeaks(s, gone, e) && AtMostTwo(s', gone', es[1..]);
      assert Settled(s, gone, es) <==> !Unsettling(s, gone, e) && Settled(s', gone', es[1..]);
      assert BothSpeak(s, gone, es) <==> !ClosesEarly(s, gone, e) && BothSpeak(s', gone', es[1..]);
      assert NoSurplus(s, gone, es) <==> !Surplus(s, gone, e) && NoSurplus(s', gone', es[1..]);
      hide *;
      StepRefines(s, e);
      UnsettlingIffEarly(s, gone, e);
      forall session ensures GoneOk(s', gone', session) && TwoOk(s', gone', session) {
        GoneStep(s, gone, e, session);
        TwoStep(s, gone, e, session);
      }
      SettledIffBothSpeak(s', gone', es[1..]);
    }
  }

  lemma InitiallyTwo(limit: nat, now: int)
    ensures forall session :: GoneOk(Initial(limit, now), {}, session) && TwoOk(Initial(limit, now), {}, session)
  {
  }

  /** Two-EOCS mode with calls of at most two connections: when both channels of every forwarded call speak before either
      closes, every tuple, the signals included, reaches a processor, and all processors are idle once every connection
      has closed. */
  lemma TwoSignalAdmission(c: R.Config, limit: nat, now: int, es: seq<Event>)
    requires c.eocsNeeded == 2
    requires FreshOpens(Initial(limit, now), es) && LimitsBelow(Initial(limit, now), es, P.Places(c))
    requires AtMostTwo(Initial(limit, now), {}, es) && BothSpeak(Initial(limit, now), {}, es)
    ensures var s := Initial(limit, now); var output := Output(s, es); var r := P.Run(c, R.Initial(c), output);
      && P.AllForwarded(c, R.Initial(c), output)
      && (Run(0, s, es).connections == map[] ==> forall p :: 0 <= p < c.processors ==> r.status[p] == 0)
  {
    hide *;
    InitialRefines(limit, now);
    InitiallyTwo(limit, now);
    SettledIffBothSpeak(Initial(limit, now), {}, es);
    SettledAdmission(c, limit, now, es);
  }

  /** When besides every session id is used once: idle at the end if and only if no connection of a forwarded call
      closed before the other channel had spoken. */
  lemma IdleIffBothSpeak(c: R.Config, limit: nat, now: int, es: seq<Event>)
    requires c.eocsNeeded == 2
    requires FreshOpens(Initial(limit, now), es) && LimitsBelow(Initial(limit, now), es, P.Places(c))
    requires AtMostTwo(Initial(limit, now), {}, es) && UsedOnce(Initial(limit, now), {}, es)
    requires Run(0, Initial(limit, now), es).connections == map[]
    ensures var s := Initial(limit, now); var r := P.Run(c, R.Initial(c), Output(s, es));
      (forall p :: 0 <= p < c.processors ==> r.status[p] == 0) <==> BothSpeak(s, {}, es)
  {
    hide *;
    InitialRefines(limit, now);
    InitiallyTwo(limit, now);
    SettledIffBothSpeak(Initial(limit, now), {}, es);
    IdleIffSettledOnce(c, limit, now, es);
  }

  // ---------- The shortest unsettled run ----------

  function LoneCall(now: int, session: string): seq<Event> {
    [Open(0, now), TextMessage(0, Action("start", Some(session), Some(false)), true), Binary(0, 1), Close(0, now)]
  }

  function LoneTuple(session: string, endOfCall: bool): BinarySpeech {
    if endOfCall then EndOfCall(session, false, 1, 1) else BinarySpeech(session, false, 1, false, 1, 1, 1, 1)
  }

  /** The shortest run that leaves a call unsettled: one connection speaks once and closes. */
  lemma LoneChannelKeepsItsPlace(c: R.Config, limit: nat, now: int, session: string)
    requires c.eocsNeeded == 2 && c.processors > 0 && c.capacity > 0 && limit > 0 && session != ""
    ensures var es := LoneCall(now, session); var s := Initial(limit, now);
      && FreshOpens(s, es) && Run(0, s, es).connections == map[]
      && P.Run(c, R.Initial(c), Output(s, es)).status == R.Initial(c).status[0 := 1]
  {
    var es := LoneCall(now, session);
    var s0 := Initial(limit, now);
    var s1 := Step(0, s0, es[0]);
    var s2 := Step(0, s1, es[1]);
    var s3 := Step(0, s2, es[2]);
    var s4 := Step(0, s3, es[3]);
    LoneSteps(limit, now, session);
    hide Step, Emits;
    Unroll(s0, es);
    Unroll(s1, es[1..]);
    Unroll(s2, es[1..][1..]);
    Unroll(s3, es[1..][1..][1..]);
    hide *;
    assert Output(s0, es) == [LoneTuple(session, false), LoneTuple(session, true)];
    RunOfTwo(c, R.Initial(c), LoneTuple(session, false), LoneTuple(session, true));
    LoneRoute(c, session);
  }

  lemma RunOfTwo(c: R.Config, r: R.Router, t: BinarySpeech, u: BinarySpeech)
    requires R.WellFormed(c, r)
    ensures P.Run(c, r, [t, u]) == P.Next(c, P.Next(c, r, t), u)
  {
    hide P.Next;
    var r1 := P.Next(c, r, t);
    assert P.Run(c, r, [t, u]) == P.Run(c, r1, [u]) by {
      assert [t, u][1..] == [u];
    }
    assert P.Run(c, r1, [u]) == P.Run(c, P.Next(c, r1, u), []);
  }

  lemma Unroll(s: Source, es: seq<Event>)
    requires es != []
    ensures Run(0, s, es) == Run(0, Step(0, s, es[0]), es[1..])
    ensures Output(s, es) == Emits(s, es[0]) + Output(Step(0, s, es[0]), es[1..])
    ensures FreshOpens(s, es) <==> FreshOpen(s, es[0]) && FreshOpens(Step(0, s, es[0]), es[1..])
  {
    hide Step, Emits;
  }

  lemma LoneSteps(limit: nat, now: int, session: string)
    requires limit > 0 && session != ""
    ensures var es := LoneCall(now, session); var s0 := Initial(limit, now);
      var s1 := Step(0, s0, es[0]); var s2 := Step(0, s1, es[1]); var s3 := Step(0, s2, es[2]); var s4 := Step(0, s3, es[3]);
      && s4.connections == map[] && FreshOpen(s0, es[0])
      && Emits(s0, es[0]) == [] && Emits(s1, es[1]) == []
      && Emits(s2, es[2]) == [LoneTuple(session, false)] && Emits(s3, es[3]) == [LoneTuple(session, true)]
  {
    var es := LoneCall(now, session);
    var s1 := Step(0, Initial(limit, now), es[0]);
    var s2 := Step(0, s1, es[1]);
    var s3 := Step(0, s2, es[2]);
    assert s2.connections == map[0 := Connection(Started, now, 0, 0, session, false, 0)];
    assert s3.connections == map[0 := Connection(Started, now, 1, 1, session, false, 1)];
  }

  lemma LoneRoute(c: R.Config, session: string)
    requires c.eocsNeeded == 2 && c.processors > 0 && c.capacity > 0
    ensures var r1 := P.Next(c, R.Initial(c), LoneTuple(session, false));
      P.Next(c, r1, LoneTuple(session, true)).status == R.Initial(c).status[0 := 1]
  {
    KeyInjective(session, 1, session, 2);
    var r0 := R.Initial(c);
    assert R.FirstFree(c.capacity, r0.status, -1, 0) by {
      assert 0 == R.Slot(R.Cursor(-1, |r0.status|), 0, |r0.status|) && R.BusyBefore(c.capacity, r0.status, 0, 0);
    }
    R.ChooseIsFirstFree(c.capacity, r0.status, -1, 0);
  }
}
