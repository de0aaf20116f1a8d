/** With the purge off, the source's maps summarise the open connections exactly. */
module GatewayRefinement {
  import opened Sets
  import opened GatewaySource
  import opened GatewayProperties

  /** The open connections of a session that have delivered a non-empty packet. */
  function Speaking(connections: map<Handle, Connection>, session: string): set<Handle> {
    set h | h in connections && connections[h].session == session && connections[h].packets > 0
  }

  predicate ConnectionOk(c: Connection) {
    && (if c.packets == 0 then c.channel == 0 && c.bytes == 0 else c.status == Started && (c.channel == 1 || c.channel == 2))
  }

  /** The entry of a session exists exactly while a connection speaks for it, and has one start time for each. */
  ghost predicate Summarises(s: Source, session: string) {
    && (session in s.channels <==> Speaking(s.connections, session) != {})
    && (session in s.channels ==> |s.channels[session]| == Size(Speaking(s.connections, session)))
  }

  ghost predicate OneFirstChannel(connections: map<Handle, Connection>) {
    forall h, k | h in connections && k in connections && connections[h].session == connections[k].session ::
      connections[h].channel == 1 && connections[k].channel == 1 ==> h == k
  }

  /** Live calls carry distinct numbers, and every number given out belongs to a live or a completed call. */
  ghost predicate Numbered(s: Source) {
    && s.numbers.Keys == s.channels.Keys
    && s.processed >= 0 && s.counter == s.processed + Size(s.channels.Keys)
    && (forall a :: a in s.numbers ==> 1 <= s.numbers[a] <= s.counter)
    && (forall a, b :: a in s.numbers && b in s.numbers && s.numbers[a] == s.numbers[b] ==> a == b)
  }

  ghost predicate Refines(s: Source) {
    && Accounted(s)
    && Numbered(s)
    && (forall h :: h in s.connections ==> ConnectionOk(s.connections[h]))
    && (forall session :: Summarises(s, session))
    && OneFirstChannel(s.connections)
  }

  /** The WebSocket library opens a handle once, so an opened handle is not yet in the map. */
  predicate FreshOpen(s: Source, e: Event) {
    e.Open? ==> e.h !in s.connections
  }

  predicate FreshOpens(s: Source, es: seq<Event>)
    decreases |es|
  {
    es != [] ==> FreshOpen(s, es[0]) && FreshOpens(Step(0, s, es[0]), es[1..])
  }

  lemma InitialRefines(limit: nat, now: int)
    ensures Refines(Initial(limit, now))
  {
  }

  /** A connection that is silent before and after an update counts for nobody. */
  lemma SilentUpdate(connections: map<Handle, Connection>, h: Handle, c: Connection, session: string)
    requires (h in connections ==> connections[h].packets == 0) && c.packets == 0
    ensures Speaking(connections[h := c], session) == Speaking(connections, session)
  {
  }

  lemma OpenRefines(s: Source, h: Handle, now: int)
    requires Refines(s) && h !in s.connections
    ensures Refines(AfterOpen(s, h, now))
  {
    hide Size;
    var s' := AfterOpen(s, h, now);
    forall session ensures Summarises(s', session) {
      SilentUpdate(s.connections, h, s'.connections[h], session);
      assert Summarises(s, session);
    }
  }

  lemma TextRefines(s: Source, h: Handle, text: GatewaySource.Text, acknowledged: bool)
    requires Refines(s)
    ensures Refines(AfterText(s, h, text, acknowledged))
  {
    hide Size;
    var s' := AfterText(s, h, text, acknowledged);
    if s' != s {
      assert ConnectionOk(s.connections[h]);
      forall session ensures Summarises(s', session) {
        SilentUpdate(s.connections, h, s'.connections[h], session);
        assert Summarises(s, session);
      }
    }
  }

  /** A further packet of a speaking connection changes no summary. */
  lemma LaterPacketRefines(s: Source, h: Handle, size: nat)
    requires Refines(s) && h in s.connections && s.connections[h].packets > 0 && size > 0
    ensures Refines(AfterBinary(s, h, size).0)
    ensures var s' := AfterBinary(s, h, size).0;
      s' == s.(connections := s.connections[h := s.connections[h].(packets := s.connections[h].packets + 1,
                                                                   bytes := s.connections[h].bytes + size)])
  {
    hide Size;
    var c := s.connections[h];
    var s' := AfterBinary(s, h, size).0;
    assert ConnectionOk(c);
    assert h in Speaking(s.connections, c.session);
    assert Summarises(s, c.session);
    assert s'.numbers == s.numbers;
    forall session ensures Summarises(s', session) {
      assert Speaking(s'.connections, session) == Speaking(s.connections, session);
      assert Summarises(s, session);
    }
  }

  lemma NewSpeaker(connections: map<Handle, Connection>, h: Handle, c: Connection, session: string)
    requires h in connections && connections[h].packets == 0 && c.packets > 0
    ensures Speaking(connections[h := c], session) ==
            if session == c.session then Speaking(connections, session) + {h} else Speaking(connections, session)
    ensures h !in Speaking(connections, session)
  {
  }

  lemma NewCallNumbered(s: Source, session: string, startTime: int)
    requires Numbered(s) && session !in s.channels
    ensures Numbered(NewCall(s, session, startTime))
  {
    hide Size;
    var s' := NewCall(s, session, startTime);
    assert s'.channels.Keys == s.channels.Keys + {session};
    assert s'.numbers.Keys == s.numbers.Keys + {session};
    AddOne(s.channels.Keys, session);
  }

  /** The connection after its first packet: channel 1 only in a call without an entry. */
  function Spoken(s: Source, c: Connection, size: nat): Connection {
    c.(packets := 1, bytes := c.bytes + size, channel := if c.session in s.channels then 2 else 1)
  }

  lemma FirstPacketShape(s: Source, h: Handle, size: nat)
    requires h in s.connections && s.connections[h].packets == 0 && size > 0 && s.connections[h].status == Started
    requires s.channels.Keys <= s.numbers.Keys
    ensures var c := s.connections[h];
      AfterBinary(s, h, size).0 ==
      AfterFirstPacket(s, c.session, c.startTime).(connections := s.connections[h := Spoken(s, c, size)])
  {
    hide Size;
    var c := s.connections[h];
    var s1 := AfterFirstPacket(s, c.session, c.startTime);
    assert Touched(s1.numbers, c.session) == s1.numbers;
  }

  lemma FirstPacketNumbered(s: Source, session: string, startTime: int)
    requires Numbered(s)
    ensures Numbered(AfterFirstPacket(s, session, startTime))
  {
    hide Size;
    if session !in s.channels {
      NewCallNumbered(s, session, startTime);
    } else {
      assert AfterFirstPacket(s, session, startTime).channels.Keys == s.channels.Keys;
    }
  }

  lemma FirstPacketSummary(s: Source, h: Handle, c': Connection, s': Source, session: string)
    requires h in s.connections && s.connections[h].packets == 0 && c'.packets > 0
    requires Summarises(s, c'.session) && Summarises(s, session)
    requires s'.connections == s.connections[h := c']
    requires s'.channels == s.channels[c'.session :=
      if c'.session in s.channels then s.channels[c'.session] + [c'.startTime] else [c'.startTime]]
    ensures Summarises(s', session)
  {
    hide Size;
    NewSpeaker(s.connections, h, c', session);
    AddOne(Speaking(s.connections, session), h);
    EmptySize(Speaking(s.connections, session));
  }

  lemma FirstPacketChannels(s: Source, h: Handle, size: nat)
    requires Refines(s) && h in s.connections && s.connections[h].packets == 0
    ensures OneFirstChannel(s.connections[h := Spoken(s, s.connections[h], size)])
  {
    hide Size;
    var c := s.connections[h];
    assert Summarises(s, c.session);
    forall k | k in s.connections && s.connections[k].session == c.session && s.connections[k].channel == 1
      ensures c.session in s.channels
    {
      assert ConnectionOk(s.connections[k]);
      assert k in Speaking(s.connections, c.session);
    }
  }

  /** The first packet of a connection adds one speaker to its call, and numbers the call if it is new. */
  lemma FirstPacketRefines(s: Source, h: Handle, size: nat)
    requires Refines(s) && h in s.connections && s.connections[h].packets == 0 && size > 0
    requires s.connections[h].status == Started
    ensures Refines(AfterBinary(s, h, size).0)
  {
    hide Size;
    var c := s.connections[h];
    var s1, c', s' := AfterFirstPacket(s, c.session, c.startTime), Spoken(s, c, size), AfterBinary(s, h, size).0;
    FirstPacketShape(s, h, size);
    StepAccounted(0, s, Binary(h, size));
    FirstPacketNumbered(s, c.session, c.startTime);
    FirstPacketChannels(s, h, size);
    forall session ensures Summarises(s', session) {
      assert Summarises(s, session) && Summarises(s, c'.session);
      hide Summarises;
      FirstPacketSummary(s, h, c', s', session);
    }
    assert ConnectionOk(c');
    assert Numbered(s');
    hide Accounted, Numbered, AfterFirstPacket, Summarises, AfterBinary, OneFirstChannel;
  }

  lemma LostSpeaker(connections: map<Handle, Connection>, h: Handle, session: string)
    requires h in connections
    ensures Speaking(connections - {h}, session) ==
            if session == connections[h].session && connections[h].packets > 0 then Speaking(connections, session) - {h}
            else Speaking(connections, session)
  {
  }

  lemma CallEndedNumbered(s: Source, session: string)
    requires Numbered(s) && session in s.channels
    ensures Numbered(CallEnded(s, session))
  {
    hide Size;
    var e := CallEnded(s, session);
    assert e.channels.Keys == s.channels.Keys - {session};
    assert e.numbers.Keys == s.numbers.Keys - {session};
    RemoveOne(s.channels.Keys, session);
  }

  lemma CloseRefines(s: Source, h: Handle, now: int)
    requires Refines(s)
    ensures Refines(AfterClose(s, h, now, 0))
  {
    hide Size;
    if h in s.connections {
      var c := s.connections[h];
      var s1 := BeforePurge(s, h).0;
      var s' := AfterClose(s, h, now, 0);
      CloseStep(0, s, h, now);
      assert ConnectionOk(c);
      assert s' == s1.(connections := s.connections - {h});
      assert Summarises(s, c.session);
      if c.packets > 0 {
        assert h in Speaking(s.connections, c.session);
        if |s.channels[c.session]| <= 1 {
          CallEndedNumbered(s, c.session);
        } else {
          assert s1.channels.Keys == s.channels.Keys;
        }
      }
      forall session ensures Summarises(s', session) {
        LostSpeaker(s.connections, h, session);
        RemoveOne(Speaking(s.connections, session), h);
        EmptySize(Speaking(s'.connections, session));
        assert Summarises(s, session);
      }
    }
  }

  lemma StepRefines(s: Source, e: Event)
    requires Refines(s) && FreshOpen(s, e)
    ensures Refines(Step(0, s, e))
  {
    hide Size;
    match e
    case Open(h, now) => OpenRefines(s, h, now);
    case TextMessage(h, text, acknowledged) => TextRefines(s, h, text, acknowledged);
    case Binary(h, size) =>
      if h in s.connections && size > 0 && s.connections[h].status == Started {
        if s.connections[h].packets > 0 {
          LaterPacketRefines(s, h, size);
        } else {
          FirstPacketRefines(s, h, size);
        }
      }
    case Close(h, now) => CloseRefines(s, h, now);
    case SetLimit(value) =>
      var s' := AfterSetLimit(s, value);
      assert forall session :: Summarises(s, session) ==> Summarises(s', session);
  }

  lemma {:induction false} RunRefines(s: Source, es: seq<Event>)
    requires Refines(s) && FreshOpens(s, es)
    ensures Refines(Run(0, s, es))
    decreases |es|
  {
    hide Size;
    if es != [] {
      StepRefines(s, es[0]);
      hide Refines, Step;
      RunRefines(Step(0, s, es[0]), es[1..]);
    }
  }

  /** In every reachable state: the lists count the speaking connections, the two maps have one domain, a call has
      at most one channel 1, and the sequence counter is the number of completed plus live calls. */
  lemma ReachableSummary(limit: nat, now: int, es: seq<Event>, session: string)
    requires FreshOpens(Initial(limit, now), es)
    ensures var s := Run(0, Initial(limit, now), es); var speaking := Speaking(s.connections, session);
      && (session in s.channels <==> speaking != {})
      && (session in s.channels ==> |s.channels[session]| == Size(speaking))
      && s.numbers.Keys == s.channels.Keys
      && (forall h, k :: h in speaking && k in speaking && s.connections[h].channel == 1 == s.connections[k].channel ==> h == k)
      && s.counter == s.processed + Size(s.channels.Keys)
      && (forall a, b :: a in s.numbers && b in s.numbers && a != b ==> s.numbers[a] != s.numbers[b])
  {
    InitialRefines(limit, now);
    RunRefines(Initial(limit, now), es);
    assert Summarises(Run(0, Initial(limit, now), es), session);
  }
}
