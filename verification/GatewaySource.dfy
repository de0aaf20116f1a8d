/** The IBMVoiceGatewaySource operator: connections, call admission, throttling and the emitted stream. */
module GatewaySource {
  import opened Wrappers
  import opened Sets
  import opened SpeechStream

  type Handle = nat

  /** VGW_OPENED_A_WS_CONNECTION and VGW_STARTED_AN_STT_SESSION. */
  datatype Status = Opened | Started

  /** connection_metadata, without the fields that are only copied into output attributes. */
  datatype Connection = Connection(
    status: Status, startTime: int, packets: nat, bytes: nat, session: string, isCaller: bool, channel: int)

  /** A text message after JSON parsing: absent members are None. */
  datatype Text = NotJson | NoAction | Action(action: string, session: Option<string>, isCaller: Option<bool>)

  datatype Event =
    | Open(h: Handle, now: int)
    | TextMessage(h: Handle, text: Text, acknowledged: bool)
    | Binary(h: Handle, size: nat)
    | Close(h: Handle, now: int)
    | SetLimit(value: int)

  datatype Source = Source(
    connections: map<Handle, Connection>,
    channels: map<string, seq<int>>,  // vgw_session_id_map: start times of the speaking channels of each call
    numbers: map<string, int>,        // call_sequence_number_map
    throttled: set<string>,           // keys of callsBeingThrottledMap
    active: int, peak: int, limit: int, counter: int,
    processed: int, lastPurge: int)

  function Initial(limit: nat, now: int): Source {
    Source(map[], map[], map[], {}, 0, 0, limit, 0, 0, now)
  }

  // ---------- The handlers as functions of the state ----------

  function AfterOpen(s: Source, h: Handle, now: int): Source {
    s.(connections := s.connections[h := Connection(Opened, now, 0, 0, "", false, 0)])
  }

  /** Only a complete and acknowledged start message on a newly opened connection has an effect. */
  function AfterText(s: Source, h: Handle, text: Text, acknowledged: bool): Source {
    if h in s.connections && s.connections[h].status == Opened && acknowledged
       && text.Action? && text.action == "start" && text.session.Some? && text.session.value != "" && text.isCaller.Some?
    then
      var connection := s.connections[h].(status := Started, session := text.session.value, isCaller := text.isCaller.value);
      s.(connections := s.connections[h := connection])
    else s
  }

  /** The first packet of a new call: number it, then admit or throttle it. */
  function NewCall(s: Source, session: string, startTime: int): Source {
    Admit(s, session).(channels := s.channels[session := [startTime]],
                       counter := s.counter + 1,
                       numbers := s.numbers[session := s.counter + 1])
  }

  function Admit(s: Source, session: string): Source {
    if s.active >= s.limit then
      s.(throttled := s.throttled + {session}, peak := Max(s.peak, s.limit + Size(s.throttled + {session})))
    else
      s.(active := s.active + 1, peak := Max(s.peak, s.active + 1))
  }

  function AfterFirstPacket(s: Source, session: string, startTime: int): Source {
    if session !in s.channels then NewCall(s, session, startTime)
    else s.(channels := s.channels[session := s.channels[session] + [startTime]])
  }

  function Max(a: int, b: int): int {
    if a < b then b else a
  }

  /** Reading through operator[] inserts a zero for an absent key. */
  function Touched(numbers: map<string, int>, session: string): map<string, int> {
    if session in numbers then numbers else numbers[session := 0]
  }

  function SpeechTuple(s: Source, connection: Connection, size: nat): BinarySpeech {
    BinarySpeech(connection.session, connection.isCaller, connection.channel, false, size,
                 connection.packets, connection.bytes,
                 if connection.session in s.numbers then s.numbers[connection.session] else 0)
  }

  function EndOfCall(session: string, isCaller: bool, channel: int, number: int): BinarySpeech {
    BinarySpeech(session, isCaller, channel, true, 0, 0, 0, number)
  }

  /** The state after a packet and what is submitted for it. */
  function AfterBinary(s: Source, h: Handle, size: nat): (Source, seq<BinarySpeech>) {
    if h !in s.connections then (s, [])
    else if size == 0 then (s, [])
    else if s.connections[h].status != Started then (s, [])
    else
      var c := s.connections[h].(packets := s.connections[h].packets + 1, bytes := s.connections[h].bytes + size);
      var s1 := if c.packets != 1 then s else AfterFirstPacket(s, c.session, c.startTime);
      var c1 := if c.packets != 1 then c else c.(channel := if c.session !in s.channels then 1 else 2);
      var s2 := s1.(connections := s.connections[h := c1], numbers := Touched(s1.numbers, c.session));
      (s2, if c.session in s1.throttled then [] else [SpeechTuple(s2, c1, size)])
  }

  /** The last speaking channel of a call has closed. */
  function CallEnded(s: Source, session: string): Source {
    s.(channels := s.channels - {session},
       numbers := s.numbers - {session},
       active := if session in s.throttled then s.active else s.active - 1,
       throttled := s.throttled - {session},
       processed := s.processed + 1)
  }

  /** on_close before the purge: one EOCS per speaking channel of a call that is not throttled. */
  function BeforePurge(s: Source, h: Handle): (Source, seq<BinarySpeech>)
    requires h in s.connections
  {
    var c := s.connections[h];
    if !(c.session in s.channels && c.session in s.numbers && c.channel > 0) then (s, [])
    else
      (if |s.channels[c.session]| <= 1 then CallEnded(s, c.session)
       else s.(channels := s.channels[c.session := s.channels[c.session][..|s.channels[c.session]| - 1]]),
       if c.session in s.throttled then []
       else [EndOfCall(c.session, c.isCaller, c.channel, s.numbers[c.session])])
  }

  /** The sessions with a channel that started at least `interval` seconds ago. */
  function StaleSessions(channels: map<string, seq<int>>, now: int, interval: int): set<string> {
    set session | session in channels && exists i :: 0 <= i < |channels[session]| && now - channels[session][i] >= interval
  }

  function StaleConnections(connections: map<Handle, Connection>, now: int, interval: int): set<Handle> {
    set h | h in connections && now - connections[h].startTime > interval
  }

  /** Reading the numbers of these sessions inserts a zero where none is stored. */
  function Reborn(numbers: map<string, int>, sessions: set<string>): map<string, int> {
    map session | session in numbers.Keys + sessions :: if session in numbers then numbers[session] else 0
  }

  function WithoutSessions(s: Source, gone: set<string>): Source {
    s.(channels := s.channels - gone,
       numbers := Reborn(s.numbers - gone, gone - s.throttled),
       throttled := s.throttled - gone,
       active := s.active - Size(gone - s.throttled))
  }

  function WithoutStaleSessions(s: Source, now: int, interval: int): Source {
    WithoutSessions(s, StaleSessions(s.channels, now, interval))
  }

  function SessionsOf(s: Source, handles: set<Handle>): set<string> {
    set h | h in handles && h in s.connections :: s.connections[h].session
  }

  function WithoutStaleConnections(s: Source, now: int, interval: int): Source {
    s.(connections := s.connections - StaleConnections(s.connections, now, interval),
       numbers := Reborn(s.numbers, SessionsOf(s, Signalled(s, StaleConnections(s.connections, now, interval)))))
  }

  /** The stale sessions are erased first; numbers read afterwards come back as 0. */
  function Purged(s: Source, now: int, interval: int): Source {
    WithoutStaleConnections(WithoutStaleSessions(s, now, interval), now, interval).(lastPurge := now)
  }

  lemma RebornTouched(numbers: map<string, int>, sessions: set<string>, session: string)
    ensures Touched(Reborn(numbers, sessions), session) == Reborn(numbers, sessions + {session})
  {
  }

  lemma NoneForgotten(s: Source)
    ensures WithoutSessions(s, {}) == s
  {
    MinusNothing(s.channels);
    MinusNothing(s.numbers);
    RebornNothing(s.numbers);
    assert s.throttled - {} == s.throttled && {} - s.throttled == {};
    EmptySize({} - s.throttled);
    hide Reborn, Size;
  }

  lemma MinusNothing<K, V>(m: map<K, V>)
    ensures m - {} == m
  {
  }

  lemma RebornNothing(numbers: map<string, int>)
    ensures Reborn(numbers, {}) == numbers
  {
  }

  /** One round of the loop over the stale sessions. */
  function WithoutSession(w: Source, session: string): Source {
    w.(channels := w.channels - {session},
       numbers := if session in w.throttled then w.numbers - {session} else (w.numbers - {session})[session := 0],
       throttled := w.throttled - {session},
       active := if session in w.throttled then w.active else w.active - 1)
  }

  lemma RebornOneMore(numbers: map<string, int>, gone: set<string>, throttled: set<string>, session: string)
    requires session !in gone
    ensures Reborn(numbers - (gone + {session}), gone + {session} - throttled) ==
      var m := Reborn(numbers - gone, gone - throttled);
      if session in throttled then m - {session} else (m - {session})[session := 0]
  {
    var m := Reborn(numbers - gone, gone - throttled);
    var l := Reborn(numbers - (gone + {session}), gone + {session} - throttled);
    var r := if session in throttled then m - {session} else (m - {session})[session := 0];
    assert l.Keys == r.Keys;
  }

  lemma MinusOneMore<K, V>(m: map<K, V>, gone: set<K>, x: K)
    ensures m - (gone + {x}) == m - gone - {x}
  {
  }

  lemma ForgetOneMore(s: Source, gone: set<string>, session: string)
    requires session !in gone
    ensures WithoutSessions(s, gone + {session}) == WithoutSession(WithoutSessions(s, gone), session)
  {
    RebornOneMore(s.numbers, gone, s.throttled, session);
    MinusOneMore(s.channels, gone, session);
    SetMinusOneMore(s.throttled, gone, session);
    UnthrottledOneMore(gone, s.throttled, session);
    hide Size, Reborn;
  }

  lemma SetMinusOneMore<T>(a: set<T>, gone: set<T>, x: T)
    ensures a - (gone + {x}) == a - gone - {x}
  {
  }

  lemma UnthrottledOneMore(gone: set<string>, throttled: set<string>, session: string)
    requires session !in gone
    ensures if session in throttled then gone + {session} - throttled == gone - throttled
            else gone + {session} - throttled == gone - throttled + {session}
                 && Size(gone + {session} - throttled) == Size(gone - throttled) + 1
  {
    if session !in throttled {
      assert gone + {session} - throttled == gone - throttled + {session};
    }
  }

  predicate PurgeDue(s: Source, now: int, interval: int) {
    interval > 0 && now - s.lastPurge >= interval
  }

  function AfterPurge(s: Source, now: int, interval: int): Source {
    if PurgeDue(s, now, interval) then Purged(s, now, interval) else s
  }

  function AfterClose(s: Source, h: Handle, now: int, interval: int): Source {
    if h !in s.connections then s
    else
      var s1 := AfterPurge(BeforePurge(s, h).0, now, interval);
      s1.(connections := s1.connections - {h})
  }

  /** The HTTP command SetMaxConcurrentCalls; a negative value is rejected. */
  function AfterSetLimit(s: Source, value: int): Source {
    if value < 0 then s else s.(limit := value)
  }

  /** One event; `interval` is vgwStaleSessionPurgeInterval, 0 when purging is off. */
  function Step(interval: int, s: Source, e: Event): Source {
    match e
    case Open(h, now) => AfterOpen(s, h, now)
    case TextMessage(h, text, acknowledged) => AfterText(s, h, text, acknowledged)
    case Binary(h, size) => AfterBinary(s, h, size).0
    case Close(h, now) => AfterClose(s, h, now, interval)
    case SetLimit(value) => AfterSetLimit(s, value)
  }

  /** What the event submits when no purge is due. */
  function Emits(s: Source, e: Event): seq<BinarySpeech> {
    match e
    case Binary(h, size) => AfterBinary(s, h, size).1
    case Close(h, _) => if h in s.connections then BeforePurge(s, h).1 else []
    case _ => []
  }

  /** A sequence number as operator[] reads it. */
  function NumberOf(numbers: map<string, int>, session: string): int {
    if session in numbers then numbers[session] else 0
  }

  /** Signals of the first half of a purge, for the erased sessions in their order: none for throttled calls. */
  function SessionSignals(order: seq<string>, throttled: set<string>): seq<BinarySpeech> {
    if order == [] then []
    else
      var session := order[|order| - 1];
      SessionSignals(order[..|order| - 1], throttled)
      + if session in throttled then [] else [EndOfCall(session, false, 1, 0), EndOfCall(session, true, 2, 0)]
  }

  /** Signals of the second half, for the stale connections in their order. */
  function ConnectionSignals(s: Source, order: seq<Handle>): seq<BinarySpeech>
    requires Elements(order) <= s.connections.Keys
  {
    if order == [] then []
    else
      LastElement(order);
      var c := s.connections[order[|order| - 1]];
      ConnectionSignals(s, order[..|order| - 1])
      + if c.session in s.throttled then []
        else [EndOfCall(c.session, c.isCaller, c.channel, NumberOf(s.numbers, c.session))]
  }

  lemma StaleAreOpen(connections: map<Handle, Connection>, now: int, interval: int)
    ensures StaleConnections(connections, now, interval) <= connections.Keys
  {
  }

  /** The two stale lists in some order, and the signals for them. */
  ghost predicate InOrder(s: Source, now: int, interval: int, sessions: seq<string>, handles: seq<Handle>,
                          purge: seq<BinarySpeech>) {
    && IsTraversal(sessions, StaleSessions(s.channels, now, interval))
    && IsTraversal(handles, StaleConnections(s.connections, now, interval))
    && Elements(handles) <= s.connections.Keys
    && purge == SessionSignals(sessions, s.throttled) + ConnectionSignals(WithoutStaleSessions(s, now, interval), handles)
  }

  /** What a purge submits if one is due. */
  ghost predicate PurgeSubmits(s: Source, now: int, interval: int, purge: seq<BinarySpeech>) {
    if PurgeDue(s, now, interval) then exists sessions, handles :: InOrder(s, now, interval, sessions, handles, purge)
    else purge == []
  }

  function ForgetAll(s: Source, order: seq<string>): Source {
    if order == [] then s else WithoutSession(ForgetAll(s, order[..|order| - 1]), order[|order| - 1])
  }

  function Elements<T>(order: seq<T>): set<T> {
    set x | x in order
  }

  lemma LastElement<T>(order: seq<T>)
    requires |order| > 0
    ensures Elements(order) == Elements(order[..|order| - 1]) + {order[|order| - 1]}
  {
    assert order == order[..|order| - 1] + [order[|order| - 1]];
  }

  ghost predicate IsTraversal<T>(order: seq<T>, elements: set<T>) {
    Elements(order) == elements && forall i, j :: 0 <= i < j < |order| ==> order[i] != order[j]
  }

  lemma ForgetLast(s: Source, before: set<string>, last: string, w: Source, all: set<string>)
    requires last !in before && all == before + {last} && w == WithoutSessions(s, before)
    ensures WithoutSession(w, last) == WithoutSessions(s, all)
  {
    ForgetOneMore(s, before, last);
  }

  lemma {:induction false} ForgetAllAtOnce(s: Source, order: seq<string>, all: set<string>)
    requires IsTraversal(order, all)
    ensures ForgetAll(s, order) == WithoutSessions(s, all)
  {
    if order == [] {
      assert all == {};
      NoneForgotten(s);
    } else {
      var front, last := order[..|order| - 1], order[|order| - 1];
      LastElement(order);
      ForgetAllAtOnce(s, front, Elements(front));
      ForgetLast(s, Elements(front), last, ForgetAll(s, front), all);
    }
  }

  lemma {:induction false} OthersStayThrottled(s: Source, order: seq<string>, session: string)
    requires session !in order
    ensures session in ForgetAll(s, order).throttled <==> session in s.throttled
  {
    if order != [] {
      OthersStayThrottled(s, order[..|order| - 1], session);
    }
  }

  /** Of these connections, those of calls that are not throttled. */
  function Signalled(s: Source, handles: set<Handle>): set<Handle> {
    set h | h in handles && h in s.connections && s.connections[h].session !in s.throttled
  }

  lemma SignalOneMore(s: Source, handles: set<Handle>, h: Handle)
    requires h in s.connections
    ensures Reborn(s.numbers, SessionsOf(s, Signalled(s, handles + {h}))) ==
      var m := Reborn(s.numbers, SessionsOf(s, Signalled(s, handles)));
      if s.connections[h].session in s.throttled then m else Touched(m, s.connections[h].session)
  {
    var session := s.connections[h].session;
    if session in s.throttled {
      assert Signalled(s, handles + {h}) == Signalled(s, handles);
    } else {
      assert Signalled(s, handles + {h}) == Signalled(s, handles) + {h};
      assert SessionsOf(s, Signalled(s, handles) + {h}) == SessionsOf(s, Signalled(s, handles)) + {session};
      RebornTouched(s.numbers, SessionsOf(s, Signalled(s, handles)), session);
    }
  }

  /** The numbers after the signals of these connections have read them. */
  function TouchAll(s: Source, order: seq<Handle>): map<string, int>
    requires Elements(order) <= s.connections.Keys
  {
    if order == [] then s.numbers
    else
      LastElement(order);
      var session := s.connections[order[|order| - 1]].session;
      var numbers := TouchAll(s, order[..|order| - 1]);
      if session in s.throttled then numbers else Touched(numbers, session)
  }

  lemma {:induction false} TouchAllAtOnce(s: Source, order: seq<Handle>)
    requires Elements(order) <= s.connections.Keys
    ensures TouchAll(s, order) == Reborn(s.numbers, SessionsOf(s, Signalled(s, Elements(order))))
  {
    if order != [] {
      LastElement(order);
      TouchAllAtOnce(s, order[..|order| - 1]);
      SignalOneMore(s, Elements(order[..|order| - 1]), order[|order| - 1]);
    }
  }

  lemma {:induction false} TouchAllKeepsNumbers(s: Source, order: seq<Handle>, session: string)
    requires Elements(order) <= s.connections.Keys
    ensures NumberOf(TouchAll(s, order), session) == NumberOf(s.numbers, session)
  {
    if order != [] {
      LastElement(order);
      TouchAllKeepsNumbers(s, order[..|order| - 1], session);
    }
  }

  // ---------- The operator ----------

  /** A call has an entry only while a channel speaks in it. */
  ghost predicate NoEmptyList(s: Source) {
    forall session :: session in s.channels ==> |s.channels[session]| > 0
  }

  /** Every event keeps that, a purge included. */
  lemma ListsStayFilled(interval: int, s: Source, e: Event)
    requires NoEmptyList(s)
    ensures NoEmptyList(Step(interval, s, e))
  {
    hide Size, Reborn, StaleSessions, StaleConnections;
  }

  class IBMVoiceGatewaySource {
    const vgwStaleSessionPurgeInterval: int
    var clientConnectionsMap: map<Handle, Connection>
    var vgwSessionIdMap: map<string, seq<int>>
    var callSequenceNumberMap: map<string, int>
    var callsBeingThrottled: set<string>
    var activeConcurrentCallsCnt: int
    var peakConcurrentCallsCnt: int
    var maxConcurrentCallsAllowed: int
    var callSequenceNumber: int
    var nVoiceCallsProcessed: int
    var timeOfPreviousStaleSessionRemoval: int
    var submitted: seq<BinarySpeech>

    function State(): Source
      reads this
    {
      Source(clientConnectionsMap, vgwSessionIdMap, callSequenceNumberMap, callsBeingThrottled,
             activeConcurrentCallsCnt, peakConcurrentCallsCnt, maxConcurrentCallsAllowed, callSequenceNumber,
             nVoiceCallsProcessed, timeOfPreviousStaleSessionRemoval)
    }

    ghost predicate Valid()
      reads this
    {
      NoEmptyList(State())
    }

    constructor (limit: nat, now: int, interval: int)
      ensures Valid()
      ensures State() == Initial(limit, now) && submitted == [] && vgwStaleSessionPurgeInterval == interval
    {
      vgwStaleSessionPurgeInterval := interval;
      clientConnectionsMap, vgwSessionIdMap, callSequenceNumberMap, callsBeingThrottled := map[], map[], map[], {};
      activeConcurrentCallsCnt, peakConcurrentCallsCnt, maxConcurrentCallsAllowed := 0, 0, limit;
      callSequenceNumber, nVoiceCallsProcessed, timeOfPreviousStaleSessionRemoval := 0, 0, now;
      submitted := [];
    }

    method OnOpen(h: Handle, now: int)
      requires Valid()
      modifies this
      ensures Valid() && State() == AfterOpen(old(State()), h, now) && submitted == old(submitted)
    {
      ListsStayFilled(vgwStaleSessionPurgeInterval, State(), Open(h, now));
      var conMetadata := Connection(Opened, now, 0, 0, "", false, 0);
      clientConnectionsMap := clientConnectionsMap[h := conMetadata];
    }

    method OnText(h: Handle, text: Text, acknowledged: bool)
      requires Valid()
      modifies this
      ensures Valid() && State() == AfterText(old(State()), h, text, acknowledged) && submitted == old(submitted)
    {
      ListsStayFilled(vgwStaleSessionPurgeInterval, State(), TextMessage(h, text, acknowledged));
      if h !in clientConnectionsMap || text.NotJson? || text.NoAction? {
        return;
      }
      var conMetadata := clientConnectionsMap[h];
      if conMetadata.status == Opened {
        if text.action == "start" {
          if text.session == None || text.session.value == "" || text.isCaller == None {
            return;
          }
          conMetadata := conMetadata.(session := text.session.value);
          conMetadata := conMetadata.(isCaller := text.isCaller.value);
          if !acknowledged {
            return;
          }
          conMetadata := conMetadata.(status := Started);
          clientConnectionsMap := clientConnectionsMap[h := conMetadata];
        }
      }
    }

    method OnBinary(h: Handle, payloadSize: nat)
      requires Valid()
      modifies this
      ensures Valid() && State() == AfterBinary(old(State()), h, payloadSize).0
      ensures submitted == old(submitted) + Emits(old(State()), Binary(h, payloadSize))
    {
      ListsStayFilled(vgwStaleSessionPurgeInterval, State(), Binary(h, payloadSize));
      hide NoEmptyList;
      if h !in clientConnectionsMap {
        return;
      }
      var conMetadata := clientConnectionsMap[h];
      if payloadSize <= 0 {
        return;
      }
      if conMetadata.status == Started {
        conMetadata := conMetadata.(packets := conMetadata.packets + 1);
        conMetadata := conMetadata.(bytes := conMetadata.bytes + payloadSize);
        if conMetadata.packets == 1 {
          var channel := FirstPacket(conMetadata.session, conMetadata.startTime);
          conMetadata := conMetadata.(channel := channel);
        }
        clientConnectionsMap := clientConnectionsMap[h := conMetadata];
        callSequenceNumberMap := Touched(callSequenceNumberMap, conMetadata.session);
        var oTuple := BinarySpeech(conMetadata.session, conMetadata.isCaller, conMetadata.channel, false, payloadSize,
                                   conMetadata.packets, conMetadata.bytes, callSequenceNumberMap[conMetadata.session]);
        if conMetadata.session !in callsBeingThrottled {
          submitted := submitted + [oTuple];
        }
      }
    }

    /** The part of on_message that runs for the very first packet of a connection. */
    method FirstPacket(session: string, startTime: int) returns (channel: int)
      modifies this
      ensures State() == AfterFirstPacket(old(State()), session, startTime)
      ensures channel == if session in old(vgwSessionIdMap) then 2 else 1
      ensures submitted == old(submitted)
    {
      if session !in vgwSessionIdMap {
        vgwSessionIdMap := vgwSessionIdMap[session := [startTime]];
        callSequenceNumber := callSequenceNumber + 1;
        callSequenceNumberMap := callSequenceNumberMap[session := callSequenceNumber];
        channel := 1;
        AdmitOrThrottle(session);
      } else {
        vgwSessionIdMap := vgwSessionIdMap[session := vgwSessionIdMap[session] + [startTime]];
        channel := 2;
      }
    }

    method AdmitOrThrottle(session: string)
      modifies this
      ensures State() == Admit(old(State()), session) && submitted == old(submitted)
    {
      if activeConcurrentCallsCnt >= maxConcurrentCallsAllowed {
        callsBeingThrottled := callsBeingThrottled + {session};
        var newHighWaterMark := maxConcurrentCallsAllowed + |callsBeingThrottled|;
        if peakConcurrentCallsCnt < newHighWaterMark {
          peakConcurrentCallsCnt := newHighWaterMark;
        }
      } else {
        activeConcurrentCallsCnt := activeConcurrentCallsCnt + 1;
        if activeConcurrentCallsCnt > peakConcurrentCallsCnt {
          peakConcurrentCallsCnt := activeConcurrentCallsCnt;
        }
      }
    }

    /** The end of call signal and the clean-up for the channel that closes. */
    method EndChannel(h: Handle)
      requires Valid() && h in clientConnectionsMap
      modifies this
      ensures State() == BeforePurge(old(State()), h).0
      ensures submitted == old(submitted) + BeforePurge(old(State()), h).1
    {
      var conMetadata := clientConnectionsMap[h];
      var session := conMetadata.session;
      if session in vgwSessionIdMap && session in callSequenceNumberMap && conMetadata.channel > 0 {
        if session !in callsBeingThrottled {
          submitted := submitted
            + [EndOfCall(session, conMetadata.isCaller, conMetadata.channel, callSequenceNumberMap[session])];
        }
        ghost var before := vgwSessionIdMap;
        var list := vgwSessionIdMap[session];
        vgwSessionIdMap := vgwSessionIdMap[session := list[..|list| - 1]];
        if |vgwSessionIdMap[session]| <= 0 {
          assert vgwSessionIdMap - {session} == before - {session};
          EndCall(session);
        }
      }
    }

    method EndCall(session: string)
      modifies this
      ensures State() == CallEnded(old(State()), session) && submitted == old(submitted)
    {
      vgwSessionIdMap := vgwSessionIdMap - {session};
      callSequenceNumberMap := callSequenceNumberMap - {session};
      if session !in callsBeingThrottled {
        activeConcurrentCallsCnt := activeConcurrentCallsCnt - 1;
        assert callsBeingThrottled == callsBeingThrottled - {session};
      } else {
        callsBeingThrottled := callsBeingThrottled - {session};
      }
      nVoiceCallsProcessed := nVoiceCallsProcessed + 1;
    }

    /** What is submitted is the signal of the closing channel, followed by those of a purge if one is due. */
    method OnClose(h: Handle, now: int) returns (ghost purge: seq<BinarySpeech>)
      requires Valid()
      modifies this
      ensures Valid() && State() == AfterClose(old(State()), h, now, vgwStaleSessionPurgeInterval)
      ensures submitted == old(submitted) + Emits(old(State()), Close(h, now)) + purge
      ensures h !in old(clientConnectionsMap) ==> purge == []
      ensures h in old(clientConnectionsMap) ==>
        PurgeSubmits(BeforePurge(old(State()), h).0, now, vgwStaleSessionPurgeInterval, purge)
    {
      ListsStayFilled(vgwStaleSessionPurgeInterval, State(), Close(h, now));
      hide AfterPurge, PurgeSubmits;
      purge := [];
      if h !in clientConnectionsMap {
        return;
      }
      EndChannel(h);
      purge := PurgePeriodically(now);
      clientConnectionsMap := clientConnectionsMap - {h};
    }

    method PurgePeriodically(now: int) returns (ghost purge: seq<BinarySpeech>)
      modifies this
      ensures State() == AfterPurge(old(State()), now, vgwStaleSessionPurgeInterval)
      ensures submitted == old(submitted) + purge
      ensures PurgeSubmits(old(State()), now, vgwStaleSessionPurgeInterval, purge)
    {
      hide Purged, StaleSessions, StaleConnections, SessionSignals, ConnectionSignals, Elements, Size, Reborn;
      purge := [];
      if vgwStaleSessionPurgeInterval > 0 {
        if now - timeOfPreviousStaleSessionRemoval >= vgwStaleSessionPurgeInterval {
          ghost var s, before := State(), submitted;
          var sessions, handles := PurgeStaleSessions(now);
          purge := submitted[|before|..];
          StaleAreOpen(s.connections, now, vgwStaleSessionPurgeInterval);
          assert submitted == before + (SessionSignals(sessions, s.throttled)
            + ConnectionSignals(WithoutStaleSessions(s, now, vgwStaleSessionPurgeInterval), handles));
          assert InOrder(s, now, vgwStaleSessionPurgeInterval, sessions, handles, purge);
        }
      }
    }

    method OnSetMaxConcurrentCalls(value: int)
      requires Valid()
      modifies this
      ensures Valid() && State() == AfterSetLimit(old(State()), value) && submitted == old(submitted)
    {
      ListsStayFilled(vgwStaleSessionPurgeInterval, State(), SetLimit(value));
      if value >= 0 {
        maxConcurrentCallsAllowed := value;
      }
    }

    /** Collects the sessions of which some channel is stale. */
    method CollectStaleSessions(now: int) returns (staleList: seq<string>)
      ensures IsTraversal(staleList, StaleSessions(vgwSessionIdMap, now, vgwStaleSessionPurgeInterval))
    {
      staleList := [];
      var rest := vgwSessionIdMap.Keys;
      ghost var stale := StaleSessions(vgwSessionIdMap, now, vgwStaleSessionPurgeInterval);
      while rest != {}
        invariant rest <= vgwSessionIdMap.Keys
        invariant forall session :: session in staleList <==> session in stale && session !in rest
        invariant forall i, j :: 0 <= i < j < |staleList| ==> staleList[i] != staleList[j]
        decreases |rest|
      {
        var session :| session in rest;
        var list := vgwSessionIdMap[session];
        var i := 0;
        while i < |list|
          invariant 0 <= i <= |list|
          invariant forall j :: 0 <= j < i ==> now - list[j] < vgwStaleSessionPurgeInterval
        {
          if now - list[i] >= vgwStaleSessionPurgeInterval {
            break;
          }
          i := i + 1;
        }
        if i < |list| {
          staleList := staleList + [session];
        }
        rest := rest - {session};
      }
    }

    method ForgetSession(session: string)
      modifies this
      ensures State() == WithoutSession(old(State()), session)
      ensures submitted == old(submitted) + if session in old(callsBeingThrottled) then []
                                            else [EndOfCall(session, false, 1, 0), EndOfCall(session, true, 2, 0)]
    {
      vgwSessionIdMap := vgwSessionIdMap - {session};
      callSequenceNumberMap := callSequenceNumberMap - {session};
      if session !in callsBeingThrottled {
        callSequenceNumberMap := Touched(callSequenceNumberMap, session);
        submitted := submitted + [EndOfCall(session, false, 1, callSequenceNumberMap[session])];
        callSequenceNumberMap := Touched(callSequenceNumberMap, session);
        submitted := submitted + [EndOfCall(session, true, 2, callSequenceNumberMap[session])];
        activeConcurrentCallsCnt := activeConcurrentCallsCnt - 1;
        assert callsBeingThrottled == callsBeingThrottled - {session};
      } else {
        callsBeingThrottled := callsBeingThrottled - {session};
      }
    }

    /** The first half of the purge: forget the stale sessions, signalling both channels of those not throttled. */
    method ForgetStaleSessions(now: int) returns (staleList: seq<string>)
      modifies this
      ensures State() == WithoutStaleSessions(old(State()), now, vgwStaleSessionPurgeInterval)
      ensures IsTraversal(staleList, StaleSessions(old(vgwSessionIdMap), now, vgwStaleSessionPurgeInterval))
      ensures submitted == old(submitted) + SessionSignals(staleList, old(callsBeingThrottled))
    {
      ghost var s := State();
      staleList := CollectStaleSessions(now);
      for k := 0 to |staleList|
        invariant State() == ForgetAll(s, staleList[..k])
        invariant submitted == old(submitted) + SessionSignals(staleList[..k], s.throttled)
      {
        assert staleList[..k + 1][..k] == staleList[..k];
        OthersStayThrottled(s, staleList[..k], staleList[k]);
        ForgetSession(staleList[k]);
      }
      assert staleList[..|staleList|] == staleList;
      ForgetAllAtOnce(s, staleList, StaleSessions(s.channels, now, vgwStaleSessionPurgeInterval));
    }

    /** One stale connection: signal the end of its channel unless its call is throttled. */
    method SignalStaleConnection(h: Handle)
      requires h in clientConnectionsMap
      modifies this
      ensures clientConnectionsMap == old(clientConnectionsMap)
      ensures State() == old(State()).(numbers :=
        if clientConnectionsMap[h].session in callsBeingThrottled then old(callSequenceNumberMap)
        else Touched(old(callSequenceNumberMap), clientConnectionsMap[h].session))
      ensures var cmd := clientConnectionsMap[h];
        submitted == old(submitted) + if cmd.session in callsBeingThrottled then []
          else [EndOfCall(cmd.session, cmd.isCaller, cmd.channel, NumberOf(old(callSequenceNumberMap), cmd.session))]
    {
      var cmd := clientConnectionsMap[h];
      if cmd.session !in callsBeingThrottled {
        callSequenceNumberMap := Touched(callSequenceNumberMap, cmd.session);
        submitted := submitted + [EndOfCall(cmd.session, cmd.isCaller, cmd.channel, callSequenceNumberMap[cmd.session])];
      }
    }

    /** The second half: drop the connections opened too long ago, signalling their channels. */
    method ForgetStaleConnections(now: int) returns (staleList2: seq<Handle>)
      modifies this
      ensures State() == WithoutStaleConnections(old(State()), now, vgwStaleSessionPurgeInterval)
      ensures IsTraversal(staleList2, StaleConnections(old(clientConnectionsMap), now, vgwStaleSessionPurgeInterval))
      ensures submitted == old(submitted) + ConnectionSignals(old(State()), staleList2)
    {
      ghost var s := State();
      staleList2 := CollectStaleConnections(now);
      for k := 0 to |staleList2|
        invariant Elements(staleList2[..k]) <= s.connections.Keys
        invariant State() == s.(numbers := TouchAll(s, staleList2[..k]))
        invariant submitted == old(submitted) + ConnectionSignals(s, staleList2[..k])
      {
        var h := staleList2[k];
        assert h in Elements(staleList2);
        assert staleList2[..k + 1][..k] == staleList2[..k];
        LastElement(staleList2[..k + 1]);
        TouchAllKeepsNumbers(s, staleList2[..k], s.connections[h].session);
        SignalStaleConnection(h);
      }
      assert staleList2[..|staleList2|] == staleList2;
      TouchAllAtOnce(s, staleList2);
      clientConnectionsMap := EraseConnections(clientConnectionsMap, staleList2);
    }

    method CollectStaleConnections(now: int) returns (staleList2: seq<Handle>)
      ensures IsTraversal(staleList2, StaleConnections(clientConnectionsMap, now, vgwStaleSessionPurgeInterval))
    {
      staleList2 := [];
      var rest := clientConnectionsMap.Keys;
      while rest != {}
        invariant rest <= clientConnectionsMap.Keys
        invariant IsTraversal(staleList2, StaleConnections(clientConnectionsMap, now, vgwStaleSessionPurgeInterval) - rest)
        decreases |rest|
      {
        var h :| h in rest;
        if now - clientConnectionsMap[h].startTime > vgwStaleSessionPurgeInterval {
          ghost var before := staleList2;
          staleList2 := staleList2 + [h];
          assert staleList2[..|before|] == before;
          LastElement(staleList2);
        }
        rest := rest - {h};
      }
    }

    /** The periodic purge; the out-parameters are the two stale lists in the order in which they were built. */
    method PurgeStaleSessions(now: int) returns (sessions: seq<string>, handles: seq<Handle>)
      modifies this
      ensures State() == Purged(old(State()), now, vgwStaleSessionPurgeInterval)
      ensures IsTraversal(sessions, StaleSessions(old(vgwSessionIdMap), now, vgwStaleSessionPurgeInterval))
      ensures IsTraversal(handles, StaleConnections(old(clientConnectionsMap), now, vgwStaleSessionPurgeInterval))
      ensures submitted == old(submitted) + SessionSignals(sessions, old(callsBeingThrottled))
        + ConnectionSignals(WithoutStaleSessions(old(State()), now, vgwStaleSessionPurgeInterval), handles)
    {
      sessions := ForgetStaleSessions(now);
      handles := ForgetStaleConnections(now);
      timeOfPreviousStaleSessionRemoval := now;
    }
  }

  /** The last loop of the purge erases the collected handles one by one. */
  method EraseConnections(connections: map<Handle, Connection>, order: seq<Handle>)
    returns (remaining: map<Handle, Connection>)
    ensures remaining == connections - Elements(order)
  {
    remaining := connections;
    for k := 0 to |order|
      invariant remaining == connections - Elements(order[..k])
    {
      assert order[..k + 1][..k] == order[..k];
      LastElement(order[..k + 1]);
      remaining := remaining - {order[k]};
    }
    assert order[..|order|] == order;
  }
}
