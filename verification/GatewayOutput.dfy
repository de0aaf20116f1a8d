/** With the purge off, the shape of what the voice gateway source emits for each connection and each call. */
module GatewayOutput {
  import opened Wrappers
  import opened Sets
  import opened SpeechStream
  import opened GatewaySource
  import opened GatewayProperties
  import opened GatewayRefinement

  /** Everything the run submits, in order. */
  function Output(s: Source, es: seq<Event>): seq<BinarySpeech>
    decreases |es|
  {
    if es == [] then [] else Emits(s, es[0]) + Output(Step(0, s, es[0]), es[1..])
  }

  predicate Concerns(e: Event, h: Handle) {
    !e.SetLimit? && e.h == h
  }

  /** What is submitted by the handlers of one connection. */
  function OutputOf(s: Source, es: seq<Event>, h: Handle): seq<BinarySpeech>
    decreases |es|
  {
    if es == [] then []
    else (if Concerns(es[0], h) then Emits(s, es[0]) else []) + OutputOf(Step(0, s, es[0]), es[1..], h)
  }

  predicate Packet(s: Source, e: Event, h: Handle) {
    e.Binary? && e.h == h && e.size > 0 && h in s.connections && s.connections[h].status == Started
  }

  /** Sizes of the packets accepted on a connection until it closes. */
  function Heard(s: Source, es: seq<Event>, h: Handle): seq<nat>
    decreases |es|
  {
    if es == [] || (es[0].Close? && es[0].h == h) then []
    else (if Packet(s, es[0], h) then [es[0].size] else []) + Heard(Step(0, s, es[0]), es[1..], h)
  }

  predicate Closes(es: seq<Event>, h: Handle)
    decreases |es|
  {
    es != [] && ((es[0].Close? && es[0].h == h) || Closes(es[1..], h))
  }

  predicate NeverOpens(es: seq<Event>, h: Handle) {
    forall i :: 0 <= i < |es| ==> !(es[i].Open? && es[i].h == h)
  }

  /** The attributes shared by all tuples of one speaking connection. */
  datatype Channel = Channel(session: string, isCaller: bool, channel: int, number: int)

  function ChannelOf(s: Source, h: Handle): Channel
    requires h in s.connections
  {
    var c := s.connections[h];
    Channel(c.session, c.isCaller, c.channel, NumberOf(s.numbers, c.session))
  }

  /** Consecutive fragments after `packets` earlier ones with `bytes` bytes. */
  function Fragments(ch: Channel, packets: nat, bytes: nat, sizes: seq<nat>): seq<BinarySpeech>
    decreases |sizes|
  {
    if sizes == [] then []
    else
      [BinarySpeech(ch.session, ch.isCaller, ch.channel, false, sizes[0], packets + 1, bytes + sizes[0], ch.number)]
      + Fragments(ch, packets + 1, bytes + sizes[0], sizes[1..])
  }

  function Sum(sizes: seq<nat>): nat {
    if sizes == [] then 0 else sizes[0] + Sum(sizes[1..])
  }

  /** Fragment i of a connection, from 0, carries the number i + 1 and the prefix sum of the sizes. */
  lemma {:induction false} FragmentAt(ch: Channel, packets: nat, bytes: nat, sizes: seq<nat>, i: nat)
    requires i < |sizes|
    ensures |Fragments(ch, packets, bytes, sizes)| == |sizes|
    ensures Fragments(ch, packets, bytes, sizes)[i] == BinarySpeech(ch.session, ch.isCaller, ch.channel, false, sizes[i],
              packets + i + 1, bytes + Sum(sizes[..i + 1]), ch.number)
    decreases |sizes|
  {
    assert sizes[..i + 1][1..] == sizes[1..][..i];
    if |sizes| > 1 {
      FragmentAt(ch, packets + 1, bytes + sizes[0], sizes[1..], if i > 0 then i - 1 else 0);
    }
  }

  function Signal(ch: Channel): seq<BinarySpeech> {
    [EndOfCall(ch.session, ch.isCaller, ch.channel, ch.number)]
  }

  // ---------- A speaking connection keeps its call ----------

  ghost predicate SameCall(s: Source, s': Source, h: Handle)
    requires h in s.connections
  {
    && h in s'.connections && ChannelOf(s', h) == ChannelOf(s, h)
    && (s.connections[h].session in s'.throttled <==> s.connections[h].session in s.throttled)
  }

  /** While a connection speaks, its session has an entry, and no other event ends or renumbers the call. */
  lemma CallPersists(s: Source, e: Event, h: Handle)
    requires Refines(s) && h in s.connections && s.connections[h].packets > 0
    requires !(e.Close? && e.h == h) && FreshOpen(s, e)
    ensures SameCall(s, Step(0, s, e), h)
  {
    hide Size;
    var session := s.connections[h].session;
    assert ConnectionOk(s.connections[h]);
    assert h in Speaking(s.connections, session);
    assert Summarises(s, session);
    match e
    case Binary(k, size) =>
      if k in s.connections {
        assert ConnectionOk(s.connections[k]);
      }
    case Close(k, now) =>
      if k in s.connections && s.connections[k].session == session && s.connections[k].channel > 0 {
        assert ConnectionOk(s.connections[k]);
        assert k in Speaking(s.connections, session);
        TwoMembers(Speaking(s.connections, session), h, k);
      }
    case TextMessage(k, text, acknowledged) =>
    case Open(k, now) =>
    case SetLimit(value) =>
  }

  /** What the events of a speaking connection submit, and how they advance its counters. */
  lemma SpeakingStep(s: Source, e: Event, h: Handle)
    requires Refines(s) && h in s.connections && s.connections[h].packets > 0
    requires !(e.Close? && e.h == h) && FreshOpen(s, e)
    ensures h in Step(0, s, e).connections
    ensures var c, c' := s.connections[h], Step(0, s, e).connections[h];
      if Packet(s, e, h) then
        && c'.packets == c.packets + 1 && c'.bytes == c.bytes + e.size
        && Emits(s, e) == if c.session in s.throttled then [] else Fragments(ChannelOf(s, h), c.packets, c.bytes, [e.size])
      else c'.packets == c.packets && c'.bytes == c.bytes && (Concerns(e, h) ==> Emits(s, e) == [])
  {
    hide Size;
    var session := s.connections[h].session;
    assert ConnectionOk(s.connections[h]);
    assert h in Speaking(s.connections, session);
    assert Summarises(s, session);
    if Packet(s, e, h) {
      LaterPacketRefines(s, h, e.size);
      hide Refines;
      assert Fragments(ChannelOf(s, h), s.connections[h].packets + 1, s.connections[h].bytes + e.size, [e.size][1..]) == [];
    }
  }

  /** A connection that is not in the map submits nothing until it is opened. */
  lemma {:induction false} GoneIsSilent(s: Source, es: seq<Event>, h: Handle)
    requires h !in s.connections && NeverOpens(es, h)
    ensures OutputOf(s, es, h) == []
    decreases |es|
  {
    if es != [] {
      assert h !in Step(0, s, es[0]).connections;
      GoneIsSilent(Step(0, s, es[0]), es[1..], h);
    }
  }

  lemma FragmentsSplit(ch: Channel, packets: nat, bytes: nat, size: nat, sizes: seq<nat>)
    ensures Fragments(ch, packets, bytes, [size] + sizes)
         == Fragments(ch, packets, bytes, [size]) + Fragments(ch, packets + 1, bytes + size, sizes)
  {
    assert ([size] + sizes)[1..] == sizes && [size][1..] == [];
  }

  /** What a channel still has to submit: nothing if its call is suppressed, else its fragments and the end signal. */
  function Remaining(forwarded: bool, ch: Channel, packets: nat, bytes: nat, sizes: seq<nat>, closes: bool): seq<BinarySpeech> {
    if !forwarded then [] else Fragments(ch, packets, bytes, sizes) + if closes then Signal(ch) else []
  }

  lemma RemainingStep(forwarded: bool, ch: Channel, packets: nat, bytes: nat, size: nat, sizes: seq<nat>, closes: bool)
    ensures Remaining(forwarded, ch, packets, bytes, [size] + sizes, closes)
         == (if forwarded then Fragments(ch, packets, bytes, [size]) else [])
            + Remaining(forwarded, ch, packets + 1, bytes + size, sizes, closes)
  {
    FragmentsSplit(ch, packets, bytes, size, sizes);
  }

  /** One unfolding of the recursive descriptions of a run. */
  lemma Unfold(s: Source, es: seq<Event>, h: Handle)
    requires es != [] && !(es[0].Close? && es[0].h == h)
    ensures var s' := Step(0, s, es[0]);
      && OutputOf(s, es, h) == (if Concerns(es[0], h) then Emits(s, es[0]) else []) + OutputOf(s', es[1..], h)
      && Heard(s, es, h) == (if Packet(s, es[0], h) then [es[0].size] else []) + Heard(s', es[1..], h)
      && Closes(es, h) == Closes(es[1..], h)
  {
  }

  /** The claim about a speaking connection. */
  ghost predicate Grammatical(s: Source, es: seq<Event>, h: Handle)
    requires h in s.connections
  {
    var c := s.connections[h];
    OutputOf(s, es, h) == Remaining(c.session !in s.throttled, ChannelOf(s, h), c.packets, c.bytes, Heard(s, es, h), Closes(es, h))
  }

  /** The claim travels backwards over an event that does not close the connection. */
  lemma GrammarStep(s: Source, es: seq<Event>, h: Handle)
    requires es != [] && Refines(s) && FreshOpen(s, es[0]) && !(es[0].Close? && es[0].h == h)
    requires h in s.connections && s.connections[h].packets > 0
    requires h in Step(0, s, es[0]).connections && Grammatical(Step(0, s, es[0]), es[1..], h)
    ensures Grammatical(s, es, h)
  {
    hide Size, Step, Emits, Refines, OutputOf, Heard, Closes;
    var e, s', c := es[0], Step(0, s, es[0]), s.connections[h];
    SpeakingStep(s, e, h);
    CallPersists(s, e, h);
    Unfold(s, es, h);
    hide Fragments, Remaining, ChannelOf;
    if Packet(s, e, h) {
      RemainingStep(c.session !in s.throttled, ChannelOf(s, h), c.packets, c.bytes, e.size,
                    Heard(s', es[1..], h), Closes(es, h));
    } else {
      assert Heard(s, es, h) == Heard(s', es[1..], h);
    }
  }

  /** From its first packet on: all fragments and the end signal of the channel, or nothing at all. */
  lemma {:induction false} SpeakingGrammar(s: Source, es: seq<Event>, h: Handle)
    requires Refines(s) && FreshOpens(s, es) && NeverOpens(es, h)
    requires h in s.connections && s.connections[h].packets > 0
    ensures Grammatical(s, es, h)
    decreases |es|
  {
    hide Size;
    if es != [] {
      if es[0].Close? && es[0].h == h {
        SpeakingClose(s, es[0], h);
        GoneIsSilent(Step(0, s, es[0]), es[1..], h);
      } else {
        SpeakingStep(s, es[0], h);
        StepRefines(s, es[0]);
        hide Refines, Step, Grammatical;
        SpeakingGrammar(Step(0, s, es[0]), es[1..], h);
        GrammarStep(s, es, h);
      }
    }
  }

  /** Closing a speaking connection submits the end signal of its channel. */
  lemma SpeakingClose(s: Source, e: Event, h: Handle)
    requires Refines(s) && h in s.connections && s.connections[h].packets > 0 && e.Close? && e.h == h
    ensures Emits(s, e) == if s.connections[h].session in s.throttled then [] else Signal(ChannelOf(s, h))
    ensures h !in Step(0, s, e).connections
  {
    hide Size;
    assert ConnectionOk(s.connections[h]);
    assert h in Speaking(s.connections, s.connections[h].session);
    assert Summarises(s, s.connections[h].session);
  }

  /** An event of a connection that has not spoken submits nothing unless it is its first packet. */
  lemma SilentStep(s: Source, e: Event, h: Handle)
    requires Refines(s) && FreshOpen(s, e)
    requires h in s.connections && s.connections[h].packets == 0
    ensures if Packet(s, e, h) then
        var s' := Step(0, s, e);
        && h in s'.connections && s'.connections[h].packets == 1 && s'.connections[h].bytes == e.size
        && Emits(s, e) == if s'.connections[h].session in s'.throttled then []
                          else Fragments(ChannelOf(s', h), 0, 0, [e.size])
      else
        && (Concerns(e, h) ==> Emits(s, e) == [])
        && (!(e.Close? && e.h == h) ==> h in Step(0, s, e).connections && Step(0, s, e).connections[h].packets == 0)
  {
    hide Size;
    assert ConnectionOk(s.connections[h]);
    if Packet(s, e, h) {
      FirstPacketShape(s, h, e.size);
      assert Fragments(ChannelOf(Step(0, s, e), h), 1, e.size, [e.size][1..]) == [];
    }
  }

  /** The output of one connection: suppressed wholly, or fragments numbered from 1 with running byte totals, followed
      by exactly one end of call signal of the same session, channel and number when it closes. */
  ghost predicate WhollyOrNotAtAll(s: Source, es: seq<Event>, h: Handle, ch: Channel, forwarded: bool) {
    OutputOf(s, es, h) ==
      if Heard(s, es, h) == [] then [] else Remaining(forwarded, ch, 0, 0, Heard(s, es, h), Closes(es, h))
  }

  /** The claim of a speaking connection, extended over the first packet before it. */
  lemma PrependFirst(s: Source, es: seq<Event>, h: Handle, ch: Channel, forwarded: bool, size: nat, later: seq<nat>)
    requires Heard(s, es, h) == [size] + later
    requires OutputOf(s, es, h) == (if forwarded then Fragments(ch, 0, 0, [size]) else [])
      + Remaining(forwarded, ch, 1, size, later, Closes(es, h))
    ensures WhollyOrNotAtAll(s, es, h, ch, forwarded)
  {
    hide Heard, OutputOf, Closes, Fragments, Remaining;
    RemainingStep(forwarded, ch, 0, 0, size, later, Closes(es, h));
  }

  lemma FirstPacketGrammar(s: Source, es: seq<Event>, h: Handle)
    requires es != [] && Refines(s) && FreshOpens(s, es) && NeverOpens(es, h)
    requires h in s.connections && s.connections[h].packets == 0 && Packet(s, es[0], h)
    ensures var s' := Step(0, s, es[0]);
      && h in s'.connections && (s'.connections[h].channel == 1 || s'.connections[h].channel == 2)
      && WhollyOrNotAtAll(s, es, h, ChannelOf(s', h), s'.connections[h].session !in s'.throttled)
  {
    hide Size, Step, Emits, OutputOf, Heard, Closes;
    var e, s' := es[0], Step(0, s, es[0]);
    SilentStep(s, e, h);
    StepRefines(s, e);
    assert ConnectionOk(s'.connections[h]) && FreshOpens(s', es[1..]) && NeverOpens(es[1..], h);
    assert e.Binary? && Concerns(e, h);
    Unfold(s, es, h);
    SpeakingGrammar(s', es[1..], h);
    assert OutputOf(s', es[1..], h) == Remaining(s'.connections[h].session !in s'.throttled, ChannelOf(s', h), 1, e.size,
                                                 Heard(s', es[1..], h), Closes(es[1..], h));
    hide *;
    PrependFirst(s, es, h, ChannelOf(s', h), s'.connections[h].session !in s'.throttled, e.size, Heard(s', es[1..], h));
  }

  // ---------- The voices of a run ----------

  /** How a connection takes part in a call, settled by its first packet. */
  datatype Voice = Voice(channel: Channel, forwarded: bool)

  predicate FirstPacketOf(s: Source, e: Event, h: Handle) {
    Packet(s, e, h) && s.connections[h].packets == 0
  }

  function VoiceAfter(s: Source, h: Handle): Voice
    requires h in s.connections
  {
    Voice(ChannelOf(s, h), s.connections[h].session !in s.throttled)
  }

  lemma FirstPacketStays(s: Source, e: Event, h: Handle)
    requires Packet(s, e, h)
    ensures h in Step(0, s, e).connections
  {
  }

  /** The voice of a connection that has not spoken yet, if the run has a packet for it. */
  function VoiceOf(s: Source, es: seq<Event>, h: Handle): Option<Voice>
    decreases |es|
  {
    if es == [] then None
    else if FirstPacketOf(s, es[0], h) then
      FirstPacketStays(s, es[0], h);
      Some(VoiceAfter(Step(0, s, es[0]), h))
    else VoiceOf(Step(0, s, es[0]), es[1..], h)
  }

  function StartedBy(s: Source, e: Event): seq<Voice> {
    if e.Binary? && FirstPacketOf(s, e, e.h) then
      FirstPacketStays(s, e, e.h);
      [VoiceAfter(Step(0, s, e), e.h)]
    else []
  }

  /** All voices of a run, in the order of the first packets. */
  function Voices(s: Source, es: seq<Event>): seq<Voice>
    decreases |es|
  {
    if es == [] then [] else StartedBy(s, es[0]) + Voices(Step(0, s, es[0]), es[1..])
  }

  lemma {:induction false} VoiceIsHeard(s: Source, es: seq<Event>, h: Handle)
    ensures VoiceOf(s, es, h).Some? ==> VoiceOf(s, es, h).value in Voices(s, es)
    decreases |es|
  {
    if es != [] && !FirstPacketOf(s, es[0], h) {
      hide Step, FirstPacketOf, VoiceAfter;
      VoiceIsHeard(Step(0, s, es[0]), es[1..], h);
    } else {
      hide Step, VoiceAfter;
    }
  }

  lemma {:induction false} GoneHasNoVoice(s: Source, es: seq<Event>, h: Handle)
    requires h !in s.connections && NeverOpens(es, h)
    ensures VoiceOf(s, es, h) == None
    decreases |es|
  {
    if es != [] {
      assert h !in Step(0, s, es[0]).connections;
      GoneHasNoVoice(Step(0, s, es[0]), es[1..], h);
    }
  }

  /** A connection without a voice submits nothing; one with a voice submits all of its tuples, with the attributes of
      its voice, or none of them. */
  lemma {:induction false} ConnectionGrammar(s: Source, es: seq<Event>, h: Handle)
    requires Refines(s) && FreshOpens(s, es) && NeverOpens(es, h)
    requires h in s.connections && s.connections[h].packets == 0
    ensures match VoiceOf(s, es, h)
      case None => Heard(s, es, h) == [] && OutputOf(s, es, h) == []
      case Some(v) =>
        && Heard(s, es, h) != [] && (v.channel.channel == 1 || v.channel.channel == 2)
        && OutputOf(s, es, h) == Remaining(v.forwarded, v.channel, 0, 0, Heard(s, es, h), Closes(es, h))
    decreases |es|
  {
    hide Size;
    if es != [] {
      var e, s' := es[0], Step(0, s, es[0]);
      SilentStep(s, e, h);
      StepRefines(s, e);
      if Packet(s, e, h) {
        FirstPacketGrammar(s, es, h);
        Unfold(s, es, h);
        assert Heard(s, es, h) != [];
        hide Refines, Step, Emits, Remaining, OutputOf, Heard, Closes;
      } else if e.Close? && e.h == h {
        assert h !in s'.connections;
        hide Refines, Step, Emits, Remaining;
        GoneIsSilent(s', es[1..], h);
        GoneHasNoVoice(s', es[1..], h);
        assert OutputOf(s, es, h) == [] && Heard(s, es, h) == [];
      } else {
        Unfold(s, es, h);
        hide Refines, Step, Emits, Remaining, OutputOf, Heard, Closes;
        ConnectionGrammar(s', es[1..], h);
        assert OutputOf(s, es, h) == OutputOf(s', es[1..], h) && Heard(s, es, h) == Heard(s', es[1..], h);
      }
    }
  }

  lemma {:induction false} FragmentsCount(ch: Channel, packets: nat, bytes: nat, sizes: seq<nat>)
    ensures |Fragments(ch, packets, bytes, sizes)| == |sizes|
    decreases |sizes|
  {
    if sizes != [] {
      FragmentsCount(ch, packets + 1, bytes + sizes[0], sizes[1..]);
    }
  }

  /** Attribute by attribute: fragment i of a forwarded connection, from 0, has number i + 1 and the bytes so far; after the
      close there is one more tuple, the end of call signal; and all have session, caller mark, channel and call number
      of the voice. */
  lemma ConnectionTuples(s: Source, es: seq<Event>, h: Handle, v: Voice)
    requires Refines(s) && FreshOpens(s, es) && NeverOpens(es, h)
    requires h in s.connections && s.connections[h].packets == 0
    requires VoiceOf(s, es, h) == Some(v) && v.forwarded
    ensures var out, sizes, ch := OutputOf(s, es, h), Heard(s, es, h), v.channel;
      && |out| == |sizes| + (if Closes(es, h) then 1 else 0)
      && (forall i :: 0 <= i < |sizes| ==>
            out[i] == BinarySpeech(ch.session, ch.isCaller, ch.channel, false, sizes[i], i + 1, Sum(sizes[..i + 1]), ch.number))
      && (Closes(es, h) ==>
            out[|sizes|] == BinarySpeech(ch.session, ch.isCaller, ch.channel, true, 0, 0, 0, ch.number))
  {
    ConnectionGrammar(s, es, h);
    hide Refines, FreshOpens, NeverOpens, VoiceOf, OutputOf, Heard, Closes, Fragments, Sum;
    var sizes := Heard(s, es, h);
    FragmentsCount(v.channel, 0, 0, sizes);
    forall i | 0 <= i < |sizes|
      ensures Fragments(v.channel, 0, 0, sizes)[i] == BinarySpeech(v.channel.session, v.channel.isCaller, v.channel.channel,
                false, sizes[i], i + 1, Sum(sizes[..i + 1]), v.channel.number)
    {
      FragmentAt(v.channel, 0, 0, sizes, i);
    }
  }

  // ---------- The story of a connection ----------

  /** When a connection was opened, and the session and caller mark of its start message. */
  datatype Story = Story(since: int, started: Option<(string, bool)>)

  /** What the events tell about a connection, given what was known of it before. */
  function Told(story: Option<Story>, es: seq<Event>, h: Handle): Option<Story>
    decreases |es|
  {
    if es == [] then story else Told(After(story, es[0], h), es[1..], h)
  }

  function After(story: Option<Story>, e: Event, h: Handle): Option<Story> {
    match e
    case Open(k, now) => if k == h then Some(Story(now, None)) else story
    case Close(k, _) => if k == h then None else story
    case TextMessage(k, Action(action, Some(session), Some(isCaller)), true) =>
      if k == h && action == "start" && session != "" && story.Some? && story.value.started == None then
        Some(story.value.(started := Some((session, isCaller))))
      else story
    case _ => story
  }

  predicate Agrees(s: Source, h: Handle, story: Option<Story>) {
    match story
    case None => h !in s.connections
    case Some(Story(since, None)) =>
      h in s.connections && s.connections[h].startTime == since && s.connections[h].status == Opened
    case Some(Story(since, Some((session, isCaller)))) =>
      && h in s.connections && s.connections[h].startTime == since && s.connections[h].status == Started
      && s.connections[h].session == session && s.connections[h].isCaller == isCaller
  }

  lemma ConnectionsAfterPacket(s: Source, h: Handle, size: nat)
    ensures var cs, cs' := s.connections, AfterBinary(s, h, size).0.connections;
      && cs'.Keys == cs.Keys
      && forall k :: k in cs ==>
           && cs'[k].status == cs[k].status && cs'[k].startTime == cs[k].startTime
           && cs'[k].session == cs[k].session && cs'[k].isCaller == cs[k].isCaller
  {
    hide Size;
  }

  lemma ConnectionsAfterClose(s: Source, h: Handle, now: int)
    ensures AfterClose(s, h, now, 0).connections == s.connections - {h}
  {
    hide Size;
  }

  lemma AgreesStep(s: Source, e: Event, h: Handle, story: Option<Story>)
    requires Agrees(s, h, story)
    ensures Agrees(Step(0, s, e), h, After(story, e, h))
  {
    hide AfterBinary, AfterClose;
    match e
    case Binary(k, size) => ConnectionsAfterPacket(s, k, size);
    case Close(k, now) => ConnectionsAfterClose(s, k, now);
    case _ =>
  }

  /** A connection is in the map from its opening to its close; it has the time of the opening, and its session and caller
      mark are those of the first complete start message of it that was acknowledged. */
  lemma {:induction false} ConnectionStory(s: Source, es: seq<Event>, h: Handle, story: Option<Story>)
    requires Agrees(s, h, story)
    ensures Agrees(Run(0, s, es), h, Told(story, es, h))
    decreases |es|
  {
    if es != [] {
      AgreesStep(s, es[0], h, story);
      hide Step, Agrees, After;
      ConnectionStory(Step(0, s, es[0]), es[1..], h, After(story, es[0], h));
    }
  }

  lemma ReachableStory(limit: nat, now: int, es: seq<Event>, h: Handle)
    ensures Agrees(Run(0, Initial(limit, now), es), h, Told(None, es, h))
  {
    ConnectionStory(Initial(limit, now), es, h, None);
  }

  lemma StartedStays(s: Source, e: Event, h: Handle)
    requires h in s.connections && s.connections[h].status == Started && FreshOpen(s, e) && !(e.Close? && e.h == h)
    ensures var s' := Step(0, s, e);
      && h in s'.connections && s'.connections[h].status == Started
      && s'.connections[h].session == s.connections[h].session && s'.connections[h].isCaller == s.connections[h].isCaller
  {
    hide AfterBinary, AfterClose;
    match e
    case Binary(k, size) => ConnectionsAfterPacket(s, k, size);
    case Close(k, now) => ConnectionsAfterClose(s, k, now);
    case _ =>
  }

  /** A started connection speaks for the session and with the caller mark of its start message. */
  lemma {:induction false} VoiceKeepsStart(s: Source, es: seq<Event>, h: Handle)
    requires FreshOpens(s, es) && NeverOpens(es, h) && h in s.connections && s.connections[h].status == Started
    ensures VoiceOf(s, es, h).Some? ==>
      && VoiceOf(s, es, h).value.channel.session == s.connections[h].session
      && VoiceOf(s, es, h).value.channel.isCaller == s.connections[h].isCaller
    decreases |es|
  {
    if es != [] {
      if es[0].Close? && es[0].h == h {
        assert h !in Step(0, s, es[0]).connections;
        GoneHasNoVoice(Step(0, s, es[0]), es[1..], h);
      } else {
        StartedStays(s, es[0], h);
        hide Step, FirstPacketOf;
        VoiceKeepsStart(Step(0, s, es[0]), es[1..], h);
      }
    }
  }

  // ---------- Calls and their numbers ----------

  /** A number that was given out and whose call is over. */
  ghost predicate Finished(s: Source, number: int) {
    1 <= number <= s.counter && forall a :: a in s.numbers ==> s.numbers[a] != number
  }

  lemma FinishedStep(s: Source, e: Event, number: int)
    requires Refines(s) && FreshOpen(s, e) && Finished(s, number)
    ensures Finished(Step(0, s, e), number)
    ensures forall i :: 0 <= i < |Emits(s, e)| ==> Emits(s, e)[i].number != number
  {
    hide Size;
    match e
    case Binary(h, size) =>
      if h in s.connections {
        assert ConnectionOk(s.connections[h]);
        assert Summarises(s, s.connections[h].session);
        if s.connections[h].packets > 0 {
          assert h in Speaking(s.connections, s.connections[h].session);
        } else if size > 0 && s.connections[h].status == Started {
          FirstPacketShape(s, h, size);
        }
      }
    case _ =>
  }

  /** The number of a finished call never appears again: neither in the maps nor in the output. */
  lemma {:induction false} FinishedNumberNeverReappears(s: Source, es: seq<Event>, number: int)
    requires Refines(s) && FreshOpens(s, es) && Finished(s, number)
    ensures Finished(Run(0, s, es), number)
    ensures forall i :: 0 <= i < |Output(s, es)| ==> Output(s, es)[i].number != number
    decreases |es|
  {
    hide Size;
    if es != [] {
      FinishedStep(s, es[0], number);
      StepRefines(s, es[0]);
      hide Refines, Step, Emits, Finished;
      FinishedNumberNeverReappears(Step(0, s, es[0]), es[1..], number);
    }
  }

  /** The call goes on under the same number and verdict, or its number is finished. */
  ghost predicate VerdictKept(s: Source, s': Source, session: string)
    requires session in s.channels && s.channels.Keys <= s.numbers.Keys
  {
    if session in s'.channels then
      session in s'.numbers && s'.numbers[session] == s.numbers[session]
      && (session in s'.throttled <==> session in s.throttled)
    else Finished(s', s.numbers[session])
  }

  lemma VerdictOnPacket(s: Source, h: Handle, size: nat, session: string)
    requires Refines(s) && session in s.channels
    ensures VerdictKept(s, AfterBinary(s, h, size).0, session)
  {
    hide Size;
    if h in s.connections && size > 0 && s.connections[h].status == Started {
      if s.connections[h].packets == 0 {
        FirstPacketShape(s, h, size);
        hide AfterBinary;
      } else {
        LaterPacketRefines(s, h, size);
        hide AfterBinary;
      }
    }
  }

  lemma VerdictOnClose(s: Source, h: Handle, now: int, session: string)
    requires Refines(s) && session in s.channels
    ensures VerdictKept(s, AfterClose(s, h, now, 0), session)
  {
    hide Size, Summarises, OneFirstChannel;
  }

  /** One event either ends a call or leaves its number and the throttling verdict alone. */
  lemma VerdictStep(s: Source, e: Event, session: string)
    requires Refines(s) && FreshOpen(s, e) && session in s.channels
    ensures VerdictKept(s, Step(0, s, e), session)
  {
    hide Size, Summarises, OneFirstChannel, AfterBinary, AfterClose;
    match e
    case Binary(h, size) => VerdictOnPacket(s, h, size, session);
    case Close(h, now) => VerdictOnClose(s, h, now, session);
    case _ =>
  }

  /** A call is forwarded wholly or suppressed wholly: the verdict of its first packet holds for as long as the
      call, recognised by its number, is live. */
  lemma {:induction false} VerdictIsFinal(s: Source, es: seq<Event>, session: string)
    requires Refines(s) && FreshOpens(s, es) && session in s.channels
    requires var s' := Run(0, s, es); session in s'.numbers && s'.numbers[session] == s.numbers[session]
    ensures session in Run(0, s, es).throttled <==> session in s.throttled
    decreases |es|
  {
    hide Size;
    if es != [] {
      var s' := Step(0, s, es[0]);
      VerdictStep(s, es[0], session);
      StepRefines(s, es[0]);
      if session in s'.channels {
        hide Refines, Step;
        VerdictIsFinal(s', es[1..], session);
      } else {
        FinishedNumberNeverReappears(s', es[1..], s.numbers[session]);
        assert false;
      }
    }
  }

  /** The number of a voice is that of its call, which is live. */
  lemma StartedIsLive(s: Source, e: Event)
    requires Refines(s) && FreshOpen(s, e)
    ensures var s' := Step(0, s, e);
      forall v :: v in StartedBy(s, e) ==>
        && v.channel.session in s'.channels && v.channel.session in s'.numbers
        && v.channel.number == s'.numbers[v.channel.session] && (v.forwarded <==> v.channel.session !in s'.throttled)
  {
    hide Size;
    if e.Binary? && FirstPacketOf(s, e, e.h) {
      FirstPacketShape(s, e.h, e.size);
    }
  }

  lemma AtMostOneStarts(s: Source, e: Event)
    ensures |StartedBy(s, e)| <= 1
  {
    hide Step;
  }

  lemma {:induction false} FinishedHasNoVoice(s: Source, es: seq<Event>, number: int)
    requires Refines(s) && FreshOpens(s, es) && Finished(s, number)
    ensures forall v :: v in Voices(s, es) ==> v.channel.number != number
    decreases |es|
  {
    hide Size;
    if es != [] {
      var s' := Step(0, s, es[0]);
      FinishedStep(s, es[0], number);
      StepRefines(s, es[0]);
      StartedIsLive(s, es[0]);
      hide Refines, Step, StartedBy;
      FinishedHasNoVoice(s', es[1..], number);
    }
  }

  lemma DistinctNumbers(s: Source)
    requires Refines(s)
    ensures s.numbers.Keys == s.channels.Keys
    ensures forall a, b :: a in s.numbers && b in s.numbers && s.numbers[a] == s.numbers[b] ==> a == b
  {
    hide Size, Summarises, OneFirstChannel;
  }

  ghost predicate SameCallIfSameNumber(v: Voice, w: Voice) {
    v.channel.number == w.channel.number ==> v.channel.session == w.channel.session && v.forwarded == w.forwarded
  }

  /** Whoever speaks under the number of a live call speaks in its session and shares its verdict. */
  lemma {:induction false} VoicesOfCall(s: Source, es: seq<Event>, session: string)
    requires Refines(s) && FreshOpens(s, es) && session in s.channels && session in s.numbers
    ensures forall v :: v in Voices(s, es) && v.channel.number == s.numbers[session] ==>
      v.channel.session == session && (v.forwarded <==> session !in s.throttled)
    decreases |es|
  {
    hide Size;
    if es != [] {
      var s' := Step(0, s, es[0]);
      VerdictStep(s, es[0], session);
      StepRefines(s, es[0]);
      DistinctNumbers(s');
      StartedIsLive(s, es[0]);
      hide Refines, Step, StartedBy;
      if session in s'.channels {
        VoicesOfCall(s', es[1..], session);
      } else {
        FinishedHasNoVoice(s', es[1..], s.numbers[session]);
      }
    }
  }

  /** A call is forwarded wholly or suppressed wholly: all connections that ever speak under one call number belong to
      one session, and all of them are forwarded or none is. */
  lemma {:induction false} OneVerdictPerNumber(s: Source, es: seq<Event>)
    requires Refines(s) && FreshOpens(s, es)
    ensures forall v, w :: v in Voices(s, es) && w in Voices(s, es) ==> SameCallIfSameNumber(v, w)
    decreases |es|
  {
    if es != [] {
      var e, s', rest := es[0], Step(0, s, es[0]), Voices(Step(0, s, es[0]), es[1..]);
      assert FreshOpen(s, e) && FreshOpens(s', es[1..]);
      assert Voices(s, es) == StartedBy(s, e) + rest;
      hide *;
      StepRefines(s, e);
      StartedIsLive(s, e);
      AtMostOneStarts(s, e);
      OneVerdictPerNumber(s', es[1..]);
      forall v, w | v in StartedBy(s, e) && w in rest ensures SameCallIfSameNumber(v, w) && SameCallIfSameNumber(w, v) {
        VoicesOfCall(s', es[1..], v.channel.session);
        Agree(s', v, w);
      }
      forall v, w | v in StartedBy(s, e) && w in StartedBy(s, e) ensures SameCallIfSameNumber(v, w) {
        Agree(s', v, w);
      }
    }
  }

  lemma Agree(s: Source, v: Voice, w: Voice)
    requires v.channel.session in s.numbers && v.channel.number == s.numbers[v.channel.session]
    requires v.forwarded <==> v.channel.session !in s.throttled
    requires v == w || (w.channel.number == s.numbers[v.channel.session] ==>
      w.channel.session == v.channel.session && (w.forwarded <==> v.channel.session !in s.throttled))
    ensures SameCallIfSameNumber(v, w) && SameCallIfSameNumber(w, v)
  {
  }
}
