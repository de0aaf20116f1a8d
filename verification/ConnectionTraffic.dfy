/** The frames that pass over the connections of the WatsonSTT operator, in the order in which they are sent. */
module ConnectionTraffic {
  import opened Wrappers
  import opened Handshake
  import opened HandshakeSafety
  import opened Transcript
  import opened TranscriptProperties

  /** Start, audio and stop go to the service, listening comes from it; Cut is the end of the connection. */
  datatype Frame = StartFrame | AudioFrame | StopFrame | ListeningFrame | Cut

  /** The frame of one action. What is sent after the connection was lost reaches nobody. */
  function FrameOf(k: Control, a: Action): seq<Frame> {
    match a
    case SenderMoves(_) =>
      if k.line == Down then [] else if k.sender.SendAudio? then [AudioFrame] else if k.sender.SendStop? then [StopFrame] else []
    case ReceiverMoves =>
      if k.receiver.OpenSend? then [StartFrame] else if k.receiver.UttLoad? && k.recent == None then [Cut] else []
    case Message(m) =>
      if !Acceptable(k.ws, m) then [Cut] else if m.state.Some? then [ListeningFrame] else []
    case ConnectionCloses => [Cut]
    case Fault => [Cut]
    case _ => []
  }

  function Frames(c: Config, s: State, actions: seq<Action>): seq<Frame>
    requires Executable(c, s, actions)
    decreases |actions|
  {
    if actions == [] then [] else FrameOf(s.k, actions[0]) + Frames(c, Step(c, s, actions[0]), actions[1..])
  }

  /** The discipline of a connection: greeting first, then audio, and a stop that is answered before anything else. */
  function NextPhase(p: Line, f: Frame): Line {
    match f
    case Cut => if p == Broken then Broken else Down
    case StartFrame => if p == Down then AwaitGreeting else Broken
    case ListeningFrame => if ListeningDue(p) then Talking else Broken
    case AudioFrame => if p == Talking then Talking else Broken
    case StopFrame => if p == Talking then AwaitDone else Broken
  }

  function Phase(p: Line, frames: seq<Frame>): Line
    decreases |frames|
  {
    if frames == [] then p else Phase(NextPhase(p, frames[0]), frames[1..])
  }

  lemma {:induction false} PhaseConcat(p: Line, a: seq<Frame>, b: seq<Frame>)
    ensures Phase(p, a + b) == Phase(Phase(p, a), b)
    decreases |a|
  {
    if a == [] {
      assert a + b == b;
    } else {
      assert (a + b)[0] == a[0] && (a + b)[1..] == a[1..] + b;
      PhaseConcat(NextPhase(p, a[0]), a[1..], b);
    }
  }

  lemma PhaseOne(p: Line, f: Frame)
    ensures Phase(p, [f]) == NextPhase(p, f)
  {
    assert [f][1..] == [];
  }

  lemma SendsInTurn(k: Control)
    requires Safe(k)
    ensures k.sender.SendAudio? || k.sender.SendStop? ==> k.line == Talking || k.line == Down
  {
    hide References, Waiting;
  }

  lemma SenderFrames(c: Config, k: Control, t: TupleId)
    requires Safe(k)
    ensures Phase(k.line, FrameOf(k, SenderMoves(t))) == SenderStep(k, t).line
  {
    SenderSparesReceiver(k, t);
    SendsInTurn(k);
    PhaseOne(k.line, AudioFrame);
    PhaseOne(k.line, StopFrame);
    hide Safe, SenderStep;
  }

  /** Only setting up a connection and a throw change the line in a step of the receiver. */
  lemma ReceiverLine(c: Config, k: Control)
    ensures k.receiver.OpenSend? ==> ReceiverStep(c, k).line == AwaitGreeting
    ensures k.receiver.UttLoad? && k.recent == None ==> ReceiverStep(c, k).line == Down
    ensures !k.receiver.OpenSend? && !(k.receiver.UttLoad? && k.recent == None) ==> ReceiverStep(c, k).line == k.line
  {
    LoopLine(k);
    StartupLine(k);
    CompletionLine(c, k);
    CloseLine(c, k);
    MessageLine(c, k);
    hide LoopStep, StartupStep, CompletionStep, CloseStep, MessageStep;
  }

  lemma LoopLine(k: Control)
    ensures LoopStep(k).line == k.line
  {
  }

  lemma StartupLine(k: Control)
    ensures StartupStep(k).line == if k.receiver.OpenSend? then AwaitGreeting else k.line
  {
  }

  lemma CompletionLine(c: Config, k: Control)
    ensures CompletionStep(c, k).line == k.line
  {
  }

  lemma CloseLine(c: Config, k: Control)
    ensures CloseStep(c, k).line == k.line
  {
  }

  lemma MessageLine(c: Config, k: Control)
    ensures MessageStep(c, k).line == if k.receiver.UttLoad? && k.recent == None then Down else k.line
  {
  }

  lemma ReceiverFrames(c: Config, k: Control)
    requires Safe(k)
    ensures Phase(k.line, FrameOf(k, ReceiverMoves)) == ReceiverStep(c, k).line
  {
    ReceiverLine(c, k);
    assert k.line != Broken && (k.receiver.OpenSend? ==> k.line == Down);
    PhaseOne(k.line, StartFrame);
    PhaseOne(k.line, Cut);
    hide Safe, ReceiverStep;
  }

  lemma NotBroken(k: Control)
    requires Safe(k)
    ensures k.line != Broken
  {
    hide References, Phases, States, Linked, Waiting;
  }

  lemma NetworkFrames(c: Config, k: Control, a: Action)
    requires k.line != Broken && Enabled(k, a) && (a.Message? || a.ConnectionCloses? || a.Fault?)
    ensures Phase(k.line, FrameOf(k, a)) == Apply(c, k, a).line
  {
    PhaseOne(k.line, ListeningFrame);
    PhaseOne(k.line, Cut);
  }

  /** No other event of the surroundings puts a frame on the line. */
  lemma SilentEvents(c: Config, k: Control, a: Action)
    requires Enabled(k, a) && !a.SenderMoves? && !a.ReceiverMoves?
    requires !(a.Message? || a.ConnectionCloses? || a.Fault?)
    ensures Phase(k.line, FrameOf(k, a)) == Apply(c, k, a).line
  {
  }

  lemma EventFrames(c: Config, k: Control, a: Action)
    requires Safe(k) && Enabled(k, a) && !a.SenderMoves? && !a.ReceiverMoves?
    ensures Phase(k.line, FrameOf(k, a)) == Apply(c, k, a).line
  {
    hide *;
    NotBroken(k);
    if a.Message? || a.ConnectionCloses? || a.Fault? {
      NetworkFrames(c, k, a);
    } else {
      SilentEvents(c, k, a);
    }
  }

  lemma StepFrames(c: Config, k: Control, a: Action)
    requires Safe(k) && Enabled(k, a)
    ensures Phase(k.line, FrameOf(k, a)) == Apply(c, k, a).line
  {
    match a
    case SenderMoves(t) =>
      SenderFrames(c, k, t);
      hide Safe, SenderStep, FrameOf, Phase;
    case ReceiverMoves =>
      ReceiverFrames(c, k);
      hide Safe, ReceiverStep, FrameOf, Phase;
    case _ =>
      EventFrames(c, k, a);
      hide *;
  }

  lemma {:induction false} RunFrames(c: Config, s: State, actions: seq<Action>)
    requires Sound(c, s) && Executable(c, s, actions)
    ensures Phase(s.k.line, Frames(c, s, actions)) == Execute(c, s, actions).k.line
    decreases |actions|
  {
    if actions != [] {
      var s' := Step(c, s, actions[0]);
      StepFrames(c, s.k, actions[0]);
      StepSound(c, s, actions[0]);
      assert s'.k == Apply(c, s.k, actions[0]);
      hide Sound, Apply, Enabled, ContentStep, FrameOf, Phase;
      RunFrames(c, s', actions[1..]);
      PhaseConcat(s.k.line, FrameOf(s.k, actions[0]), Frames(c, s', actions[1..]));
    }
  }

  /** Every connection of every run keeps the discipline. */
  lemma TrafficIsBracketed(c: Config, actions: seq<Action>)
    requires Executable(c, Beginning(), actions)
    ensures Phase(Down, Frames(c, Beginning(), actions)) != Broken
  {
    ReachableSound(c, []);
    RunFrames(c, Beginning(), actions);
    ConnectionUsedInTurn(c, actions);
    hide *;
  }

  // ---------- What the discipline means ----------

  predicate FromClient(f: Frame) {
    f == AudioFrame || f == StopFrame
  }

  lemma {:induction false} BrokenStays(frames: seq<Frame>)
    ensures Phase(Broken, frames) == Broken
    decreases |frames|
  {
    if frames != [] {
      BrokenStays(frames[1..]);
    }
  }

  /** While a stop is unanswered the client sends nothing: neither audio nor a second stop. */
  lemma {:induction false} SilentUntilAnswered(frames: seq<Frame>, j: nat)
    requires j < |frames| && FromClient(frames[j]) && Phase(AwaitDone, frames) != Broken
    ensures exists i :: 0 <= i < j && (frames[i] == ListeningFrame || frames[i] == Cut)
    decreases |frames|
  {
    BrokenStays(frames[1..]);
    assert frames[0] == ListeningFrame || frames[0] == Cut;
  }

  lemma {:induction false} PhaseSplit(p: Line, frames: seq<Frame>, i: nat)
    requires i <= |frames| && Phase(p, frames) != Broken
    ensures Phase(p, frames[..i]) != Broken && Phase(p, frames) == Phase(Phase(p, frames[..i]), frames[i..])
  {
    assert frames == frames[..i] + frames[i..];
    PhaseConcat(p, frames[..i], frames[i..]);
    if Phase(p, frames[..i]) == Broken {
      BrokenStays(frames[i..]);
    }
  }

  /** Between a stop and the next audio or stop lies the `listening` that answers it, or the end of the connection. */
  lemma AnsweredBetween(frames: seq<Frame>, i: nat, j: nat)
    requires Phase(Down, frames) != Broken && i < j < |frames|
    requires frames[i] == StopFrame && FromClient(frames[j])
    ensures exists m :: i < m < j && (frames[m] == ListeningFrame || frames[m] == Cut)
  {
    PhaseSplit(Down, frames, i);
    var rest := frames[i..];
    assert rest[0] == StopFrame && rest[1..] == frames[i + 1..];
    BrokenStays(frames[i + 1..]);
    assert Phase(AwaitDone, frames[i + 1..]) != Broken;
    SilentUntilAnswered(frames[i + 1..], j - i - 1);
    var m :| 0 <= m < j - i - 1 && (frames[i + 1..][m] == ListeningFrame || frames[i + 1..][m] == Cut);
    assert frames[i + 1 + m] == frames[i + 1..][m];
  }

  /** No audio between a stop and its completion, and at most one stop outstanding, on every run. */
  lemma NothingSentUntilAnswered(c: Config, actions: seq<Action>, i: nat, j: nat)
    requires Executable(c, Beginning(), actions)
    requires var frames := Frames(c, Beginning(), actions);
      i < j < |frames| && frames[i] == StopFrame && FromClient(frames[j])
    ensures var frames := Frames(c, Beginning(), actions);
      exists m :: i < m < j && (frames[m] == ListeningFrame || frames[m] == Cut)
  {
    TrafficIsBracketed(c, actions);
    hide Phase, Frames, Executable;
    AnsweredBetween(Frames(c, Beginning(), actions), i, j);
  }
}
