/** The handshake seen through wsState: which value may follow which, what the sender does in each, and when a message
    is acceptable. */
module HandshakeStates {
  import opened Wrappers
  import opened Handshake
  import opened HandshakeSafety
  import opened Transcript
  import opened TranscriptProperties

  // ---------- The order of the states ----------

  /** The value that may follow the current one, and who writes it. */
  predicate MayFollow(k: Control, ws: WsState) {
    || ws == k.ws
    || (ws == Start && k.sender.ConnStart?
        && (k.ws == Idle || k.ws == Error || k.ws == Closed || k.ws == Failed || k.ws == Crashed))
    || (ws == Connecting && k.ws == Start)
    || ((ws == Open || ws == Failed) && k.ws == Connecting)
    || (ws == Listening && k.ws == Open)
    || (ws == Closing && k.ws == Listening)
    || (ws == Error && k.receiver.ErrorStore?)
    || (ws == Closed && k.receiver.CloseStore?)
    || (ws == Crashed && k.receiver.Crash?)
  }

  lemma LoopFollows(k: Control)
    requires AtRest(k.receiver)
    ensures MayFollow(k, LoopStep(k).ws)
  {
  }

  lemma StartupFollows(k: Control)
    requires Startup(k.receiver) && States(k)
    ensures MayFollow(k, StartupStep(k).ws)
  {
  }

  lemma CompletionFollows(c: Config, k: Control)
    requires Completing(k.receiver) && Traffic(k)
    ensures MayFollow(k, CompletionStep(c, k).ws)
  {
    hide Conversing, Stopping, AtRest, Startup, ClosingDown;
  }

  lemma CloseFollows(c: Config, k: Control)
    requires ClosingUp(k.receiver)
    ensures MayFollow(k, CloseStep(c, k).ws)
  {
  }

  lemma ErrorFollows(k: Control)
    ensures MayFollow(k, ErrorStep(k).ws)
  {
  }

  lemma MessageKeepsState(c: Config, k: Control)
    requires !k.receiver.Greet? && !k.receiver.ErrorStore?
    ensures MessageStep(c, k).ws == k.ws
  {
  }

  lemma MessageFollows(c: Config, k: Control)
    requires States(k)
    ensures MayFollow(k, MessageStep(c, k).ws)
  {
    if k.receiver.Greet? {
      assert k.ws == Open;
      hide States;
    } else {
      hide States;
      if !k.receiver.ErrorStore? {
        MessageKeepsState(c, k);
        hide MessageStep;
      }
    }
  }

  lemma ReceiverFollows(c: Config, k: Control)
    requires Safe(k)
    ensures MayFollow(k, ReceiverStep(c, k).ws)
  {
    assert States(k) && Traffic(k);
    hide Safe, States, Traffic, MayFollow, LoopStep, StartupStep, CompletionStep, CloseStep, ErrorStep, MessageStep;
    if AtRest(k.receiver) {
      LoopFollows(k);
    } else if Startup(k.receiver) {
      StartupFollows(k);
    } else if Completing(k.receiver) {
      CompletionFollows(c, k);
    } else if ClosingUp(k.receiver) {
      CloseFollows(c, k);
    } else if k.receiver.ErrorLoad? || k.receiver.ErrorSend? {
      ErrorFollows(k);
    } else {
      MessageFollows(c, k);
    }
  }

  lemma ProcessFollows(k: Control)
    ensures ProcessStep(k).ws == k.ws
  {
  }

  lemma ConnectFollows(k: Control, t: TupleId)
    requires States(k)
    ensures MayFollow(k, ConnectStep(k, t).ws)
  {
  }

  lemma SendFollows(k: Control)
    ensures SendStep(k).ws == k.ws && FinalStep(k).ws == k.ws
  {
    hide AudioOn, StopOn;
  }

  lemma SenderFollows(k: Control, t: TupleId)
    requires Safe(k)
    ensures MayFollow(k, SenderStep(k, t).ws)
  {
    assert States(k);
    ProcessFollows(k);
    ConnectFollows(k, t);
    SendFollows(k);
    hide Safe, States, ProcessStep, ConnectStep, SendStep, FinalStep;
  }

  lemma SurroundingsFollow(c: Config, k: Control, a: Action)
    requires Enabled(k, a) && !a.SenderMoves? && !a.ReceiverMoves?
    ensures Apply(c, k, a).ws == k.ws
  {
  }

  lemma StepFollows(c: Config, k: Control, a: Action)
    requires Safe(k) && Enabled(k, a)
    ensures MayFollow(k, Apply(c, k, a).ws)
  {
    hide Safe, SenderStep, ReceiverStep;
    match a
    case SenderMoves(t) =>
      SenderFollows(k, t);
      hide MayFollow;
    case ReceiverMoves =>
      ReceiverFollows(c, k);
      hide MayFollow;
    case _ => SurroundingsFollow(c, k, a);
  }

  /** In every run the states follow each other in the order of their declaration: a connection is requested only over a
      state in which none is set up or used, and no step skips a stage of its way up or down. */
  lemma StatesInOrder(c: Config, actions: seq<Action>, a: Action)
    requires Executable(c, Beginning(), actions) && Enabled(Execute(c, Beginning(), actions).k, a)
    ensures var k := Execute(c, Beginning(), actions).k; MayFollow(k, Apply(c, k, a).ws)
  {
    ReachableSound(c, actions);
    SoundSafe(c, Execute(c, Beginning(), actions));
    hide Executable, Execute, Sound, Safe, MayFollow, Apply, Enabled;
    StepFollows(c, Execute(c, Beginning(), actions).k, a);
  }

  lemma SoundSafe(c: Config, s: State)
    requires Sound(c, s)
    ensures Safe(s.k)
  {
    hide Safe, Told;
  }

  // ---------- What the sender does in each state ----------

  /** When the sender looks for a connection: it uses one that is listening, waits while one is being set up or closed, and
      requests one in every other state, the error state included. */
  lemma ConnectDecides(k: Control, t: TupleId)
    requires k.sender.ConnLoad?
    ensures var next, b := SenderStep(k, t).sender, k.sender.b;
      match k.ws
      case Listening => next == Connected(b, k.client)
      case Start => next == ConnLoad(b, true)
      case Connecting => next == ConnLoad(b, true)
      case Open => next == ConnLoad(b, true)
      case Closing => next == ConnLoad(b, true)
      case _ => next == ConnStart(b)
  {
  }

  /** When the sender waits for the end of a conversation: it goes on as soon as the conversation is final, or over a
      receiver that had closed, failed or crashed when it looked. */
  lemma WaitDecides(k: Control, t: TupleId)
    requires k.sender.WaitTest?
    ensures SenderStep(k, t).sender ==
      if k.finalized || k.sender.my in {Closed, Failed, Crashed} then ClearFlag(k.sender.b) else WaitLoad(k.sender.b, true)
  {
  }

  // ---------- Which messages are acceptable ----------

  /** A message is acceptable on an open or listening connection if it can be decoded and says at most one thing, or brings
      an utterance together with its labels; a state must be `listening`. Anything else is a throw. */
  lemma AcceptableIff(ws: WsState, m: Message)
    ensures Acceptable(ws, m) <==>
      && (ws == Open || ws == Listening) && m.Decoded?
      && (m.state.Some? ==> m.state.value && !m.error && m.utterance.None? && m.labels.None?)
      && (m.error ==> m.utterance.None? && m.labels.None?)
  {
    if m.Decoded? && m.state.Some? {
      if m.state.value {
        assert m.state == Some(true);
      } else {
        assert m.state == Some(false);
      }
    }
  }
}
