/** Safety of the WatsonSTT handshake over every interleaving: one invariant, kept by every step of either thread and of
    their surroundings. Tuples in use are not recycled, a connection is used only while it is listening, and the service
    gets every frame in turn. There is a lemma for each program counter, and they meet in StepKeeps. */
module HandshakeSafety {
  import opened Wrappers
  import opened Handshake

  // ---------- The invariant ----------

  /** The sender has seen that the conversation is over and clears up, or waits for nothing any more. */
  predicate Clearing(sender: Sender) {
    || sender.ClearFlag? || sender.ClearRecent? || sender.Recycle?
    || (sender.FinalSubmit? && sender.clean) || (sender.Finished? && sender.clean)
  }

  /** The sender is inside a conversation. */
  predicate Conversing(sender: Sender) {
    || sender.ClearRecent? || sender.Recycle? || sender.Token? || sender.ConnLoad? || sender.ConnStart?
    || sender.Connected? || sender.SendAudio? || sender.EndMedia?
  }

  predicate Stopping(sender: Sender) {
    sender.StopLoad? || sender.SendStop?
  }

  predicate AwaitingEnd(sender: Sender) {
    sender.Queue? || sender.WaitLoad? || sender.WaitTest? || sender.ClearFlag?
  }

  /** The sender has observed `listening` and is about to use the connection. */
  predicate Linking(sender: Sender) {
    sender.Connected? || sender.SendAudio? || sender.SendStop?
  }

  predicate ClosingDown(r: Receiver) {
    ClosingUp(r) || ((r.ErrorLoad? || r.ErrorSend?) && r.closing)
  }

  /** The steps at which a tuple may be waiting for its speaker labels. */
  predicate MayWait(r: Receiver) {
    || r.Run? || r.TestQueued? || r.StoreClosing? || r.CallClose? || r.Flush?
    || r.ErrorLoad? || r.UttFlush? || r.Label?
  }

  /** Every reference that either thread may still follow is to a tuple in the un-recycled wastebasket. */
  ghost predicate References(k: Control) {
    && (k.recent.Some? ==> k.recent.value in k.basket)
    && (Held(k.receiver).Some? ==> Held(k.receiver).value in k.basket)
    && (Active(k.receiver) && k.used.Some? ==> k.used.value in k.basket)
  }

  /** The receiver can reach no tuple and has nothing to submit. */
  predicate Quiet(k: Control) {
    && Held(k.receiver) == None && !Completing(k.receiver) && !k.receiver.CloseMarker?
    && (Active(k.receiver) ==> k.used == None && k.recent == None)
    && k.ws != Start && !Startup(k.receiver) && k.line != AwaitDone
  }

  ghost predicate Phases(k: Control) {
    && (k.finalized || Clearing(k.sender) ==> Quiet(k))
    && (k.sender.Recycle? ==> k.recent == None)
    && (k.finalized ==> k.mediaEnd)
    && (Conversing(k.sender) ==> !k.mediaEnd)
    && (Stopping(k.sender) ==> k.mediaEnd && !k.finalized)
    && (AwaitingEnd(k.sender) ==> k.mediaEnd)
  }

  /** How wsState and the receiver's position agree. */
  ghost predicate States(k: Control) {
    && (ReceiverHasStopped(k.ws) ==> AtRest(k.receiver))
    && (k.sender.WaitTest? && ReceiverHasStopped(k.sender.my) ==> ReceiverHasStopped(k.ws))
    && (k.sender.FinalTest? && ReceiverHasStopped(k.sender.my) ==> ReceiverHasStopped(k.ws))
    && (k.receiver.SetConnecting? ==> k.ws == Start)
    && (Startup(k.receiver) && !k.receiver.SetConnecting? ==> k.ws == if k.receiver.OpenSend? then Open else Connecting)
    && (k.ws == Idle ==> k.receiver.Poll? || k.receiver.Stopped?)
    && (k.sender.ConnStart? ==> k.ws == Idle || k.ws == Error || ReceiverHasStopped(k.ws))
    && (k.ws == Listening ==> k.handle == k.client && k.line != AwaitGreeting)
    && (k.receiver.Greet? ==> k.handle == k.client && k.line != AwaitGreeting && k.ws == Open)
    && (k.receiver.Run? && k.ws == Open ==> k.handle == k.client && k.line == AwaitGreeting)
  }

  /** Between observing `listening` and using the connection, nobody replaces the client. */
  ghost predicate Linked(k: Control) {
    Linking(k.sender) ==>
      && k.client == k.sender.c == k.handle
      && k.ws != Start && k.ws != Connecting && k.ws != Open && !Startup(k.receiver) && k.line != AwaitGreeting
  }

  ghost predicate Traffic(k: Control) {
    && k.line != Broken
    && (AtRest(k.receiver) || Startup(k.receiver) || ClosingDown(k.receiver) ==> k.line == Down)
    && (k.line == AwaitDone || Completing(k.receiver) ==>
          k.mediaEnd && !k.finalized && !Conversing(k.sender) && !Stopping(k.sender))
    && (Completing(k.receiver) ==> k.line != AwaitDone && (k.ws == Listening || k.ws == Closing))
    && (k.receiver.DoneMarker? || k.receiver.Finalize? ==> k.recent == None)
  }

  /** When a tuple can wait for speaker labels. */
  ghost predicate Waiting(k: Control) {
    && (Active(k.receiver) && k.used.Some? ==>
          (k.ws == Listening || k.receiver.CallClose? || k.receiver.Flush?) && MayWait(k.receiver))
    && (k.receiver.UttFlush? || k.receiver.UttLoad? || k.receiver.UttWrite? || k.receiver.Label? ==> k.ws == Listening)
  }

  ghost predicate Safe(k: Control) {
    References(k) && Phases(k) && States(k) && Linked(k) && Traffic(k) && Waiting(k)
  }

  lemma InitiallySafe()
    ensures Safe(Initial())
  {
  }

  // ---------- What each thread leaves alone ----------

  predicate Marks(r: Receiver) {
    r.DoneMarker? || r.CloseMarker?
  }

  /** Only the sender moves itself and the wastebasket; the receiver counts its window markers. */
  predicate ReceiverFrame(k: Control, k': Control) {
    && k'.sender == k.sender && k'.mediaEnd == k.mediaEnd && k'.basket == k.basket
    && k'.begun == k.begun && k'.shutdown == k.shutdown
    && k'.marked == k.marked + if Marks(k.receiver) then 1 else 0
  }

  lemma LoopFrame(k: Control)
    requires AtRest(k.receiver)
    ensures ReceiverFrame(k, LoopStep(k))
  {
  }

  lemma StartupFrame(k: Control)
    requires Startup(k.receiver)
    ensures ReceiverFrame(k, StartupStep(k))
  {
  }

  lemma StoppingFrame(c: Config, k: Control)
    requires k.receiver.TestQueued? || k.receiver.StoreClosing? || k.receiver.CallClose? || k.receiver.Flush?
    ensures ReceiverFrame(k, CompletionStep(c, k))
  {
  }

  lemma CompletedFrame(c: Config, k: Control)
    requires k.receiver.DoneLoad? || k.receiver.DoneSend? || k.receiver.DoneClear? || k.receiver.DoneMarker?
      || k.receiver.Finalize?
    ensures ReceiverFrame(k, CompletionStep(c, k))
  {
  }

  lemma CompletionFrame(c: Config, k: Control)
    requires Completing(k.receiver)
    ensures ReceiverFrame(k, CompletionStep(c, k))
  {
    hide CompletionStep, ReceiverFrame;
    if k.receiver.TestQueued? || k.receiver.StoreClosing? || k.receiver.CallClose? || k.receiver.Flush? {
      StoppingFrame(c, k);
    } else {
      CompletedFrame(c, k);
    }
  }

  lemma CloseFrame(c: Config, k: Control)
    requires ClosingUp(k.receiver)
    ensures ReceiverFrame(k, CloseStep(c, k))
  {
  }

  lemma ErrorFrame(k: Control)
    requires !Marks(k.receiver)
    ensures ReceiverFrame(k, ErrorStep(k))
  {
  }

  lemma UtteranceFrame(c: Config, k: Control)
    requires k.receiver.UttFlush? || k.receiver.UttLoad? || k.receiver.UttWrite?
    ensures ReceiverFrame(k, MessageStep(c, k))
  {
  }

  lemma MessageFrame(c: Config, k: Control)
    requires k.receiver.Greet? || k.receiver.ErrorStore? || k.receiver.Label? || k.receiver.Run? || k.receiver.ErrorLoad?
      || k.receiver.ErrorSend?
    ensures ReceiverFrame(k, MessageStep(c, k))
  {
  }

  lemma ReceiverSparesSender(c: Config, k: Control)
    ensures ReceiverFrame(k, ReceiverStep(c, k))
  {
    hide LoopStep, StartupStep, CompletionStep, CloseStep, ErrorStep, MessageStep, ReceiverFrame;
    if AtRest(k.receiver) {
      LoopFrame(k);
    } else if Startup(k.receiver) {
      StartupFrame(k);
    } else if Completing(k.receiver) {
      CompletionFrame(c, k);
    } else if ClosingUp(k.receiver) {
      CloseFrame(c, k);
    } else if k.receiver.UttFlush? || k.receiver.UttLoad? || k.receiver.UttWrite? {
      UtteranceFrame(c, k);
    } else {
      ErrorFrame(k);
      MessageFrame(c, k);
    }
  }

  /** Only the receiver moves itself, counts markers and sets up connections. */
  predicate SenderFrame(k: Control, k': Control) {
    k'.receiver == k.receiver && k'.used == k.used && k'.marked == k.marked && k'.client == k.client
  }

  lemma WaitingFrame(k: Control)
    requires k.sender.Queue? || k.sender.WaitLoad? || k.sender.WaitTest?
    ensures SenderFrame(k, ProcessStep(k)) && ProcessStep(k).line == k.line && ProcessStep(k).basket == k.basket
  {
  }

  lemma ClearingFrame(k: Control)
    requires !(k.sender.Queue? || k.sender.WaitLoad? || k.sender.WaitTest?)
    ensures SenderFrame(k, ProcessStep(k)) && ProcessStep(k).line == k.line
    ensures ProcessStep(k).basket == if k.sender.Recycle? then {} else k.basket
  {
  }

  lemma ProcessFrame(k: Control)
    ensures SenderFrame(k, ProcessStep(k)) && ProcessStep(k).line == k.line
    ensures ProcessStep(k).basket == if k.sender.Recycle? then {} else k.basket
  {
    hide ProcessStep, SenderFrame;
    if k.sender.Queue? || k.sender.WaitLoad? || k.sender.WaitTest? {
      WaitingFrame(k);
    } else {
      ClearingFrame(k);
    }
  }

  lemma ConnectFrame(k: Control, t: TupleId)
    ensures SenderFrame(k, ConnectStep(k, t)) && ConnectStep(k, t).line == k.line
    ensures ConnectStep(k, t).basket == if k.sender.Connected? then k.basket + {t} else k.basket
  {
  }

  lemma SpokenFrame(k: Control)
    requires k.sender.SendAudio? || k.sender.SendStop?
    ensures SenderFrame(k, SendStep(k)) && SendStep(k).basket == k.basket
    ensures SendStep(k).line == if k.sender.SendAudio? then AudioOn(k.line) else StopOn(k.line)
  {
    hide AudioOn, StopOn;
  }

  lemma UnspokenFrame(k: Control)
    requires !k.sender.SendAudio? && !k.sender.SendStop?
    ensures SenderFrame(k, SendStep(k)) && SendStep(k).basket == k.basket && SendStep(k).line == k.line
  {
    hide AudioOn, StopOn;
  }

  lemma SendFrame(k: Control)
    ensures SenderFrame(k, SendStep(k)) && SendStep(k).basket == k.basket
    ensures SendStep(k).line ==
      if k.sender.SendAudio? then AudioOn(k.line) else if k.sender.SendStop? then StopOn(k.line) else k.line
  {
    hide SendStep, SenderFrame, AudioOn, StopOn;
    if k.sender.SendAudio? || k.sender.SendStop? {
      SpokenFrame(k);
    } else {
      UnspokenFrame(k);
    }
  }

  lemma FinalFrame(k: Control)
    ensures SenderFrame(k, FinalStep(k)) && FinalStep(k).basket == k.basket && FinalStep(k).line == k.line
  {
  }

  lemma SenderSparesReceiver(k: Control, t: TupleId)
    ensures SenderFrame(k, SenderStep(k, t))
    ensures SenderStep(k, t).basket ==
      if k.sender.Connected? then k.basket + {t} else if k.sender.Recycle? then {} else k.basket
    ensures SenderStep(k, t).line ==
      if k.sender.SendAudio? then AudioOn(k.line) else if k.sender.SendStop? then StopOn(k.line) else k.line
  {
    ProcessFrame(k);
    ConnectFrame(k, t);
    SendFrame(k);
    FinalFrame(k);
    hide ProcessStep, ConnectStep, SendStep, FinalStep, SenderFrame, AudioOn, StopOn;
  }

  // ---------- Every step keeps it ----------

  /** References and waiting tuples do not depend on where the sender is. */
  lemma ReferencesStay(k: Control, k': Control)
    requires References(k) && Waiting(k)
    requires k'.receiver == k.receiver && k'.ws == k.ws && k'.recent == k.recent && k'.used == k.used && k'.basket == k.basket
    ensures References(k') && Waiting(k')
  {
  }

  lemma QueueKeeps(k: Control)
    requires Safe(k) && k.sender.Queue?
    ensures Safe(ProcessStep(k))
  {
    hide AtRest, Startup, Completing, ClosingDown, MayWait, Held, Active;
  }

  lemma WaitLoadKeeps(k: Control)
    requires Safe(k) && k.sender.WaitLoad?
    ensures Safe(ProcessStep(k))
  {
    hide AtRest, Startup, Completing, ClosingDown, MayWait, Held, Active;
  }

  lemma WaitTestKeeps(k: Control)
    requires Safe(k) && k.sender.WaitTest?
    ensures Safe(ProcessStep(k))
  {
    ReferencesStay(k, ProcessStep(k));
    hide References, Waiting;
  }

  lemma ClearFlagKeeps(k: Control)
    requires Safe(k) && k.sender.ClearFlag?
    ensures Safe(ProcessStep(k))
  {
    hide AtRest, Startup, Completing, ClosingDown, MayWait, Held, Active;
  }

  lemma ClearRecentKeeps(k: Control)
    requires Safe(k) && k.sender.ClearRecent?
    ensures Safe(ProcessStep(k))
  {
    hide AtRest, Startup, Completing, ClosingDown, MayWait, Held, Active;
  }

  lemma RecycleKeeps(k: Control)
    requires Safe(k) && k.sender.Recycle?
    ensures Safe(ProcessStep(k))
  {
  }

  lemma TokenKeeps(k: Control)
    requires Safe(k) && k.sender.Token?
    ensures Safe(ProcessStep(k))
  {
    hide AtRest, Startup, Completing, ClosingDown, MayWait, Held, Active;
  }

  lemma ConnLoadKeeps(k: Control, t: TupleId)
    requires Safe(k) && k.sender.ConnLoad?
    ensures Safe(ConnectStep(k, t))
  {
    hide AtRest, Startup, Completing, ClosingDown, MayWait, Held, Active;
  }

  lemma ConnStartKeeps(k: Control, t: TupleId)
    requires Safe(k) && k.sender.ConnStart?
    ensures Safe(ConnectStep(k, t))
  {
  }

  lemma ConnectedKeeps(k: Control, t: TupleId)
    requires Safe(k) && k.sender.Connected? && t !in k.basket
    ensures Safe(ConnectStep(k, t))
  {
  }

  lemma SendAudioKeeps(k: Control)
    requires Safe(k) && k.sender.SendAudio?
    ensures Safe(SendStep(k))
  {
    hide AtRest, Startup, Completing, ClosingDown, MayWait, Held, Active;
  }

  lemma EndMediaKeeps(k: Control)
    requires Safe(k) && k.sender.EndMedia?
    ensures Safe(SendStep(k))
  {
    hide AtRest, Startup, Completing, ClosingDown, MayWait, Held, Active;
  }

  lemma StopLoadKeeps(k: Control)
    requires Safe(k) && k.sender.StopLoad?
    ensures Safe(SendStep(k))
  {
    hide AtRest, Startup, Completing, ClosingDown, MayWait, Held, Active;
  }

  lemma SendStopKeeps(k: Control)
    requires Safe(k) && k.sender.SendStop?
    ensures Safe(SendStep(k))
  {
    hide AtRest, Startup, Completing, ClosingDown, MayWait, Held, Active;
  }

  lemma FinalLoadKeeps(k: Control)
    requires Safe(k) && k.sender.FinalLoad?
    ensures Safe(FinalStep(k))
  {
    hide AtRest, Startup, Completing, ClosingDown, MayWait, Held, Active;
  }

  lemma FinalTestKeeps(k: Control)
    requires Safe(k) && k.sender.FinalTest?
    ensures Safe(FinalStep(k))
  {
    ReferencesStay(k, FinalStep(k));
    hide References, Waiting;
  }

  lemma FinalSubmitKeeps(k: Control)
    requires Safe(k) && k.sender.FinalSubmit?
    ensures Safe(FinalStep(k))
  {
    hide AtRest, Startup, Completing, ClosingDown, MayWait, Held, Active;
  }

  lemma SenderKeeps(k: Control, t: TupleId)
    requires Safe(k) && Enabled(k, SenderMoves(t))
    ensures Safe(SenderStep(k, t))
  {
    hide Safe, ProcessStep, ConnectStep, SendStep, FinalStep;
    match k.sender
    case Queue(_) => QueueKeeps(k);
    case WaitLoad(_, _) => WaitLoadKeeps(k);
    case WaitTest(_, _) => WaitTestKeeps(k);
    case ClearFlag(_) => ClearFlagKeeps(k);
    case ClearRecent(_) => ClearRecentKeeps(k);
    case Recycle(_) => RecycleKeeps(k);
    case Token(_) => TokenKeeps(k);
    case ConnLoad(_, _) => ConnLoadKeeps(k, t);
    case ConnStart(_) => ConnStartKeeps(k, t);
    case Connected(_, _) => ConnectedKeeps(k, t);
    case SendAudio(_) => SendAudioKeeps(k);
    case EndMedia => EndMediaKeeps(k);
    case StopLoad => StopLoadKeeps(k);
    case SendStop(_) => SendStopKeeps(k);
    case FinalLoad => FinalLoadKeeps(k);
    case FinalTest(_) => FinalTestKeeps(k);
    case FinalSubmit(_) => FinalSubmitKeeps(k);
    case Ready => IdleSender(k);
    case Finished(_) => IdleSender(k);
  }

  lemma IdleSender(k: Control)
    requires k.sender.Ready? || k.sender.Finished?
    ensures FinalStep(k) == k
  {
  }

  lemma PollKeeps(k: Control)
    requires Safe(k) && k.receiver.Poll?
    ensures Safe(LoopStep(k))
  {
    hide Clearing, Conversing, Stopping, AwaitingEnd, Linking;
  }

  lemma AfterRunKeeps(k: Control)
    requires Safe(k) && k.receiver.AfterRun?
    ensures Safe(LoopStep(k))
  {
    hide Clearing, Conversing, Stopping, AwaitingEnd, Linking;
  }

  lemma CrashKeeps(k: Control)
    requires Safe(k) && k.receiver.Crash?
    ensures Safe(LoopStep(k))
  {
    hide Clearing, Conversing, Stopping, AwaitingEnd, Linking;
  }

  lemma EndClearKeeps(k: Control)
    requires Safe(k) && k.receiver.EndClear?
    ensures Safe(LoopStep(k))
  {
    hide Clearing, Conversing, Stopping, AwaitingEnd, Linking;
  }

  lemma SetConnectingKeeps(k: Control)
    requires Safe(k) && k.receiver.SetConnecting?
    ensures Safe(StartupStep(k))
  {
    hide Clearing, Conversing, Stopping, AwaitingEnd, Linking;
  }

  lemma ReplaceClientKeeps(k: Control)
    requires Safe(k) && k.receiver.ReplaceClient?
    ensures Safe(StartupStep(k))
  {
    hide Clearing, Conversing, Stopping, AwaitingEnd, Linking;
  }

  lemma FailRecentKeeps(k: Control)
    requires Safe(k) && k.receiver.FailRecent?
    ensures Safe(StartupStep(k))
  {
    hide Clearing, Conversing, Stopping, AwaitingEnd, Linking;
  }

  lemma FailStoreKeeps(k: Control)
    requires Safe(k) && k.receiver.FailStore?
    ensures Safe(StartupStep(k))
  {
    hide Clearing, Conversing, Stopping, AwaitingEnd, Linking;
  }

  lemma OpenStoreKeeps(k: Control)
    requires Safe(k) && k.receiver.OpenStore?
    ensures Safe(StartupStep(k))
  {
    hide Clearing, Conversing, Stopping, AwaitingEnd, Linking;
  }

  lemma OpenSendKeeps(k: Control)
    requires Safe(k) && k.receiver.OpenSend?
    ensures Safe(StartupStep(k))
  {
    hide Clearing, Conversing, Stopping, AwaitingEnd, Linking;
  }

  lemma TestQueuedKeeps(c: Config, k: Control)
    requires Safe(k) && k.receiver.TestQueued?
    ensures Safe(CompletionStep(c, k))
  {
    hide Clearing, Conversing, Stopping, AwaitingEnd, Linking;
  }

  lemma StoreClosingKeeps(c: Config, k: Control)
    requires Safe(k) && k.receiver.StoreClosing?
    ensures Safe(CompletionStep(c, k))
  {
    hide Clearing, Conversing, Stopping, AwaitingEnd, Linking;
  }

  lemma CallCloseKeeps(c: Config, k: Control)
    requires Safe(k) && k.receiver.CallClose?
    ensures Safe(CompletionStep(c, k))
  {
    hide Clearing, Conversing, Stopping, AwaitingEnd, Linking;
  }

  lemma FlushKeeps(c: Config, k: Control)
    requires Safe(k) && k.receiver.Flush?
    ensures Safe(CompletionStep(c, k))
  {
    hide Clearing, Conversing, Stopping, AwaitingEnd, Linking;
  }

  lemma DoneLoadKeeps(c: Config, k: Control)
    requires Safe(k) && k.receiver.DoneLoad?
    ensures Safe(CompletionStep(c, k))
  {
    hide Clearing, Conversing, Stopping, AwaitingEnd, Linking;
  }

  lemma DoneSendKeeps(c: Config, k: Control)
    requires Safe(k) && k.receiver.DoneSend?
    ensures Safe(CompletionStep(c, k))
  {
    hide Clearing, Conversing, Stopping, AwaitingEnd, Linking;
  }

  lemma DoneClearKeeps(c: Config, k: Control)
    requires Safe(k) && k.receiver.DoneClear?
    ensures Safe(CompletionStep(c, k))
  {
    hide Clearing, Conversing, Stopping, AwaitingEnd, Linking;
  }

  lemma DoneMarkerKeeps(c: Config, k: Control)
    requires Safe(k) && k.receiver.DoneMarker?
    ensures Safe(CompletionStep(c, k))
  {
    hide Clearing, Conversing, Stopping, AwaitingEnd, Linking;
  }

  lemma FinalizeKeeps(c: Config, k: Control)
    requires Safe(k) && k.receiver.Finalize?
    ensures Safe(CompletionStep(c, k))
  {
    hide Clearing, Conversing, Stopping, AwaitingEnd, Linking;
  }

  lemma CloseLoadKeeps(c: Config, k: Control)
    requires Safe(k) && k.receiver.CloseLoad?
    ensures Safe(CloseStep(c, k))
  {
    hide Clearing, Conversing, Stopping, AwaitingEnd, Linking;
  }

  lemma CloseDoneKeeps(c: Config, k: Control)
    requires Safe(k) && k.receiver.CloseDone?
    ensures Safe(CloseStep(c, k))
  {
    hide Clearing, Conversing, Stopping, AwaitingEnd, Linking;
  }

  lemma CloseMarkerKeeps(c: Config, k: Control)
    requires Safe(k) && k.receiver.CloseMarker?
    ensures Safe(CloseStep(c, k))
  {
    hide Clearing, Conversing, Stopping, AwaitingEnd, Linking;
  }

  lemma CloseClearKeeps(c: Config, k: Control)
    requires Safe(k) && k.receiver.CloseClear?
    ensures Safe(CloseStep(c, k))
  {
    hide Clearing, Conversing, Stopping, AwaitingEnd, Linking;
  }

  lemma CloseStoreKeeps(c: Config, k: Control)
    requires Safe(k) && k.receiver.CloseStore?
    ensures Safe(CloseStep(c, k))
  {
    hide Clearing, Conversing, Stopping, AwaitingEnd, Linking;
  }

  lemma ErrorLoadKeeps(k: Control)
    requires Safe(k) && k.receiver.ErrorLoad?
    ensures Safe(ErrorStep(k))
  {
    hide Clearing, Conversing, Stopping, AwaitingEnd, Linking;
  }

  lemma ErrorSendKeeps(k: Control)
    requires Safe(k) && k.receiver.ErrorSend?
    ensures Safe(ErrorStep(k))
  {
    hide Clearing, Conversing, Stopping, AwaitingEnd, Linking;
  }

  lemma GreetKeeps(c: Config, k: Control)
    requires Safe(k) && k.receiver.Greet?
    ensures Safe(MessageStep(c, k))
  {
    hide Clearing, Conversing, Stopping, AwaitingEnd, Linking;
  }

  lemma ErrorStoreKeeps(c: Config, k: Control)
    requires Safe(k) && k.receiver.ErrorStore?
    ensures Safe(MessageStep(c, k))
  {
    hide Clearing, Conversing, Stopping, AwaitingEnd, Linking;
  }

  lemma UttFlushKeeps(c: Config, k: Control)
    requires Safe(k) && k.receiver.UttFlush?
    ensures Safe(MessageStep(c, k))
  {
    hide Clearing, Conversing, Stopping, AwaitingEnd, Linking;
  }

  lemma UttLoadKeeps(c: Config, k: Control)
    requires Safe(k) && k.receiver.UttLoad? && k.recent.Some?
    ensures Safe(MessageStep(c, k))
  {
    hide Clearing, Conversing, Stopping, AwaitingEnd, Linking;
  }

  lemma UttWriteKeeps(c: Config, k: Control)
    requires Safe(k) && k.receiver.UttWrite?
    ensures Safe(MessageStep(c, k))
  {
    hide Clearing, Conversing, Stopping, AwaitingEnd, Linking;
  }

  lemma LabelKeeps(c: Config, k: Control)
    requires Safe(k) && k.receiver.Label?
    ensures Safe(MessageStep(c, k))
  {
    hide Clearing, Conversing, Stopping, AwaitingEnd, Linking;
  }

  lemma ReceiverKeeps(c: Config, k: Control)
    requires Safe(k)
    ensures Safe(ReceiverStep(c, k))
  {
    hide Safe, LoopStep, StartupStep, CompletionStep, CloseStep, ErrorStep, MessageStep;
    match k.receiver
    case Poll => PollKeeps(k);
    case AfterRun => AfterRunKeeps(k);
    case Crash => CrashKeeps(k);
    case EndClear => EndClearKeeps(k);
    case SetConnecting => SetConnectingKeeps(k);
    case ReplaceClient => ReplaceClientKeeps(k);
    case FailRecent => FailRecentKeeps(k);
    case FailStore => FailStoreKeeps(k);
    case OpenStore => OpenStoreKeeps(k);
    case OpenSend => OpenSendKeeps(k);
    case TestQueued => TestQueuedKeeps(c, k);
    case StoreClosing => StoreClosingKeeps(c, k);
    case CallClose => CallCloseKeeps(c, k);
    case Flush => FlushKeeps(c, k);
    case DoneLoad => DoneLoadKeeps(c, k);
    case DoneSend(_) => DoneSendKeeps(c, k);
    case DoneClear => DoneClearKeeps(c, k);
    case DoneMarker => DoneMarkerKeeps(c, k);
    case Finalize => FinalizeKeeps(c, k);
    case CloseLoad => CloseLoadKeeps(c, k);
    case CloseDone(_) => CloseDoneKeeps(c, k);
    case CloseMarker => CloseMarkerKeeps(c, k);
    case CloseClear => CloseClearKeeps(c, k);
    case CloseStore => CloseStoreKeeps(c, k);
    case ErrorLoad(_) => ErrorLoadKeeps(k);
    case ErrorSend(_, _) => ErrorSendKeeps(k);
    case Greet => GreetKeeps(c, k);
    case ErrorStore => ErrorStoreKeeps(c, k);
    case UttFlush(_, _) => UttFlushKeeps(c, k);
    case UttLoad(_, _) => if k.recent.Some? { UttLoadKeeps(c, k); } else { UttLoadThrows(c, k); }
    case UttWrite(_, _, _) => UttWriteKeeps(c, k);
    case Label(_) => LabelKeeps(c, k);
    case Dial => StayKeeps(c, k);
    case Run => StayKeeps(c, k);
    case Stopped => StayKeeps(c, k);
  }

  lemma UttLoadThrows(c: Config, k: Control)
    requires Safe(k) && k.receiver.UttLoad? && k.recent == None
    ensures Safe(MessageStep(c, k))
  {
    FaultKeeps(k);
    hide Safe;
  }

  lemma StayKeeps(c: Config, k: Control)
    requires k.receiver.Dial? || k.receiver.Run? || k.receiver.Stopped?
    ensures ReceiverStep(c, k) == k
  {
  }

  lemma FaultKeeps(k: Control)
    requires Safe(k) && (MayFail(k.receiver) || k.receiver.UttLoad?)
    ensures Safe(Throw(k))
  {
    hide Clearing, Conversing, Stopping, AwaitingEnd, Linking;
  }

  lemma ListeningKeeps(k: Control, m: Message)
    requires Safe(k) && k.receiver == Run && Expected(k.line, m) && Acceptable(k.ws, m) && m.state.Some?
    ensures Safe(OnMessage(k, m))
  {
    hide Clearing, Conversing, Stopping, AwaitingEnd, Linking;
  }

  lemma ResultsKeep(k: Control, m: Message)
    requires Safe(k) && k.receiver == Run && Expected(k.line, m) && Acceptable(k.ws, m) && m.state == None
    ensures Safe(OnMessage(k, m))
  {
    hide Clearing, Conversing, Stopping, AwaitingEnd, Linking;
  }

  lemma MessageKeeps(k: Control, m: Message)
    requires Safe(k) && k.receiver == Run && Expected(k.line, m)
    ensures Safe(OnMessage(k, m))
  {
    if !Acceptable(k.ws, m) {
      FaultKeeps(k);
    } else if m.state.Some? {
      ListeningKeeps(k, m);
    } else {
      ResultsKeep(k, m);
    }
    hide Safe, Acceptable;
  }

  lemma CloseKeeps(k: Control)
    requires Safe(k) && k.receiver == Run
    ensures Safe(OnClose(k))
  {
    hide Clearing, Conversing, Stopping, AwaitingEnd, Linking;
  }

  lemma InputKeeps(c: Config, k: Control, a: Action)
    requires Safe(k) && Enabled(k, a) && (a.Input? || a.InputWindowMarker? || a.InputFinalMarker? || a.SenderGivesUp?)
    ensures Safe(Apply(c, k, a))
  {
  }

  lemma ReceiverInputKeeps(c: Config, k: Control, a: Action)
    requires Safe(k) && Enabled(k, a) && (a.ReceiverStops? || a.Dialled? || a.RequestShutdown?)
    ensures Safe(Apply(c, k, a))
  {
    hide Clearing, Conversing, Stopping, AwaitingEnd, Linking;
  }

  lemma StepKeeps(c: Config, k: Control, a: Action)
    requires Safe(k) && Enabled(k, a)
    ensures Safe(Apply(c, k, a))
  {
    hide Safe, SenderStep, ReceiverStep, OnMessage, OnClose, Throw;
    match a
    case SenderMoves(t) => SenderKeeps(k, t);
    case ReceiverMoves => ReceiverKeeps(c, k);
    case Message(m) => MessageKeeps(k, m);
    case ConnectionCloses => CloseKeeps(k);
    case Fault => FaultKeeps(k);
    case Input(_) => InputKeeps(c, k, a);
    case InputWindowMarker => InputKeeps(c, k, a);
    case InputFinalMarker => InputKeeps(c, k, a);
    case SenderGivesUp => InputKeeps(c, k, a);
    case ReceiverStops => ReceiverInputKeeps(c, k, a);
    case Dialled(_) => ReceiverInputKeeps(c, k, a);
    case RequestShutdown => ReceiverInputKeeps(c, k, a);
  }
}
