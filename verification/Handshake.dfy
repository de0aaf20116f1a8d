/** The WatsonSTT operator: the thread that sends audio, the thread that receives results, and what they share.
    Every load, store and submission that the other thread can observe is one step; steps interleave freely. */
module Handshake {
  import opened Wrappers
  import opened SpeakerAlignment

  datatype WsState = Idle | Start | Connecting | Open | Listening | Closing | Error | Closed | Failed | Crashed

  predicate ReceiverHasStopped(ws: WsState) {
    ws == Closed || ws == Failed || ws == Crashed
  }

  /** As in the code: Error is not among them, although the comment at its declaration calls it transient. */
  predicate ReceiverHasTransientState(ws: WsState) {
    ws == Start || ws == Connecting || ws == Open || ws == Closing
  }

  datatype Config = Config(complete: bool, identifySpeakers: bool, nonFinalNeeded: bool, completedRequested: bool)

  type TupleId = nat
  type Connection = nat

  // ---------- What is received and what is submitted ----------

  type SpeakerLabels = l: Labels | l.Parallel() witness Labels([], [], [])

  /** One utterance result: the attributes that are set together. */
  datatype Result = Result(index: int, text: string, starts: seq<real>)

  const BLANK := Result(-1, "", [])

  datatype Utterance = Utterance(result: Result, firstFinal: bool)

  /** A decoded message: Some(true) is the state `listening`. A list is absent if it is empty. */
  datatype Message =
    | Undecodable
    | Decoded(state: Option<bool>, error: bool, utterance: Option<Utterance>, labels: Option<SpeakerLabels>)

  // ---------- The two program counters ----------

  datatype Blob = ReadError | Empty | Audio

  /** Where the sender is; c is the connection whose `listening` it has observed. */
  datatype Sender =
    | Ready
    | Queue(b: Blob)                       // about to raise nextConversationQueued
    | WaitLoad(b: Blob, again: bool)       // about to load wsState; again: after blocking
    | WaitTest(b: Blob, my: WsState)       // about to load transcriptionFinalized
    | ClearFlag(b: Blob)
    | ClearRecent(b: Blob)
    | Recycle(b: Blob)
    | Token(b: Blob)                       // waiting for an access token
    | ConnLoad(b: Blob, again: bool)       // connect: about to load wsState
    | ConnStart(b: Blob)                   // connect: about to request a connection
    | Connected(b: Blob, c: Connection)    // about to publish the tuple
    | SendAudio(c: Connection)
    | EndMedia                             // about to lower nextConversationQueued
    | StopLoad                             // sendActionStop: about to load wsState
    | SendStop(c: Connection)
    | FinalLoad | FinalTest(my: WsState) | FinalSubmit(clean: bool)
    | Finished(clean: bool)                // after the final marker; clean unless a shutdown cut the waiting short

  datatype Receiver =
    | Poll | Stopped
    | SetConnecting | ReplaceClient | Dial | FailRecent | FailStore | OpenStore | OpenSend
    | Run                                  // the event loop of a connection
    | Greet
    | TestQueued | StoreClosing | CallClose | Flush
    | DoneLoad | DoneSend(t: TupleId) | DoneClear | DoneMarker | Finalize
    | ErrorLoad(closing: bool) | ErrorSend(t: TupleId, closing: bool) | ErrorStore
    | UttFlush(u: Utterance, l: Option<SpeakerLabels>) | UttLoad(u: Utterance, l: Option<SpeakerLabels>)
    | UttWrite(t: TupleId, u: Utterance, l: Option<SpeakerLabels>)
    | Label(labels: SpeakerLabels)
    | CloseLoad | CloseDone(t: TupleId) | CloseMarker | CloseClear | CloseStore
    | AfterRun | Crash | EndClear

  /** The traffic of the current connection, as a monitor: Broken is for frames out of turn. */
  datatype Line = Down | AwaitGreeting | Talking | AwaitDone | Broken

  /** Everything that decides what a thread does next. */
  datatype Control = Control(
    ws: WsState, finalized: bool, queued: bool, recent: Option<TupleId>,   // the shared atomics
    client: Connection, handle: Connection,                                // wsClient and wsHandle
    sender: Sender, mediaEnd: bool, basket: set<TupleId>,                  // basket: tuples not yet recycled
    receiver: Receiver, used: Option<TupleId>,
    line: Line, shutdown: bool,
    begun: nat, marked: nat, smooth: bool)                                 // history, for ConversationEnds

  function Initial(): Control {
    Control(Idle, true, false, None, 0, 0, Ready, true, {}, Poll, None, Down, false, 0, 0, true)
  }

  // ---------- The sender ----------

  function AudioOn(line: Line): Line {
    match line
    case Down => Down
    case Talking => Talking
    case _ => Broken
  }

  function StopOn(line: Line): Line {
    match line
    case Down => Down
    case Talking => AwaitDone
    case _ => Broken
  }

  /** process_0 up to the access token. */
  function ProcessStep(k: Control): Control {
    match k.sender
    case Queue(b) => k.(queued := true, sender := WaitLoad(b, false))
    case WaitLoad(b, _) => k.(sender := WaitTest(b, k.ws))
    case WaitTest(b, my) => k.(sender := if k.finalized || ReceiverHasStopped(my) then ClearFlag(b) else WaitLoad(b, true))
    case ClearFlag(b) => k.(finalized := false, mediaEnd := false, begun := k.begun + 1, sender := ClearRecent(b))
    case ClearRecent(b) => k.(recent := None, sender := Recycle(b))
    case Recycle(b) => k.(basket := {}, sender := Token(b))
    case Token(b) => k.(sender := ConnLoad(b, false))
    case _ => k
  }

  /** connect, and the publication of the tuple after it; t is the address of the created tuple. */
  function ConnectStep(k: Control, t: TupleId): Control {
    match k.sender
    case ConnLoad(b, _) =>
      k.(sender := if k.ws == Listening then Connected(b, k.client)
                   else if ReceiverHasTransientState(k.ws) then ConnLoad(b, true)
                   else ConnStart(b))
    case ConnStart(b) => k.(ws := Start, sender := ConnLoad(b, true))
    case Connected(b, c) =>
      k.(basket := k.basket + {t}, recent := Some(t), sender := if b == Audio then SendAudio(c) else EndMedia)
    case _ => k
  }

  /** sendDataToSTT, and the end of the media with sendActionStop. */
  function SendStep(k: Control): Control {
    match k.sender
    case SendAudio(_) => k.(line := AudioOn(k.line), sender := Ready)
    case EndMedia => k.(mediaEnd := true, queued := false, sender := StopLoad)
    case StopLoad => k.(sender := if k.ws == Listening then SendStop(k.client) else Ready)
    case SendStop(_) => k.(line := StopOn(k.line), sender := Ready)
    case _ => k
  }

  /** processPunct_0 for the final marker. */
  function FinalStep(k: Control): Control {
    match k.sender
    case FinalLoad => k.(sender := FinalTest(k.ws))
    case FinalTest(my) => k.(sender := if k.finalized || ReceiverHasStopped(my) then FinalSubmit(true) else FinalLoad)
    case FinalSubmit(clean) => k.(sender := Finished(clean))
    case _ => k
  }

  predicate Processing(sender: Sender) {
    || sender.Queue? || sender.WaitLoad? || sender.WaitTest?
    || sender.ClearFlag? || sender.ClearRecent? || sender.Recycle? || sender.Token?
  }

  predicate InConnect(sender: Sender) {
    sender.ConnLoad? || sender.ConnStart? || sender.Connected?
  }

  predicate Sending(sender: Sender) {
    sender.SendAudio? || sender.EndMedia? || sender.StopLoad? || sender.SendStop?
  }

  /** The sender's next step. */
  function SenderStep(k: Control, t: TupleId): Control {
    if Processing(k.sender) then ProcessStep(k)
    else if InConnect(k.sender) then ConnectStep(k, t)
    else if Sending(k.sender) then SendStep(k)
    else FinalStep(k)
  }

  /** A shutdown request lets the sender return from its waits. */
  predicate MayGiveUp(sender: Sender) {
    || ((sender.WaitLoad? || sender.ConnLoad?) && sender.again) || sender.Token? || sender.Connected? || sender.FinalTest?
  }

  function GiveUp(k: Control): Control {
    k.(sender := if k.sender.FinalTest? then FinalSubmit(false) else Ready)
  }

  /** An input tuple: it starts a conversation if the previous one has ended. */
  function OnInput(k: Control, b: Blob): Control {
    k.(sender := if k.mediaEnd then Queue(b) else Token(b))
  }

  /** A window marker ends the conversation; one that follows a marker is ignored. */
  function OnWindowMarker(k: Control): Control {
    if k.mediaEnd then k else k.(sender := EndMedia)
  }

  // ---------- The receiver ----------

  function NumFound(m: Message): nat
    requires m.Decoded?
  {
    (if m.state.Some? then 1 else 0) + (if m.error then 1 else 0)
    + (if m.utterance.Some? then 1 else 0) + (if m.labels.Some? then 1 else 0)
  }

  /** The checks on which on_message throws. */
  predicate Acceptable(ws: WsState, m: Message) {
    && (ws == Open || ws == Listening)
    && m.Decoded?
    && !(NumFound(m) > 2 || (NumFound(m) == 2 && !(m.utterance.Some? && m.labels.Some?)))
    && m.state != Some(false)
  }

  /** The branch that on_message takes. */
  function Dispatch(ws: WsState, m: Message): Receiver
    requires Acceptable(ws, m)
  {
    if m.state.Some? then (if ws == Open then Greet else TestQueued)
    else if m.error then ErrorLoad(false)
    else if m.utterance.Some? then UttFlush(m.utterance.value, m.labels)
    else if m.labels.Some? then Label(m.labels.value)
    else Run
  }

  /** The service owes a `listening`. */
  predicate ListeningDue(line: Line) {
    line == AwaitGreeting || line == AwaitDone
  }

  /** A handler or the event loop throws, and the connection is gone. */
  function Throw(k: Control): Control {
    k.(receiver := Crash, line := Down, smooth := false)
  }

  /** A message arrives: the entry state is loaded and the payload decoded. */
  function OnMessage(k: Control, m: Message): Control {
    if !Acceptable(k.ws, m) then Throw(k)
    else
      k.(receiver := Dispatch(k.ws, m),
         line := if m.state.Some? && ListeningDue(k.line) then Talking else k.line,
         smooth := k.smooth && !m.error)
  }

  /** on_close up to its load of wsState. */
  function OnClose(k: Control): Control {
    k.(receiver := if k.ws == Listening then ErrorLoad(true) else if k.ws == Error then CloseLoad else CloseClear,
       line := Down,
       smooth := k.smooth && k.ws == Closing)
  }

  function IsFinal(c: Config, u: Utterance): bool {
    c.complete || u.firstFinal
  }

  /** The receiver's copy of recentOTuple. */
  function Held(r: Receiver): Option<TupleId> {
    match r
    case DoneSend(t) => Some(t)
    case ErrorSend(t, _) => Some(t)
    case UttWrite(t, _, _) => Some(t)
    case CloseDone(t) => Some(t)
    case _ => None
  }

  /** A connection attempt or an event loop is under way, so oTupleUsedForSubmission is in use. */
  predicate Active(r: Receiver) {
    !(r.Poll? || r.Stopped? || r.SetConnecting? || r.AfterRun? || r.Crash? || r.EndClear?)
  }

  function AfterError(closing: bool): Receiver {
    if closing then CloseLoad else ErrorStore
  }

  /** ws_init up to the event loop. */
  function StartupStep(k: Control): Control {
    match k.receiver
    case SetConnecting => k.(ws := Connecting, used := None, receiver := ReplaceClient)
    case ReplaceClient => k.(client := k.client + 1, receiver := Dial)
    case FailRecent => k.(recent := None, receiver := FailStore)
    case FailStore => k.(ws := Failed, receiver := AfterRun)
    case OpenStore => k.(ws := Open, receiver := OpenSend)
    case OpenSend => k.(line := AwaitGreeting, handle := k.client, receiver := Run)
    case _ => k
  }

  /** on_message for the `listening` that answers a stop. */
  function CompletionStep(c: Config, k: Control): Control {
    match k.receiver
    case TestQueued => k.(receiver := if k.queued then Flush else StoreClosing)
    case StoreClosing => k.(ws := Closing, receiver := CallClose)
    case CallClose => k.(receiver := Flush)
    case Flush => k.(used := None, receiver := if c.completedRequested then DoneLoad else DoneClear)
    case DoneLoad => k.(receiver := if k.recent.Some? then DoneSend(k.recent.value) else DoneClear)
    case DoneSend(_) => k.(receiver := DoneClear)
    case DoneClear => k.(recent := None, receiver := DoneMarker)
    case DoneMarker => k.(marked := k.marked + 1, receiver := Finalize)
    case Finalize => k.(finalized := true, receiver := Run)
    case _ => k
  }

  /** The other branches of on_message. */
  function MessageStep(c: Config, k: Control): Control {
    match k.receiver
    case Greet => k.(ws := Listening, receiver := Run)
    case ErrorStore => k.(ws := Error, receiver := Run)
    case UttFlush(u, l) => k.(used := None, receiver := UttLoad(u, l))
    case UttLoad(u, l) => if k.recent == None then Throw(k) else k.(receiver := UttWrite(k.recent.value, u, l))
    case UttWrite(t, u, l) =>
      k.(used := if IsFinal(c, u) && c.identifySpeakers then Some(t) else k.used,
         receiver := if l == None then Run else Label(l.value))
    case Label(_) => k.(used := if c.identifySpeakers then None else k.used, receiver := Run)
    case _ => k
  }

  /** sendErrorTuple, called for an error message and when a listening connection closes. */
  function ErrorStep(k: Control): Control {
    match k.receiver
    case ErrorLoad(closing) =>
      k.(used := None,
         receiver := if k.used == None && k.recent.Some? then ErrorSend(k.recent.value, closing) else AfterError(closing))
    case ErrorSend(_, closing) => k.(receiver := AfterError(closing))
    case _ => k
  }

  /** The rest of on_close. */
  function CloseStep(c: Config, k: Control): Control {
    match k.receiver
    case CloseLoad =>
      k.(receiver := if k.recent == None then CloseClear
                     else if c.completedRequested then CloseDone(k.recent.value) else CloseMarker)
    case CloseDone(_) => k.(receiver := CloseMarker)
    case CloseMarker => k.(marked := k.marked + 1, receiver := CloseClear)
    case CloseClear => k.(recent := None, receiver := CloseStore)
    case CloseStore => k.(ws := Closed, receiver := AfterRun)
    case _ => k
  }

  /** ws_init outside a connection. */
  function LoopStep(k: Control): Control {
    match k.receiver
    case Poll => k.(receiver := if k.ws == Start then SetConnecting else Poll)
    case AfterRun => k.(receiver := EndClear)
    case Crash => k.(ws := Crashed, receiver := EndClear)
    case EndClear => k.(recent := None, receiver := Poll)
    case _ => k
  }

  /** The receiver works on a connection that is not yet established. */
  predicate Startup(r: Receiver) {
    r.SetConnecting? || r.ReplaceClient? || r.Dial? || r.FailRecent? || r.FailStore? || r.OpenStore? || r.OpenSend?
  }

  /** The receiver processes the `listening` that answers a stop. */
  predicate Completing(r: Receiver) {
    || r.TestQueued? || r.StoreClosing? || r.CallClose? || r.Flush?
    || r.DoneLoad? || r.DoneSend? || r.DoneClear? || r.DoneMarker? || r.Finalize?
  }

  predicate ClosingUp(r: Receiver) {
    r.CloseLoad? || r.CloseDone? || r.CloseMarker? || r.CloseClear? || r.CloseStore?
  }

  predicate AtRest(r: Receiver) {
    r.AfterRun? || r.Crash? || r.EndClear? || r.Poll? || r.Stopped?
  }

  /** The receiver's next step, where it depends on nothing but the state. */
  function ReceiverStep(c: Config, k: Control): Control {
    if AtRest(k.receiver) then LoopStep(k)
    else if Startup(k.receiver) then StartupStep(k)
    else if Completing(k.receiver) then CompletionStep(c, k)
    else if ClosingUp(k.receiver) then CloseStep(c, k)
    else if k.receiver.ErrorLoad? || k.receiver.ErrorSend? then ErrorStep(k)
    else MessageStep(c, k)
  }

  // ---------- Interleaving ----------

  datatype Action =
    | Input(b: Blob) | InputWindowMarker | InputFinalMarker
    | SenderMoves(t: TupleId) | SenderGivesUp
    | ReceiverMoves | ReceiverStops
    | Dialled(ok: bool) | Message(m: Message) | ConnectionCloses | Fault
    | RequestShutdown

  /** The steps at which code that this model does not look into may throw. */
  predicate MayFail(r: Receiver) {
    r.ReplaceClient? || r.Dial? || r.OpenSend? || r.Run? || r.CallClose? || r.AfterRun?
  }

  /** The service: one `listening` after the start message and one after each stop, and no results before the first. */
  predicate Expected(line: Line, m: Message) {
    m.Decoded? ==>
      && (m.state.Some? ==> ListeningDue(line))
      && (m.utterance.Some? || m.labels.Some? ==> line != AwaitGreeting)
  }

  predicate Enabled(k: Control, a: Action) {
    match a
    case Input(_) => k.sender == Ready
    case InputWindowMarker => k.sender == Ready
    case InputFinalMarker => k.sender == Ready
    case SenderMoves(t) => k.sender.Connected? ==> t !in k.basket
    case SenderGivesUp => k.shutdown && MayGiveUp(k.sender)
    case ReceiverMoves => true
    case ReceiverStops => k.shutdown && k.receiver == Poll
    case Dialled(_) => k.receiver == Dial
    case Message(m) => k.receiver == Run && Expected(k.line, m)
    case ConnectionCloses => k.receiver == Run
    case Fault => MayFail(k.receiver)
    case RequestShutdown => true
  }

  function Apply(c: Config, k: Control, a: Action): Control
    requires Enabled(k, a)
  {
    match a
    case Input(b) => OnInput(k, b)
    case InputWindowMarker => OnWindowMarker(k)
    case InputFinalMarker => k.(sender := FinalLoad)
    case SenderMoves(t) => SenderStep(k, t)
    case SenderGivesUp => GiveUp(k)
    case ReceiverMoves => ReceiverStep(c, k)
    case ReceiverStops => k.(receiver := Stopped)
    case Dialled(ok) => k.(receiver := if ok then OpenStore else FailRecent)
    case Message(m) => OnMessage(k, m)
    case ConnectionCloses => OnClose(k)
    case Fault => Throw(k)
    case RequestShutdown => k.(shutdown := true, smooth := false)
  }

  /** A condition as a number, for counting over runs. */
  function One(b: bool): nat {
    if b then 1 else 0
  }
}
