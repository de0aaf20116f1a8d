/** What becomes of the input of the WatsonSTT operator. */
module AudioFlow {
  import opened Wrappers
  import opened Handshake
  import opened HandshakeSafety
  import opened Transcript

  /** The blob that the sender is working on. */
  function BlobInHand(sender: Sender): Option<Blob> {
    match sender
    case Queue(b) => Some(b)
    case WaitLoad(b, _) => Some(b)
    case WaitTest(b, _) => Some(b)
    case ClearFlag(b) => Some(b)
    case ClearRecent(b) => Some(b)
    case Recycle(b) => Some(b)
    case Token(b) => Some(b)
    case ConnLoad(b, _) => Some(b)
    case ConnStart(b) => Some(b)
    case Connected(b, _) => Some(b)
    case SendAudio(_) => Some(Audio)
    case _ => None
  }

  /** Audio blobs that came in and are still in hand, were sent on a connection, or were given up at a shutdown. */
  function AudioBalance(k: Control, a: Action, k': Control): int {
    One(a == Input(Audio)) + One(BlobInHand(k.sender) == Some(Audio))
    - One(a.SenderMoves? && k.sender.SendAudio?) - One(a.SenderGivesUp? && BlobInHand(k.sender) == Some(Audio))
    - One(BlobInHand(k'.sender) == Some(Audio))
  }

  /** An empty blob, or one that could not be read, ends the media like a window marker. */
  predicate AsksToEnd(k: Control, a: Action) {
    (a.Input? && a.b != Audio) || (a.InputWindowMarker? && !k.mediaEnd)
  }

  predicate Ending(sender: Sender) {
    sender == EndMedia || (BlobInHand(sender).Some? && BlobInHand(sender) != Some(Audio))
  }

  function EndBalance(k: Control, a: Action, k': Control): int {
    One(AsksToEnd(k, a)) + One(Ending(k.sender))
    - One(a.SenderMoves? && k.sender == EndMedia) - One(a.SenderGivesUp? && Ending(k.sender))
    - One(Ending(k'.sender))
  }

  /** After the end of the media: a stop is sent if the connection is listening, and skipped if it is not. */
  function StopBalance(k: Control, a: Action, k': Control): int {
    One(a.SenderMoves? && k.sender == EndMedia) + One(Stopping(k.sender))
    - One(a.SenderMoves? && k.sender.SendStop?) - One(a.SenderMoves? && k.sender == StopLoad && k.ws != Listening)
    - One(Stopping(k'.sender))
  }

  predicate Balanced(k: Control, a: Action, k': Control) {
    AudioBalance(k, a, k') == 0 && EndBalance(k, a, k') == 0 && StopBalance(k, a, k') == 0
  }

  lemma WaitBalance(k: Control, t: TupleId)
    requires k.sender.Queue? || k.sender.WaitLoad? || k.sender.WaitTest?
    ensures Balanced(k, SenderMoves(t), ProcessStep(k))
  {
  }

  lemma ClearBalance(k: Control, t: TupleId)
    requires k.sender.ClearFlag? || k.sender.ClearRecent? || k.sender.Recycle? || k.sender.Token?
    ensures Balanced(k, SenderMoves(t), ProcessStep(k))
  {
  }

  lemma LoadBalance(k: Control, t: TupleId)
    requires k.sender.ConnLoad? || k.sender.ConnStart?
    ensures Balanced(k, SenderMoves(t), ConnectStep(k, t))
  {
  }

  lemma PublishBalance(k: Control, t: TupleId)
    requires k.sender.Connected?
    ensures Balanced(k, SenderMoves(t), ConnectStep(k, t))
  {
  }

  lemma SendBalance(k: Control, t: TupleId)
    requires Sending(k.sender)
    ensures Balanced(k, SenderMoves(t), SendStep(k))
  {
    hide AudioOn, StopOn;
  }

  /** Between two inputs, or after the final marker. */
  predicate Resting(sender: Sender) {
    sender.Ready? || sender.FinalLoad? || sender.FinalTest? || sender.FinalSubmit? || sender.Finished?
  }

  lemma NothingAtRest(sender: Sender)
    requires Resting(sender)
    ensures BlobInHand(sender) == None && !Ending(sender) && !Stopping(sender)
    ensures !sender.SendAudio? && !sender.EndMedia? && !sender.SendStop? && !sender.StopLoad?
  {
  }

  lemma FinalStepRests(k: Control)
    requires Resting(k.sender)
    ensures Resting(FinalStep(k).sender)
  {
  }

  lemma NoneElse(sender: Sender)
    requires !Processing(sender) && !InConnect(sender) && !Sending(sender)
    ensures Resting(sender)
  {
  }

  lemma FinalBalance(k: Control, t: TupleId)
    requires !Processing(k.sender) && !InConnect(k.sender) && !Sending(k.sender)
    ensures Balanced(k, SenderMoves(t), FinalStep(k))
  {
    hide Processing, InConnect, Sending, Resting, BlobInHand, Ending, Stopping, FinalStep;
    NoneElse(k.sender);
    FinalStepRests(k);
    NothingAtRest(k.sender);
    NothingAtRest(FinalStep(k).sender);
  }

  lemma SenderBalance(k: Control, t: TupleId)
    ensures Balanced(k, SenderMoves(t), SenderStep(k, t))
  {
    hide Balanced, ProcessStep, ConnectStep, SendStep, FinalStep;
    if k.sender.Queue? || k.sender.WaitLoad? || k.sender.WaitTest? {
      WaitBalance(k, t);
    } else if Processing(k.sender) {
      ClearBalance(k, t);
    } else if k.sender.Connected? {
      PublishBalance(k, t);
    } else if InConnect(k.sender) {
      LoadBalance(k, t);
    } else if Sending(k.sender) {
      SendBalance(k, t);
    } else {
      FinalBalance(k, t);
    }
  }

  /** Nobody but the sender and its input moves the sender. */
  lemma OtherBalance(k: Control, a: Action, k': Control)
    requires k'.sender == k.sender
    requires !a.SenderMoves? && !a.Input? && !a.InputWindowMarker? && !a.SenderGivesUp?
    ensures Balanced(k, a, k')
  {
  }

  lemma InputBalance(c: Config, k: Control, a: Action)
    requires Enabled(k, a) && (a.Input? || a.InputWindowMarker? || a.InputFinalMarker? || a.SenderGivesUp?)
    ensures Balanced(k, a, Apply(c, k, a))
  {
  }

  lemma SurroundingsSpareSender(c: Config, k: Control, a: Action)
    requires Enabled(k, a)
    requires a.ReceiverStops? || a.Dialled? || a.Message? || a.ConnectionCloses? || a.Fault? || a.RequestShutdown?
    ensures Apply(c, k, a).sender == k.sender
  {
  }

  lemma StepBalance(c: Config, k: Control, a: Action)
    requires Enabled(k, a)
    ensures Balanced(k, a, Apply(c, k, a))
  {
    hide Balanced, SenderStep, ReceiverStep;
    match a
    case SenderMoves(t) => SenderBalance(k, t);
    case ReceiverMoves =>
      ReceiverSparesSender(c, k);
      OtherBalance(k, a, ReceiverStep(c, k));
    case Input(_) => InputBalance(c, k, a);
    case InputWindowMarker => InputBalance(c, k, a);
    case InputFinalMarker => InputBalance(c, k, a);
    case SenderGivesUp => InputBalance(c, k, a);
    case _ =>
      SurroundingsSpareSender(c, k, a);
      OtherBalance(k, a, Apply(c, k, a));
  }

  // ---------- Counted over a run ----------

  datatype Counts = Counts(
    audioIn: nat, audioSent: nat, audioGivenUp: nat,
    endsAsked: nat, endsMade: nat, endsGivenUp: nat,
    stopsSent: nat, stopsSkipped: nat)

  function Count(c: Config, s: State, actions: seq<Action>): Counts
    requires Executable(c, s, actions)
    decreases |actions|
  {
    if actions == [] then Counts(0, 0, 0, 0, 0, 0, 0, 0)
    else
      var k, a, n := s.k, actions[0], Count(c, Step(c, s, actions[0]), actions[1..]);
      Counts(n.audioIn + One(a == Input(Audio)),
             n.audioSent + One(a.SenderMoves? && k.sender.SendAudio?),
             n.audioGivenUp + One(a.SenderGivesUp? && BlobInHand(k.sender) == Some(Audio)),
             n.endsAsked + One(AsksToEnd(k, a)),
             n.endsMade + One(a.SenderMoves? && k.sender == EndMedia),
             n.endsGivenUp + One(a.SenderGivesUp? && Ending(k.sender)),
             n.stopsSent + One(a.SenderMoves? && k.sender.SendStop?),
             n.stopsSkipped + One(a.SenderMoves? && k.sender == StopLoad && k.ws != Listening))
  }

  lemma {:induction false} RunBalance(c: Config, s: State, actions: seq<Action>)
    requires Executable(c, s, actions)
    ensures var n, from, to := Count(c, s, actions), s.k.sender, Execute(c, s, actions).k.sender;
      && n.audioIn + One(BlobInHand(from) == Some(Audio)) == n.audioSent + n.audioGivenUp + One(BlobInHand(to) == Some(Audio))
      && n.endsAsked + One(Ending(from)) == n.endsMade + n.endsGivenUp + One(Ending(to))
      && n.endsMade + One(Stopping(from)) == n.stopsSent + n.stopsSkipped + One(Stopping(to))
    decreases |actions|
  {
    if actions != [] {
      var s' := Step(c, s, actions[0]);
      StepBalance(c, s.k, actions[0]);
      assert s'.k == Apply(c, s.k, actions[0]);
      hide Apply, Enabled, ContentStep, BlobInHand, Ending, Stopping, AsksToEnd, One;
      RunBalance(c, s', actions[1..]);
    }
  }

  /** Over every run: the audio blobs received are those sent, each once, those given up at a shutdown, and at most one in
      hand; the requests to end the media, by a window marker or by a blob that is no audio, are those carried out, those
      given up, and at most one in hand; and after each end one stop is sent, or none because the connection was not
      listening. */
  lemma NothingLostOnTheWay(c: Config, actions: seq<Action>)
    requires Executable(c, Beginning(), actions)
    ensures var n, sender := Count(c, Beginning(), actions), Execute(c, Beginning(), actions).k.sender;
      && n.audioIn == n.audioSent + n.audioGivenUp + One(BlobInHand(sender) == Some(Audio))
      && n.endsAsked == n.endsMade + n.endsGivenUp + One(Ending(sender))
      && n.endsMade == n.stopsSent + n.stopsSkipped + One(Stopping(sender))
  {
    RunBalance(c, Beginning(), actions);
    hide Executable, Execute, Count;
  }
}
