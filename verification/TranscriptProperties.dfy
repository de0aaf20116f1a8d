/** Properties of every run of the WatsonSTT operator: tuples in use are live, results are neither lost nor doubled. */
module TranscriptProperties {
  import opened Wrappers
  import opened SpeakerAlignment
  import opened Handshake
  import opened HandshakeSafety
  import opened Transcript

  /** The final results that the trace accounts for, in order: submitted, or dropped by a crash. */
  function Outcomes(trace: seq<Entry>): seq<Result> {
    if trace == [] then []
    else Outcomes(trace[..|trace| - 1]) + Outcome(trace[|trace| - 1])
  }

  function Outcome(e: Entry): seq<Result> {
    match e
    case Submitted(_, a, _) => if a.final then [a.result] else []
    case Dropped(r) => [r]
    case _ => []
  }

  /** The final result that waits for its speaker labels. */
  function Pending(k: Control, d: Content): seq<Result> {
    if Active(k.receiver) && k.used.Some? then [Read(d, k.used.value).result] else []
  }

  /** One speaker and one confidence for each word of the tuple, found by the word's start time. */
  predicate Fits(e: Entry) {
    e.Submitted? && e.labels.Some? ==>
      && e.a.speakers == Speakers(e.labels.value, e.a.result.starts)
      && e.a.confidences == Confidences(e.labels.value, e.a.result.starts)
  }

  /** The live tuples are those in the wastebasket. */
  ghost predicate Live(k: Control, d: Content) {
    d.tuples.Keys == k.basket
  }

  /** A waiting tuple carries a final result, and the saved start times are those of its words. */
  ghost predicate Paired(c: Config, k: Control, d: Content) {
    Active(k.receiver) && k.used.Some? ==>
      c.identifySpeakers && Read(d, k.used.value).final && Read(d, k.used.value).result.starts == d.saved
  }

  ghost predicate Accounted(k: Control, d: Content) {
    Outcomes(d.trace) + Pending(k, d) == d.accepted
  }

  ghost predicate AllFit(d: Content) {
    forall i :: 0 <= i < |d.trace| ==> Fits(d.trace[i])
  }

  /** What the tuples and the histories satisfy in every reachable state. */
  ghost predicate Told(c: Config, k: Control, d: Content) {
    Live(k, d) && Paired(c, k, d) && Accounted(k, d) && AllFit(d)
  }

  ghost predicate Sound(c: Config, s: State) {
    Safe(s.k) && Told(c, s.k, s.d)
  }

  // ---------- Effects on the histories ----------

  lemma OneMore(trace: seq<Entry>, e: Entry)
    ensures Outcomes(trace + [e]) == Outcomes(trace) + Outcome(e)
  {
    assert (trace + [e])[..|trace|] == trace;
  }

  predicate Occupied(k: Control) {
    Active(k.receiver) && k.used.Some?
  }

  /** Steps that write no tuple and submit nothing. */
  lemma Unwritten(c: Config, k: Control, k': Control, d: Content)
    requires Told(c, k, d) && k'.basket == k.basket
    requires (Occupied(k') <==> Occupied(k)) && (Occupied(k) ==> k'.used == k.used)
    ensures Told(c, k', d)
  {
    hide Outcomes, Fits;
  }

  lemma MarkerTold(c: Config, k: Control, k': Control, d: Content, e: Entry)
    requires Told(c, k, d) && k'.basket == k.basket && (e == WindowMarker || e == FinalMarker)
    requires (Occupied(k') <==> Occupied(k)) && (Occupied(k) ==> k'.used == k.used)
    ensures Told(c, k', d.(trace := d.trace + [e]))
  {
    OneMore(d.trace, e);
    hide Outcomes;
  }

  /** One more entry, and the pending results before and after it. */
  lemma AccountMore(d: Content, d': Content, e: Entry, before: seq<Result>, after: seq<Result>)
    requires Outcomes(d.trace) + before == d.accepted && before == Outcome(e) + after
    requires d'.trace == d.trace + [e] && d'.accepted == d.accepted
    ensures Outcomes(d'.trace) + after == d'.accepted
  {
    OneMore(d.trace, e);
    hide Outcomes, Outcome;
  }

  lemma FitsMore(d: Content, d': Content, e: Entry)
    requires AllFit(d) && Fits(e) && d'.trace == d.trace + [e]
    ensures AllFit(d')
  {
    hide Fits;
  }

  lemma LiveStill(k: Control, k': Control, d: Content, d': Content, t: TupleId, a: Attributes)
    requires Live(k, d) && t in k.basket && k'.basket == k.basket && d'.tuples == d.tuples[t := a]
    ensures Live(k', d')
  {
  }

  /** Tuple t was submitted with attributes a, and its final result, if any, was the pending one. */
  lemma SubmittedTold(c: Config, k: Control, k': Control, d: Content, d': Content, e: Entry, a: Attributes)
    requires Told(c, k, d) && k'.basket == k.basket && !Occupied(k') && e.Submitted? && e.t in k.basket
    requires d'.tuples == d.tuples[e.t := a] && d'.trace == d.trace + [e] && d'.accepted == d.accepted
    requires Fits(e) && Pending(k, d) == Outcome(e)
    ensures Told(c, k', d')
  {
    LiveStill(k, k', d, d', e.t, a);
    FitsMore(d, d', e);
    AccountMore(d, d', e, Pending(k, d), []);
    assert Pending(k', d') == [];
    hide Outcomes, Outcome, Fits, AllFit, Live;
  }

  /** The waiting tuple is submitted as it is, or with an error. */
  lemma FlushTold(c: Config, k: Control, k': Control, d: Content)
    requires Told(c, k, d) && k'.basket == k.basket && Active(k.receiver) && k'.used == None
    requires k.used.Some? ==> k.used.value in k.basket
    ensures Told(c, k', FlushUsed(k, d)) && Told(c, k', FlushWithError(k, d))
  {
    if k.used.Some? {
      var t, a := k.used.value, Read(d, k.used.value);
      assert a.final;
      hide Told, Outcomes, Read;
      SubmittedTold(c, k, k', d, FlushUsed(k, d), Submitted(t, a, None), a);
      SubmittedTold(c, k, k', d, FlushWithError(k, d), Submitted(t, a.(error := true), None), a.(error := false));
    } else {
      hide Told;
      Unwritten(c, k, k', d);
    }
  }

  /** A tuple without a final result is submitted while none waits. */
  lemma SubmissionTold(c: Config, k: Control, k': Control, d: Content, t: TupleId, a: Attributes)
    requires Told(c, k, d) && k'.basket == k.basket && !Occupied(k) && !Occupied(k')
    requires t in k.basket && !a.final
    ensures Told(c, k', Submit(d, t, a, None)) && Told(c, k', SubmitWithError(d, t, a))
  {
    hide Told, Outcomes;
    SubmittedTold(c, k, k', d, Submit(d, t, a, None), Submitted(t, a, None), a);
    SubmittedTold(c, k, k', d, SubmitWithError(d, t, a), Submitted(t, a.(error := true), None), a.(error := false));
  }

  /** An utterance is written into a tuple while none waits. */
  lemma UtteranceTold(c: Config, k: Control, k': Control, d: Content, t: TupleId, u: Utterance)
    requires Told(c, k, d) && k'.basket == k.basket && !Occupied(k) && t in k.basket && Active(k'.receiver)
    requires k'.used == if IsFinal(c, u) && c.identifySpeakers then Some(t) else None
    ensures Told(c, k', WriteUtterance(c, d, t, u))
  {
    var a := SetResult(ClearSpeakers(c, Read(d, t)), u.result, IsFinal(c, u));
    OneMore(d.trace, Submitted(t, a, None));
    hide Outcomes;
  }

  /** The waiting tuple gets its labels and is submitted. */
  lemma LabelsTold(c: Config, k: Control, k': Control, d: Content, l: SpeakerLabels)
    requires Told(c, k, d) && k'.basket == k.basket && Active(k.receiver)
    requires k.used.Some? ==> k.used.value in k.basket
    requires Occupied(k') <==> k.used.Some? && !c.identifySpeakers
    ensures Told(c, k', AttachLabels(c, k, d, l))
  {
    if k.used.Some? && c.identifySpeakers {
      var t := k.used.value;
      var a := Read(d, t).(speakers := Speakers(l, d.saved), confidences := Confidences(l, d.saved));
      assert Read(d, t).final && Read(d, t).result.starts == d.saved;
      hide Told, Outcomes, Speakers, Confidences, Read;
      SubmittedTold(c, k, k', d, AttachLabels(c, k, d, l), Submitted(t, a, Some(l)), a);
    } else {
      assert k.used == None;
      hide Told;
      Unwritten(c, k, k', d);
    }
  }

  /** A throw turns the waiting result into a dropped one. */
  lemma DropTold(c: Config, k: Control, k': Control, d: Content)
    requires Told(c, k, d) && k'.basket == k.basket && Active(k.receiver) && !Active(k'.receiver)
    ensures Told(c, k', Drop(k, d))
  {
    if k.used.Some? {
      OneMore(d.trace, Dropped(Read(d, k.used.value).result));
    }
    hide Outcomes;
  }

  lemma CreationTold(c: Config, k: Control, k': Control, d: Content, t: TupleId, b: Blob)
    requires Told(c, k, d) && k'.basket == k.basket + {t} && t !in k.basket
    requires Occupied(k) ==> k.used.value in k.basket
    requires (Occupied(k') <==> Occupied(k)) && (Occupied(k) ==> k'.used == k.used)
    ensures Told(c, k', d.(tuples := d.tuples[t := NewAttributes(b)]))
  {
    hide Outcomes, Fits;
  }

  lemma RecyclingTold(c: Config, k: Control, k': Control, d: Content)
    requires Told(c, k, d) && k'.basket == {} && !Occupied(k) && !Occupied(k')
    ensures Told(c, k', d.(tuples := d.tuples - k.basket))
  {
    hide Outcomes, Fits;
  }

  // ---------- Every step ----------

  lemma ReferencesHold(k: Control)
    requires Safe(k)
    ensures Occupied(k) ==> k.used.value in k.basket && MayWait(k.receiver)
    ensures Held(k.receiver).Some? ==> Held(k.receiver).value in k.basket
    ensures Clearing(k.sender) ==> !Occupied(k)
  {
  }

  /** The sender creates the tuple that it publishes. */
  lemma ConnectedTold(c: Config, k: Control, d: Content, t: TupleId)
    requires Safe(k) && Told(c, k, d) && k.sender.Connected? && t !in k.basket
    ensures Told(c, SenderStep(k, t), SenderContent(k, d, t))
  {
    ReferencesHold(k);
    SenderSparesReceiver(k, t);
    hide Safe, Told, Held, SenderStep, Active;
    CreationTold(c, k, SenderStep(k, t), d, t, k.sender.b);
  }

  lemma RecycleTold(c: Config, k: Control, d: Content, t: TupleId)
    requires Safe(k) && Told(c, k, d) && k.sender.Recycle?
    ensures Told(c, SenderStep(k, t), SenderContent(k, d, t))
  {
    ReferencesHold(k);
    SenderSparesReceiver(k, t);
    hide Safe, Told, Held, SenderStep, Active;
    RecyclingTold(c, k, SenderStep(k, t), d);
  }

  lemma FinalTold(c: Config, k: Control, d: Content, t: TupleId)
    requires Told(c, k, d) && k.sender.FinalSubmit?
    ensures Told(c, SenderStep(k, t), SenderContent(k, d, t))
  {
    SenderSparesReceiver(k, t);
    hide Told, SenderStep, Active;
    MarkerTold(c, k, SenderStep(k, t), d, FinalMarker);
  }

  lemma OtherSenderTold(c: Config, k: Control, d: Content, t: TupleId)
    requires Told(c, k, d) && !k.sender.Connected? && !k.sender.Recycle? && !k.sender.FinalSubmit?
    ensures Told(c, SenderStep(k, t), SenderContent(k, d, t))
  {
    SenderSparesReceiver(k, t);
    hide Told, SenderStep, Active;
    Unwritten(c, k, SenderStep(k, t), d);
  }

  lemma SenderTold(c: Config, k: Control, d: Content, t: TupleId)
    requires Safe(k) && Told(c, k, d) && Enabled(k, SenderMoves(t))
    ensures Told(c, SenderStep(k, t), SenderContent(k, d, t))
  {
    hide Safe, Told, SenderStep, SenderContent;
    if k.sender.Connected? {
      ConnectedTold(c, k, d, t);
    } else if k.sender.Recycle? {
      RecycleTold(c, k, d, t);
    } else if k.sender.FinalSubmit? {
      FinalTold(c, k, d, t);
    } else {
      OtherSenderTold(c, k, d, t);
    }
  }

  /** The steps that submit something. */
  predicate Submits(r: Receiver) {
    r.Flush? || r.DoneSend? || r.DoneMarker? || r.ErrorLoad? || r.ErrorSend? || r.UttFlush? || r.UttWrite? || r.Label?
    || r.CloseDone? || r.CloseMarker?
  }

  /** The step leaves a waiting tuple and the wastebasket alone. */
  predicate Spares(k: Control, k': Control) {
    k'.basket == k.basket && (Occupied(k') <==> Occupied(k)) && (Occupied(k) ==> k'.used == k.used)
  }

  lemma LoopSpares(k: Control)
    ensures AtRest(k.receiver) ==> Spares(k, LoopStep(k))
  {
  }

  lemma StartupSpares(k: Control)
    requires Safe(k)
    ensures Startup(k.receiver) ==> Spares(k, StartupStep(k))
  {
    hide References, Phases, States, Linked, Traffic;
  }

  lemma ClosingSpares(c: Config, k: Control)
    requires k.receiver.TestQueued? || k.receiver.StoreClosing? || k.receiver.CallClose?
    ensures Spares(k, CompletionStep(c, k))
  {
  }

  lemma DoneSpares(c: Config, k: Control)
    requires k.receiver.DoneLoad? || k.receiver.DoneClear? || k.receiver.Finalize?
    ensures Spares(k, CompletionStep(c, k))
  {
  }

  lemma CompletionSpares(c: Config, k: Control)
    ensures Completing(k.receiver) && !Submits(k.receiver) ==> Spares(k, CompletionStep(c, k))
  {
    hide CompletionStep, Spares;
    if k.receiver.TestQueued? || k.receiver.StoreClosing? || k.receiver.CallClose? {
      ClosingSpares(c, k);
    } else if k.receiver.DoneLoad? || k.receiver.DoneClear? || k.receiver.Finalize? {
      DoneSpares(c, k);
    }
  }

  lemma CloseSpares(c: Config, k: Control)
    requires Safe(k)
    ensures ClosingUp(k.receiver) && !Submits(k.receiver) ==> Spares(k, CloseStep(c, k))
  {
    hide References, Phases, States, Linked, Traffic;
  }

  lemma MessageSpares(c: Config, k: Control)
    requires !Submits(k.receiver) && !(k.receiver.UttLoad? && k.recent == None)
    ensures Spares(k, MessageStep(c, k))
  {
  }

  lemma QuietTold(c: Config, k: Control, d: Content)
    requires Safe(k) && Told(c, k, d) && !Submits(k.receiver)
    ensures Told(c, ReceiverStep(c, k), ReceiverContent(c, k, d))
  {
    LoopSpares(k);
    StartupSpares(k);
    CompletionSpares(c, k);
    CloseSpares(c, k);
    hide Safe, Told, Occupied, LoopStep, StartupStep, CompletionStep, CloseStep, MessageStep;
    if k.receiver.UttLoad? && k.recent == None {
      ThrowTold(c, k, d);
    } else {
      MessageSpares(c, k);
      Unwritten(c, k, ReceiverStep(c, k), d);
    }
  }

  lemma ThrowTold(c: Config, k: Control, d: Content)
    requires Told(c, k, d) && k.receiver.UttLoad? && k.recent == None
    ensures Told(c, ReceiverStep(c, k), ReceiverContent(c, k, d))
  {
    hide Told;
    DropTold(c, k, ReceiverStep(c, k), d);
  }

  lemma FlushingTold(c: Config, k: Control, d: Content)
    requires Safe(k) && Told(c, k, d)
    requires k.receiver.Flush? || k.receiver.UttFlush? || k.receiver.ErrorLoad? || k.receiver.Label?
    ensures Told(c, ReceiverStep(c, k), ReceiverContent(c, k, d))
  {
    ReferencesHold(k);
    hide Safe, Told, FlushUsed, FlushWithError, AttachLabels;
    match k.receiver
    case Label(l) => LabelsTold(c, k, ReceiverStep(c, k), d, l);
    case _ => FlushTold(c, k, ReceiverStep(c, k), d);
  }

  lemma SubmittingTold(c: Config, k: Control, d: Content)
    requires Safe(k) && Told(c, k, d)
    requires k.receiver.DoneSend? || k.receiver.ErrorSend? || k.receiver.CloseDone?
    ensures Told(c, ReceiverStep(c, k), ReceiverContent(c, k, d))
  {
    ReferencesHold(k);
    hide Safe, Told, Submit, SubmitWithError;
    var t := Held(k.receiver).value;
    SubmissionTold(c, k, ReceiverStep(c, k), d, t, CompletedAttributes(c, Read(d, t)));
    SubmissionTold(c, k, ReceiverStep(c, k), d, t, ClearSpeakers(c, SetResult(Read(d, t), BLANK, false)));
  }

  lemma WritingTold(c: Config, k: Control, d: Content)
    requires Safe(k) && Told(c, k, d) && k.receiver.UttWrite? && k.used == None
    ensures Told(c, ReceiverStep(c, k), ReceiverContent(c, k, d))
  {
    ReferencesHold(k);
    hide Safe, Told, WriteUtterance;
    UtteranceTold(c, k, ReceiverStep(c, k), d, k.receiver.t, k.receiver.u);
  }

  lemma MarkingTold(c: Config, k: Control, d: Content)
    requires Told(c, k, d) && (k.receiver.DoneMarker? || k.receiver.CloseMarker?)
    ensures Told(c, ReceiverStep(c, k), ReceiverContent(c, k, d))
  {
    hide Told;
    MarkerTold(c, k, ReceiverStep(c, k), d, WindowMarker);
  }

  lemma ReceiverTold(c: Config, k: Control, d: Content)
    requires Safe(k) && Told(c, k, d)
    ensures Told(c, ReceiverStep(c, k), ReceiverContent(c, k, d))
  {
    if k.receiver.UttWrite? {
      assert k.used == None;
    }
    hide Safe, Told, ReceiverStep, ReceiverContent;
    var r := k.receiver;
    if !Submits(r) {
      QuietTold(c, k, d);
    } else if r.UttWrite? {
      WritingTold(c, k, d);
    } else if r.DoneMarker? || r.CloseMarker? {
      MarkingTold(c, k, d);
    } else if r.DoneSend? || r.ErrorSend? || r.CloseDone? {
      SubmittingTold(c, k, d);
    } else {
      FlushingTold(c, k, d);
    }
  }

  lemma StepSound(c: Config, s: State, a: Action)
    requires Sound(c, s) && Enabled(s.k, a)
    ensures Sound(c, Step(c, s, a))
  {
    StepKeeps(c, s.k, a);
    hide Safe, Told, SenderStep, SenderContent, ReceiverStep, ReceiverContent, Drop;
    match a
    case SenderMoves(t) => SenderTold(c, s.k, s.d, t);
    case ReceiverMoves => ReceiverTold(c, s.k, s.d);
    case Message(m) =>
      if Acceptable(s.k.ws, m) {
        Unwritten(c, s.k, OnMessage(s.k, m), s.d);
      } else {
        DropTold(c, s.k, Throw(s.k), s.d);
      }
    case Fault =>
      if Active(s.k.receiver) {
        DropTold(c, s.k, Throw(s.k), s.d);
      } else {
        Unwritten(c, s.k, Throw(s.k), s.d);
      }
    case _ => Unwritten(c, s.k, Apply(c, s.k, a), s.d);
  }

  lemma {:induction false} RunSound(c: Config, s: State, actions: seq<Action>)
    requires Sound(c, s) && Executable(c, s, actions)
    ensures Sound(c, Execute(c, s, actions))
    decreases |actions|
  {
    hide Sound, Step, Enabled;
    if actions != [] {
      StepSound(c, s, actions[0]);
      RunSound(c, Step(c, s, actions[0]), actions[1..]);
    }
  }

  lemma ReachableSound(c: Config, actions: seq<Action>)
    requires Executable(c, Beginning(), actions)
    ensures Sound(c, Execute(c, Beginning(), actions))
  {
    InitiallySafe();
    RunSound(c, Beginning(), actions);
  }

  // ---------- Main results ----------

  /** No tuple is recycled while the receiver can still write or submit it: in every interleaving the recent tuple, the
      receiver's copy of it and the tuple that waits for speaker labels are live, and when the sender is about to
      recycle, none of them exists. */
  lemma TuplesInUseAreLive(c: Config, actions: seq<Action>)
    requires Executable(c, Beginning(), actions)
    ensures var s := Execute(c, Beginning(), actions);
      && (s.k.recent.Some? ==> s.k.recent.value in s.d.tuples)
      && (Held(s.k.receiver).Some? ==> Held(s.k.receiver).value in s.d.tuples)
      && (Active(s.k.receiver) && s.k.used.Some? ==> s.k.used.value in s.d.tuples)
      && (s.k.sender.Recycle? ==>
            s.k.recent == None && Held(s.k.receiver) == None && (Active(s.k.receiver) ==> s.k.used == None))
  {
    ReachableSound(c, actions);
    hide Executable, Execute, Outcomes, Fits;
  }

  /** The sender uses the client and the handle of the connection whose `listening` it observed, never while a
      connection is being set up; it sends audio and the stop only when the service expects them, so no audio follows a
      stop before its `listening`, and no second stop is sent. */
  lemma ConnectionUsedInTurn(c: Config, actions: seq<Action>)
    requires Executable(c, Beginning(), actions)
    ensures var k := Execute(c, Beginning(), actions).k;
      && (k.sender.SendAudio? || k.sender.SendStop? ==>
            k.client == k.sender.c == k.handle && !Startup(k.receiver) && (k.line == Talking || k.line == Down))
      && (k.line == AwaitDone ==> k.mediaEnd && !k.finalized)
      && k.line != Broken
  {
    ReachableSound(c, actions);
    hide Executable, Execute, Told;
  }

  /** No final utterance is lost, doubled, reordered or overwritten: the results paired with a tuple are, in order, those
      submitted as final, those dropped by a crash, and at most one that waits for its labels. */
  lemma EveryFinalResultOnce(c: Config, actions: seq<Action>)
    requires Executable(c, Beginning(), actions)
    ensures var s := Execute(c, Beginning(), actions);
      s.d.accepted == Outcomes(s.d.trace) + Pending(s.k, s.d)
  {
    ReachableSound(c, actions);
    hide Executable, Execute, Safe, Outcomes, Fits;
  }

  /** The history is only appended to, and a result is dropped under this condition only. */
  predicate Grows(before: seq<Entry>, after: seq<Entry>, mayDrop: bool) {
    before <= after && forall i :: |before| <= i < |after| && after[i].Dropped? ==> mayDrop
  }

  lemma SubmissionGrows(c: Config, k: Control, d: Content)
    requires Submits(k.receiver)
    ensures Grows(d.trace, ReceiverContent(c, k, d).trace, false)
  {
    hide Read, CompletedAttributes, ClearSpeakers, SetResult, Speakers, Confidences;
  }

  lemma QuietGrows(c: Config, k: Control, d: Content)
    requires !Submits(k.receiver)
    ensures Grows(d.trace, ReceiverContent(c, k, d).trace, k.used.Some? && k.receiver.UttLoad? && k.recent == None)
  {
    hide Read;
  }

  lemma DropGrows(k: Control, d: Content)
    ensures Grows(d.trace, Drop(k, d).trace, k.used.Some?)
  {
    hide Read;
  }

  lemma SenderGrows(k: Control, d: Content, t: TupleId)
    ensures Grows(d.trace, SenderContent(k, d, t).trace, false)
  {
  }

  /** Only a throw drops a result: the step that reports one takes the receiver into its crash handler. */
  lemma OnlyCrashDrops(c: Config, s: State, a: Action)
    requires Enabled(s.k, a)
    ensures Grows(s.d.trace, Step(c, s, a).d.trace, Apply(c, s.k, a).receiver.Crash? && Occupied(s.k))
  {
    match a
    case SenderMoves(t) =>
      SenderGrows(s.k, s.d, t);
      hide SenderStep, SenderContent;
    case ReceiverMoves =>
      if Submits(s.k.receiver) {
        SubmissionGrows(c, s.k, s.d);
        hide ReceiverStep, ReceiverContent, Submits;
      } else {
        QuietGrows(c, s.k, s.d);
        hide ReceiverContent, Submits, LoopStep, StartupStep, CompletionStep, CloseStep, ErrorStep;
      }
    case _ =>
      DropGrows(s.k, s.d);
      hide Drop;
  }

  /** Every tuple submitted with speaker labels has one speaker and one confidence for each of its words, namely those of
      the first label at the word's start time. */
  lemma SpeakerListsFit(c: Config, actions: seq<Action>, i: nat)
    requires Executable(c, Beginning(), actions)
    requires var trace := Execute(c, Beginning(), actions).d.trace; i < |trace| && trace[i].Submitted? && trace[i].labels.Some?
    ensures var e := Execute(c, Beginning(), actions).d.trace[i];
      && |e.a.speakers| == |e.a.result.starts| == |e.a.confidences|
      && e.a.speakers == Speakers(e.labels.value, e.a.result.starts)
      && e.a.confidences == Confidences(e.labels.value, e.a.result.starts)
  {
    ReachableSound(c, actions);
    assert Fits(Execute(c, Beginning(), actions).d.trace[i]);
    hide Executable, Execute, Safe, Outcomes;
  }

  /** A published tuple is blank, and carries an error exactly if its blob could not be read. */
  lemma PublishedTuple(c: Config, s: State, t: TupleId)
    requires Enabled(s.k, SenderMoves(t)) && s.k.sender.Connected?
    ensures var s' := Step(c, s, SenderMoves(t));
      && s'.k.recent == Some(t)
      && s'.d.tuples == s.d.tuples[t := Attributes(Result(-1, "", []), false, [], [], false, s.k.sender.b == ReadError)]
  {
  }
}
