/** How conversations end: the final marker is last, and how many window markers each conversation has, on any run. */
module ConversationEnds {
  import opened Wrappers
  import opened Handshake
  import opened HandshakeSafety
  import opened Transcript
  import opened TranscriptProperties

  // ---------- The final marker ----------

  lemma QuietAfterFinal(k: Control)
    requires Safe(k) && k.sender == Finished(true)
    ensures Quiet(k)
  {
  }

  /** A quiet receiver submits nothing. */
  lemma QuietSubmitsNothing(c: Config, k: Control, d: Content)
    requires Quiet(k)
    ensures ReceiverContent(c, k, d).trace == d.trace
    ensures Active(k.receiver) ==> Drop(k, d) == d
  {
  }

  lemma FinishedStep(c: Config, s: State, a: Action)
    requires Safe(s.k) && s.k.sender == Finished(true) && Enabled(s.k, a)
    ensures Step(c, s, a).d.trace == s.d.trace && Step(c, s, a).k.sender == Finished(true)
  {
    QuietAfterFinal(s.k);
    QuietSubmitsNothing(c, s.k, s.d);
    ReceiverSparesSender(c, s.k);
    hide Safe, Quiet, ReceiverStep, ReceiverContent, Drop, Active;
  }

  /** Once the final marker was submitted without a shutdown cutting the waiting short, nothing follows it. */
  lemma {:induction false} FinalMarkerIsLast(c: Config, s: State, actions: seq<Action>)
    requires Sound(c, s) && s.k.sender == Finished(true) && Executable(c, s, actions)
    ensures Execute(c, s, actions).d.trace == s.d.trace
    decreases |actions|
  {
    if actions != [] {
      FinishedStep(c, s, actions[0]);
      StepSound(c, s, actions[0]);
      hide Sound, Step, Enabled;
      FinalMarkerIsLast(c, Step(c, s, actions[0]), actions[1..]);
    }
  }

  // ---------- Window markers ----------

  function MarkerCount(trace: seq<Entry>): nat {
    if trace == [] then 0
    else MarkerCount(trace[..|trace| - 1]) + if trace[|trace| - 1].WindowMarker? then 1 else 0
  }

  lemma CountOneMore(trace: seq<Entry>, e: Entry)
    ensures MarkerCount(trace + [e]) == MarkerCount(trace) + if e.WindowMarker? then 1 else 0
  {
    assert (trace + [e])[..|trace|] == trace;
  }

  /** A step adds at most one entry, and a window marker exactly where the receiver submits one. */
  predicate Extends(before: seq<Entry>, after: seq<Entry>, marker: bool) {
    if marker then after == before + [WindowMarker]
    else after == before || (|after| == |before| + 1 && after == before + [after[|before|]] && !after[|before|].WindowMarker?)
  }

  lemma SubmissionExtends(c: Config, k: Control, d: Content)
    requires Submits(k.receiver)
    ensures Extends(d.trace, ReceiverContent(c, k, d).trace, Marks(k.receiver))
  {
    hide Read, CompletedAttributes, ClearSpeakers, SetResult;
  }

  lemma QuietExtends(c: Config, k: Control, d: Content)
    requires !Submits(k.receiver)
    ensures Extends(d.trace, ReceiverContent(c, k, d).trace, Marks(k.receiver))
  {
    hide Read;
  }

  lemma ReceiverExtends(c: Config, k: Control, d: Content)
    ensures Extends(d.trace, ReceiverContent(c, k, d).trace, Marks(k.receiver))
  {
    hide Read, ReceiverContent;
    if Submits(k.receiver) {
      SubmissionExtends(c, k, d);
    } else {
      QuietExtends(c, k, d);
    }
  }

  lemma DropExtends(k: Control, d: Content)
    ensures Extends(d.trace, Drop(k, d).trace, false)
  {
    hide Read;
  }

  lemma SenderExtends(k: Control, d: Content, t: TupleId)
    ensures Extends(d.trace, SenderContent(k, d, t).trace, false)
  {
  }

  /** The count after a step that extends the history. */
  lemma CountExtended(before: seq<Entry>, after: seq<Entry>, marker: bool)
    requires Extends(before, after, marker)
    ensures MarkerCount(after) == MarkerCount(before) + if marker then 1 else 0
  {
    hide MarkerCount;
    CountOneMore(before, WindowMarker);
    if !marker && after != before {
      CountOneMore(before, after[|before|]);
    }
  }

  lemma SenderCounts(k: Control, d: Content, t: TupleId)
    ensures MarkerCount(SenderContent(k, d, t).trace) - MarkerCount(d.trace) == SenderStep(k, t).marked - k.marked
  {
    SenderExtends(k, d, t);
    SenderSparesReceiver(k, t);
    hide SenderStep, SenderContent, MarkerCount, Extends;
    CountExtended(d.trace, SenderContent(k, d, t).trace, false);
  }

  lemma ReceiverCounts(c: Config, k: Control, d: Content)
    ensures MarkerCount(ReceiverContent(c, k, d).trace) - MarkerCount(d.trace) == ReceiverStep(c, k).marked - k.marked
  {
    ReceiverExtends(c, k, d);
    ReceiverSparesSender(c, k);
    hide ReceiverStep, ReceiverContent, MarkerCount, Extends, Marks;
    CountExtended(d.trace, ReceiverContent(c, k, d).trace, Marks(k.receiver));
  }

  lemma DropCounts(k: Control, d: Content)
    ensures MarkerCount(Drop(k, d).trace) == MarkerCount(d.trace)
  {
    DropExtends(k, d);
    hide Drop, MarkerCount, Extends;
    CountExtended(d.trace, Drop(k, d).trace, false);
  }

  lemma CountStep(c: Config, s: State, a: Action)
    requires Enabled(s.k, a) && MarkerCount(s.d.trace) == s.k.marked
    ensures MarkerCount(Step(c, s, a).d.trace) == Step(c, s, a).k.marked
  {
    match a
    case SenderMoves(t) =>
      SenderCounts(s.k, s.d, t);
      hide SenderStep, SenderContent, MarkerCount;
    case ReceiverMoves =>
      ReceiverCounts(c, s.k, s.d);
      hide ReceiverStep, ReceiverContent, MarkerCount;
    case _ =>
      DropCounts(s.k, s.d);
      hide Drop, MarkerCount, Active, Acceptable, Dispatch;
  }

  // The law of the markers, for every run.

  /** The conversation that has begun and was not closed by a marker yet. */
  function InProgress(k: Control): nat {
    if k.finalized || k.receiver.Finalize? then 0 else 1
  }

  /** In total there are as many window markers as conversations, the one in progress not counted. */
  predicate MarkersMatch(s: State) {
    MarkerCount(s.d.trace) + InProgress(s.k) == s.k.begun
  }

  /** The receiver marks the end of a conversation because the connection was lost. */
  predicate MarksLoss(k: Control, a: Action) {
    a.ReceiverMoves? && k.receiver.CloseMarker?
  }

  /** The sender begins the next conversation although the previous one was not finalized. */
  predicate Abandons(k: Control, a: Action) {
    a.SenderMoves? && k.sender.ClearFlag? && !k.finalized
  }

  function LossesMarked(c: Config, s: State, actions: seq<Action>): nat
    requires Executable(c, s, actions)
    decreases |actions|
  {
    if actions == [] then 0
    else One(MarksLoss(s.k, actions[0])) + LossesMarked(c, Step(c, s, actions[0]), actions[1..])
  }

  function Abandoned(c: Config, s: State, actions: seq<Action>): nat
    requires Executable(c, s, actions)
    decreases |actions|
  {
    if actions == [] then 0
    else One(Abandons(s.k, actions[0])) + Abandoned(c, Step(c, s, actions[0]), actions[1..])
  }

  /** Markers in excess of the conversations. */
  function Excess(k: Control): int {
    k.marked + InProgress(k) - k.begun
  }

  /** The marker of a lost connection is decided and not yet submitted. */
  predicate LossUnderWay(k: Control) {
    k.receiver.CloseDone? || k.receiver.CloseMarker?
  }

  /** The abandoning of a conversation is decided and not yet done. */
  predicate StopUnderWay(k: Control) {
    k.sender.ClearFlag? && !k.finalized
  }

  /** Where the receiver flags a conversation final, where it is on its way to mark a lost connection, and that nothing
      makes a run smooth again. */
  predicate FinalizeFrame(k: Control, k': Control) {
    && (k'.finalized <==> k.finalized || k.receiver.Finalize?)
    && (k'.receiver.Finalize? <==> k.receiver.DoneMarker?)
    && (LossUnderWay(k') ==> ClosingUp(k.receiver))
    && (k'.smooth ==> k.smooth)
  }

  lemma LoopFinalize(k: Control)
    requires AtRest(k.receiver)
    ensures FinalizeFrame(k, LoopStep(k))
  {
  }

  lemma StartupFinalize(k: Control)
    requires Startup(k.receiver)
    ensures FinalizeFrame(k, StartupStep(k))
  {
  }

  lemma CompletionFinalize(c: Config, k: Control)
    requires k.receiver.DoneLoad? || k.receiver.DoneSend? || k.receiver.DoneClear? || k.receiver.DoneMarker?
      || k.receiver.Finalize?
    ensures FinalizeFrame(k, CompletionStep(c, k))
  {
  }

  lemma BeforeDoneFinalize(c: Config, k: Control)
    requires k.receiver.TestQueued? || k.receiver.StoreClosing? || k.receiver.CallClose? || k.receiver.Flush?
    ensures FinalizeFrame(k, CompletionStep(c, k))
  {
  }

  lemma CloseFinalize(c: Config, k: Control)
    requires ClosingUp(k.receiver)
    ensures FinalizeFrame(k, CloseStep(c, k))
  {
  }

  lemma ErrorFinalize(k: Control)
    requires k.receiver.ErrorLoad? || k.receiver.ErrorSend?
    ensures FinalizeFrame(k, ErrorStep(k))
  {
  }

  lemma UtteranceFinalize(c: Config, k: Control)
    requires k.receiver.UttFlush? || k.receiver.UttLoad? || k.receiver.UttWrite?
    ensures FinalizeFrame(k, MessageStep(c, k))
  {
  }

  lemma MessageFinalize(c: Config, k: Control)
    requires k.receiver.Greet? || k.receiver.ErrorStore? || k.receiver.Label? || k.receiver.Run?
    ensures FinalizeFrame(k, MessageStep(c, k))
  {
  }

  lemma ReceiverFinalize(c: Config, k: Control)
    ensures FinalizeFrame(k, ReceiverStep(c, k))
  {
    hide LoopStep, StartupStep, CompletionStep, CloseStep, ErrorStep, MessageStep, FinalizeFrame;
    var r := k.receiver;
    if AtRest(r) {
      LoopFinalize(k);
    } else if Startup(r) {
      StartupFinalize(k);
    } else if r.TestQueued? || r.StoreClosing? || r.CallClose? || r.Flush? {
      BeforeDoneFinalize(c, k);
    } else if Completing(r) {
      CompletionFinalize(c, k);
    } else if ClosingUp(r) {
      CloseFinalize(c, k);
    } else if r.ErrorLoad? || r.ErrorSend? {
      ErrorFinalize(k);
    } else if r.UttFlush? || r.UttLoad? || r.UttWrite? {
      UtteranceFinalize(c, k);
    } else {
      MessageFinalize(c, k);
    }
  }

  lemma ReceiverExcess(c: Config, k: Control)
    requires Safe(k)
    ensures Excess(ReceiverStep(c, k)) == Excess(k) + One(MarksLoss(k, ReceiverMoves))
  {
    ReceiverFinalize(c, k);
    ReceiverSparesSender(c, k);
    assert k.receiver.DoneMarker? ==> !k.finalized;
    hide Safe, ReceiverStep;
  }

  /** Where the sender counts a conversation. */
  predicate BeginFrame(k: Control, k': Control) {
    && k'.smooth == k.smooth
    && if k.sender.ClearFlag? then !k'.finalized && k'.begun == k.begun + 1
       else k'.finalized == k.finalized && k'.begun == k.begun
  }

  lemma ProcessBegins(k: Control)
    ensures Processing(k.sender) ==> BeginFrame(k, ProcessStep(k))
  {
  }

  lemma ConnectBegins(k: Control, t: TupleId)
    ensures InConnect(k.sender) ==> BeginFrame(k, ConnectStep(k, t))
  {
  }

  lemma SendBegins(k: Control)
    ensures Sending(k.sender) ==> BeginFrame(k, SendStep(k))
  {
  }

  lemma FinalBegins(k: Control)
    ensures !k.sender.ClearFlag? ==> BeginFrame(k, FinalStep(k))
    ensures k.sender.ClearFlag? ==> Processing(k.sender)
  {
  }

  lemma SenderBegins(k: Control, t: TupleId)
    ensures BeginFrame(k, SenderStep(k, t))
  {
    ProcessBegins(k);
    ConnectBegins(k, t);
    SendBegins(k);
    FinalBegins(k);
    hide ProcessStep, ConnectStep, SendStep, FinalStep, BeginFrame, Processing, InConnect, Sending;
  }

  lemma SenderExcess(k: Control, t: TupleId)
    requires Safe(k)
    ensures Excess(SenderStep(k, t)) == Excess(k) - One(Abandons(k, SenderMoves(t)))
  {
    SenderBegins(k, t);
    SenderSparesReceiver(k, t);
    assert k.sender.ClearFlag? ==> !k.receiver.Finalize?;
    hide Safe, SenderStep;
  }

  lemma EventExcess(c: Config, k: Control, a: Action)
    requires Enabled(k, a) && !a.SenderMoves? && !a.ReceiverMoves?
    ensures Excess(Apply(c, k, a)) == Excess(k)
  {
  }

  lemma StepExcess(c: Config, k: Control, a: Action)
    requires Safe(k) && Enabled(k, a)
    ensures Excess(Apply(c, k, a)) == Excess(k) + One(MarksLoss(k, a)) - One(Abandons(k, a))
  {
    hide Safe, SenderStep, ReceiverStep, Excess;
    match a
    case SenderMoves(t) => SenderExcess(k, t);
    case ReceiverMoves => ReceiverExcess(c, k);
    case _ => EventExcess(c, k, a);
  }

  lemma {:induction false} RunExcess(c: Config, s: State, actions: seq<Action>)
    requires Sound(c, s) && MarkerCount(s.d.trace) == s.k.marked && Executable(c, s, actions)
    ensures var s' := Execute(c, s, actions);
      && MarkerCount(s'.d.trace) == s'.k.marked
      && Excess(s'.k) == Excess(s.k) + LossesMarked(c, s, actions) - Abandoned(c, s, actions)
    decreases |actions|
  {
    if actions != [] {
      var a := actions[0];
      StepExcess(c, s.k, a);
      StepSound(c, s, a);
      CountStep(c, s, a);
      hide Sound, Excess, MarkerCount, Apply, ContentStep, Enabled, MarksLoss, Abandons;
      RunExcess(c, Step(c, s, a), actions[1..]);
    }
  }

  /** On every run: the markers in excess of the conversations are the lost connections that were marked, less the
      conversations that were abandoned. */
  lemma MarkerLaw(c: Config, actions: seq<Action>)
    requires Executable(c, Beginning(), actions)
    ensures var s := Execute(c, Beginning(), actions);
      MarkerCount(s.d.trace) + InProgress(s.k) - s.k.begun
        == LossesMarked(c, Beginning(), actions) - Abandoned(c, Beginning(), actions)
  {
    ReachableSound(c, []);
    RunExcess(c, Beginning(), actions);
    hide Executable, Execute, Sound, MarkerCount, LossesMarked, Abandoned;
  }

  // The guards at which the two counters are decided.

  /** on_close finds a tuple of the conversation. */
  predicate LossGuard(k: Control, a: Action) {
    a.ReceiverMoves? && k.receiver.CloseLoad? && k.recent.Some?
  }

  /** The sender stops waiting only because the receiver has stopped. */
  predicate StopGuard(k: Control, a: Action) {
    a.SenderMoves? && k.sender.WaitTest? && !k.finalized && ReceiverHasStopped(k.sender.my)
  }

  function LossGuards(c: Config, s: State, actions: seq<Action>): nat
    requires Executable(c, s, actions)
    decreases |actions|
  {
    if actions == [] then 0
    else One(LossGuard(s.k, actions[0])) + LossGuards(c, Step(c, s, actions[0]), actions[1..])
  }

  function StopGuards(c: Config, s: State, actions: seq<Action>): nat
    requires Executable(c, s, actions)
    decreases |actions|
  {
    if actions == [] then 0
    else One(StopGuard(s.k, actions[0])) + StopGuards(c, Step(c, s, actions[0]), actions[1..])
  }

  lemma CloseGuards(c: Config, k: Control)
    ensures ClosingUp(k.receiver) ==>
      One(LossGuard(k, ReceiverMoves)) + One(LossUnderWay(k))
        == One(MarksLoss(k, ReceiverMoves)) + One(LossUnderWay(CloseStep(c, k)))
    ensures LossUnderWay(k) || k.receiver.CloseLoad? ==> ClosingUp(k.receiver)
  {
  }

  lemma ReceiverGuards(c: Config, k: Control)
    requires Safe(k)
    ensures var k' := ReceiverStep(c, k);
      && One(LossGuard(k, ReceiverMoves)) + One(LossUnderWay(k)) == One(MarksLoss(k, ReceiverMoves)) + One(LossUnderWay(k'))
      && (StopUnderWay(k') <==> StopUnderWay(k))
  {
    CloseGuards(c, k);
    ReceiverFinalize(c, k);
    ReceiverSparesSender(c, k);
    assert k.sender.ClearFlag? ==> !k.receiver.Finalize?;
    hide Safe, LoopStep, StartupStep, CompletionStep, CloseStep, ErrorStep, MessageStep, LossUnderWay, ClosingUp, AtRest,
         Startup, Completing;
    PhasesExclude(k.receiver);
  }

  lemma PhasesExclude(r: Receiver)
    ensures ClosingUp(r) ==> !AtRest(r) && !Startup(r) && !Completing(r)
  {
  }

  lemma ProcessGuards(k: Control)
    ensures Processing(k.sender) ==>
      One(StopGuard(k, SenderMoves(0))) + One(StopUnderWay(k))
        == One(Abandons(k, SenderMoves(0))) + One(StopUnderWay(ProcessStep(k)))
    ensures StopUnderWay(k) || k.sender.WaitTest? ==> Processing(k.sender)
    ensures StopUnderWay(k) <==> Abandons(k, SenderMoves(0))
  {
  }

  lemma NoStopElsewhere(k: Control, t: TupleId)
    ensures !Processing(k.sender) ==>
      !StopUnderWay(ConnectStep(k, t)) && !StopUnderWay(SendStep(k)) && !StopUnderWay(FinalStep(k))
  {
  }

  lemma SenderGuards(k: Control, t: TupleId)
    ensures var k' := SenderStep(k, t);
      && One(StopGuard(k, SenderMoves(t))) + One(StopUnderWay(k)) == One(Abandons(k, SenderMoves(t))) + One(StopUnderWay(k'))
      && (LossUnderWay(k') <==> LossUnderWay(k))
  {
    ProcessGuards(k);
    NoStopElsewhere(k, t);
    SenderSparesReceiver(k, t);
    hide ProcessStep, ConnectStep, SendStep, FinalStep, StopUnderWay, Processing;
  }

  lemma EventGuards(c: Config, k: Control, a: Action)
    requires Enabled(k, a) && !a.SenderMoves? && !a.ReceiverMoves?
    ensures LossUnderWay(Apply(c, k, a)) <==> LossUnderWay(k)
    ensures StopUnderWay(Apply(c, k, a)) <==> StopUnderWay(k)
  {
  }

  lemma StepGuards(c: Config, k: Control, a: Action)
    requires Safe(k) && Enabled(k, a)
    ensures var k' := Apply(c, k, a);
      && One(LossGuard(k, a)) + One(LossUnderWay(k)) == One(MarksLoss(k, a)) + One(LossUnderWay(k'))
      && One(StopGuard(k, a)) + One(StopUnderWay(k)) == One(Abandons(k, a)) + One(StopUnderWay(k'))
  {
    hide Safe, SenderStep, ReceiverStep, LossUnderWay, StopUnderWay;
    match a
    case SenderMoves(t) => SenderGuards(k, t);
    case ReceiverMoves => ReceiverGuards(c, k);
    case _ => EventGuards(c, k, a);
  }

  lemma {:induction false} RunGuards(c: Config, s: State, actions: seq<Action>)
    requires Sound(c, s) && Executable(c, s, actions)
    ensures var s' := Execute(c, s, actions);
      && LossGuards(c, s, actions) + One(LossUnderWay(s.k)) == LossesMarked(c, s, actions) + One(LossUnderWay(s'.k))
      && StopGuards(c, s, actions) + One(StopUnderWay(s.k)) == Abandoned(c, s, actions) + One(StopUnderWay(s'.k))
    decreases |actions|
  {
    if actions != [] {
      var a := actions[0];
      StepGuards(c, s.k, a);
      StepSound(c, s, a);
      hide Sound, Apply, ContentStep, Enabled, MarksLoss, Abandons, LossGuard, StopGuard, LossUnderWay, StopUnderWay, One;
      RunGuards(c, Step(c, s, a), actions[1..]);
    }
  }

  /** The totals agree if and only if as many closed connections left a tuple of a conversation behind as conversations
      were given up because the receiver had stopped; decisions not yet carried out do not count. That the totals agree
      does not give each conversation its marker: one may have two and another none. */
  lemma MarkersMatchIff(c: Config, actions: seq<Action>)
    requires Executable(c, Beginning(), actions)
    ensures var s := Execute(c, Beginning(), actions);
      MarkersMatch(s) <==>
        LossGuards(c, Beginning(), actions) - One(LossUnderWay(s.k))
          == StopGuards(c, Beginning(), actions) - One(StopUnderWay(s.k))
  {
    MarkerLaw(c, actions);
    ReachableSound(c, []);
    RunGuards(c, Beginning(), actions);
    hide Executable, Execute, Sound, MarkerCount, LossesMarked, Abandoned, LossGuards, StopGuards;
  }

  // The law of the markers, for each conversation.

  /** The conversation with this number has just begun. */
  predicate Begins(k: Control, number: int) {
    k.sender.ClearRecent? && k.begun == number
  }

  /** The actions lead from the beginning of one conversation to that of the next. */
  predicate WholeConversation(c: Config, s: State, inside: seq<Action>) {
    Executable(c, s, inside) && Begins(s.k, s.k.begun) && Begins(Execute(c, s, inside).k, s.k.begun + 1)
  }

  /** The window markers among the entries submitted since an earlier state. */
  function MarkersSince(s: State, s': State): nat
    requires s.d.trace <= s'.d.trace
  {
    MarkerCount(s'.d.trace[|s.d.trace|..])
  }

  lemma {:induction false} CountAppend(a: seq<Entry>, b: seq<Entry>)
    ensures MarkerCount(a + b) == MarkerCount(a) + MarkerCount(b)
    decreases |b|
  {
    if b == [] {
      assert a + b == a;
    } else {
      var front, last := b[..|b| - 1], b[|b| - 1];
      assert a + b == a + front + [last] && b == front + [last];
      CountAppend(a, front);
      CountOneMore(a + front, last);
      CountOneMore(front, last);
    }
  }

  lemma MarkersBetween(s: State, s': State)
    requires s.d.trace <= s'.d.trace
    ensures MarkersSince(s, s') == MarkerCount(s'.d.trace) - MarkerCount(s.d.trace)
  {
    CountAppend(s.d.trace, s'.d.trace[|s.d.trace|..]);
    assert s.d.trace + s'.d.trace[|s.d.trace|..] == s'.d.trace;
    hide MarkerCount;
  }

  lemma EventKeepsCount(c: Config, k: Control, a: Action)
    requires Enabled(k, a) && !a.SenderMoves? && !a.ReceiverMoves?
    ensures Apply(c, k, a).begun == k.begun
  {
  }

  /** Only the step that begins a conversation can abandon the one before. */
  lemma StepBegins(c: Config, k: Control, a: Action)
    requires Enabled(k, a)
    ensures k.begun + One(Abandons(k, a)) <= Apply(c, k, a).begun
  {
    hide SenderStep, ReceiverStep;
    match a
    case SenderMoves(t) => SenderBegins(k, t);
    case ReceiverMoves => ReceiverSparesSender(c, k);
    case _ => EventKeepsCount(c, k, a);
  }

  lemma StepGrows(c: Config, s: State, a: Action)
    requires Enabled(s.k, a)
    ensures s.d.trace <= Step(c, s, a).d.trace
  {
    OnlyCrashDrops(c, s, a);
    hide Step, Occupied, Apply;
  }

  lemma {:induction false} RunGrows(c: Config, s: State, actions: seq<Action>)
    requires Executable(c, s, actions)
    ensures s.d.trace <= Execute(c, s, actions).d.trace
    ensures s.k.begun + Abandoned(c, s, actions) <= Execute(c, s, actions).k.begun
    decreases |actions|
  {
    if actions != [] {
      var a := actions[0];
      StepGrows(c, s, a);
      StepBegins(c, s.k, a);
      hide Apply, ContentStep, Enabled, Abandons;
      RunGrows(c, Step(c, s, a), actions[1..]);
    }
  }

  /** At the beginning of a conversation nothing of an earlier one is left to be decided. */
  lemma FreshBeginning(k: Control)
    requires Safe(k) && k.sender.ClearRecent?
    ensures InProgress(k) == 1 && !LossUnderWay(k) && !StopUnderWay(k)
  {
    hide References, States, Linked, Traffic, Waiting;
  }

  lemma ReachableCount(c: Config, actions: seq<Action>)
    requires Executable(c, Beginning(), actions)
    ensures var s := Execute(c, Beginning(), actions); Sound(c, s) && MarkerCount(s.d.trace) == s.k.marked
  {
    ReachableSound(c, []);
    ReachableSound(c, actions);
    RunExcess(c, Beginning(), actions);
    hide Executable, Execute, Sound, MarkerCount, LossesMarked, Abandoned;
  }

  lemma SoundIsSafe(c: Config, s: State)
    requires Sound(c, s)
    ensures Safe(s.k)
  {
    hide Safe, Told;
  }

  /** The markers of any stretch of a run that starts with the beginning of a conversation. */
  lemma MarkersOfStretch(c: Config, before: seq<Action>, inside: seq<Action>)
    requires Executable(c, Beginning(), before)
    requires var s := Execute(c, Beginning(), before); s.k.sender.ClearRecent? && Executable(c, s, inside)
    ensures var s := Execute(c, Beginning(), before); var s' := Execute(c, s, inside);
      && s.d.trace <= s'.d.trace && Sound(c, s) && Safe(s.k) && Safe(s'.k)
      && MarkersSince(s, s') + InProgress(s'.k)
           == s'.k.begun - s.k.begun + 1 + LossesMarked(c, s, inside) - Abandoned(c, s, inside)
      && s.k.begun + Abandoned(c, s, inside) <= s'.k.begun
  {
    hide Executable, Execute, Sound, Safe, MarkerCount, LossesMarked, Abandoned, InProgress, MarkersSince;
    var s := Execute(c, Beginning(), before);
    ReachableCount(c, before);
    SoundIsSafe(c, s);
    FreshBeginning(s.k);
    RunExcess(c, s, inside);
    RunGrows(c, s, inside);
    RunSound(c, s, inside);
    SoundIsSafe(c, Execute(c, s, inside));
    MarkersBetween(s, Execute(c, s, inside));
  }

  /** Every conversation of every run: it has one window marker, one more for each lost connection that was marked in it,
      and one less if it was abandoned. */
  lemma ConversationMarkers(c: Config, before: seq<Action>, inside: seq<Action>)
    requires Executable(c, Beginning(), before) && WholeConversation(c, Execute(c, Beginning(), before), inside)
    ensures var s := Execute(c, Beginning(), before); var s' := Execute(c, s, inside);
      && s.d.trace <= s'.d.trace && Abandoned(c, s, inside) <= 1
      && MarkersSince(s, s') == 1 + LossesMarked(c, s, inside) - Abandoned(c, s, inside)
  {
    MarkersOfStretch(c, before, inside);
    hide Executable, Execute, Sound, Safe, MarkerCount, LossesMarked, Abandoned, MarkersSince, InProgress;
    FreshBeginning(Execute(c, Execute(c, Beginning(), before), inside).k);
  }

  /** The conversation that has not been followed by another one yet: it has its marker as soon as it is not in progress
      any more, and one more for each lost connection that was marked in it. */
  lemma LatestConversationMarkers(c: Config, before: seq<Action>, inside: seq<Action>)
    requires Executable(c, Beginning(), before)
    requires var s := Execute(c, Beginning(), before);
      s.k.sender.ClearRecent? && Executable(c, s, inside) && Execute(c, s, inside).k.begun == s.k.begun
    ensures var s := Execute(c, Beginning(), before); var s' := Execute(c, s, inside);
      s.d.trace <= s'.d.trace && MarkersSince(s, s') == 1 - InProgress(s'.k) + LossesMarked(c, s, inside)
  {
    MarkersOfStretch(c, before, inside);
    hide Executable, Execute, Sound, Safe, MarkerCount, LossesMarked, Abandoned, MarkersSince, InProgress;
  }

  /** A conversation has exactly one window marker if and only if as many closed connections left a tuple of it behind as
      it was given up because the receiver had stopped: none and not, or one and given up. */
  lemma OneMarkerIff(c: Config, before: seq<Action>, inside: seq<Action>)
    requires Executable(c, Beginning(), before) && WholeConversation(c, Execute(c, Beginning(), before), inside)
    ensures var s := Execute(c, Beginning(), before); var s' := Execute(c, s, inside);
      && s.d.trace <= s'.d.trace && StopGuards(c, s, inside) <= 1
      && (MarkersSince(s, s') == 1 <==> LossGuards(c, s, inside) == StopGuards(c, s, inside))
  {
    MarkersOfStretch(c, before, inside);
    ConversationMarkers(c, before, inside);
    hide Executable, Execute, Sound, Safe, MarkerCount, LossesMarked, Abandoned, LossGuards, StopGuards, MarkersSince,
         InProgress, LossUnderWay, StopUnderWay;
    var s := Execute(c, Beginning(), before);
    RunGuards(c, s, inside);
    FreshBeginning(s.k);
    FreshBeginning(Execute(c, s, inside).k);
  }

  // Undisturbed runs.

  /** What holds as long as no error message, lost connection, throw or shutdown has disturbed the run. */
  ghost predicate Undisturbed(k: Control) {
    k.smooth ==>
      && !k.shutdown && k.ws != Error
      && !(k.receiver.ErrorLoad? || k.receiver.ErrorSend? || k.receiver.ErrorStore?)
      && !(k.receiver.CloseLoad? || k.receiver.CloseDone? || k.receiver.CloseMarker? || k.receiver.Crash?)
      && (k.receiver.CloseClear? || k.receiver.CloseStore? ==> k.ws == Closing)
      && (k.sender.ClearFlag? ==> k.finalized)
      && (k.mediaEnd && !k.finalized ==> k.ws == Listening || Completing(k.receiver))
      && (k.sender.Connected? || k.sender.SendAudio? || k.sender.EndMedia? || (k.sender.Ready? && !k.mediaEnd) ==>
            k.ws == Listening)
  }

  lemma ProcessUndisturbed(k: Control)
    requires Safe(k) && Undisturbed(k) && Processing(k.sender)
    ensures Undisturbed(ProcessStep(k))
  {
    hide References, Waiting, Linked;
  }

  lemma ConnectUndisturbed(k: Control, t: TupleId)
    requires Safe(k) && Undisturbed(k) && InConnect(k.sender)
    ensures Undisturbed(ConnectStep(k, t))
  {
    hide References, Waiting, Linked;
  }

  lemma SendUndisturbed(k: Control)
    requires Safe(k) && Undisturbed(k) && Sending(k.sender)
    ensures Undisturbed(SendStep(k))
  {
    hide References, Waiting, Linked;
  }

  lemma FinalUndisturbed(k: Control)
    requires Safe(k) && Undisturbed(k) && (k.sender.FinalLoad? || k.sender.FinalTest? || k.sender.FinalSubmit?)
    ensures Undisturbed(FinalStep(k))
  {
    hide References, Waiting, Linked;
  }

  lemma SenderUndisturbed(k: Control, t: TupleId)
    requires Safe(k) && Undisturbed(k)
    ensures Undisturbed(SenderStep(k, t))
  {
    hide Safe, Undisturbed, ProcessStep, ConnectStep, SendStep, FinalStep;
    if Processing(k.sender) {
      ProcessUndisturbed(k);
    } else if InConnect(k.sender) {
      ConnectUndisturbed(k, t);
    } else if Sending(k.sender) {
      SendUndisturbed(k);
    } else if k.sender.Ready? || k.sender.Finished? {
      IdleSender(k);
    } else {
      FinalUndisturbed(k);
    }
  }

  lemma LoopUndisturbed(k: Control)
    requires Safe(k) && Undisturbed(k) && AtRest(k.receiver)
    ensures Undisturbed(LoopStep(k))
  {
    hide References, Waiting, Linked;
  }

  lemma StartupUndisturbed(k: Control)
    requires Safe(k) && Undisturbed(k) && Startup(k.receiver)
    ensures Undisturbed(StartupStep(k))
  {
    hide References, Waiting, Linked;
  }

  lemma CompletionUndisturbed(c: Config, k: Control)
    requires Safe(k) && Undisturbed(k) && Completing(k.receiver)
    ensures Undisturbed(CompletionStep(c, k))
  {
    hide References, Waiting, Linked;
  }

  lemma CloseUndisturbed(c: Config, k: Control)
    requires Safe(k) && Undisturbed(k) && ClosingUp(k.receiver)
    ensures Undisturbed(CloseStep(c, k))
  {
    hide References, Waiting, Linked;
  }

  lemma ErrorUndisturbed(k: Control)
    requires Safe(k) && Undisturbed(k) && (k.receiver.ErrorLoad? || k.receiver.ErrorSend?)
    ensures Undisturbed(ErrorStep(k))
  {
    hide References, Waiting, Linked;
  }

  lemma UtteranceUndisturbed(c: Config, k: Control)
    requires Safe(k) && Undisturbed(k) && (k.receiver.UttFlush? || k.receiver.UttLoad? || k.receiver.UttWrite?)
    ensures Undisturbed(MessageStep(c, k))
  {
    hide References, Waiting, Linked;
  }

  lemma MessageUndisturbed(c: Config, k: Control)
    requires Safe(k) && Undisturbed(k) && (k.receiver.Greet? || k.receiver.ErrorStore? || k.receiver.Label?)
    ensures Undisturbed(MessageStep(c, k))
  {
    hide References, Waiting, Linked;
  }

  lemma ReceiverUndisturbed(c: Config, k: Control)
    requires Safe(k) && Undisturbed(k)
    ensures Undisturbed(ReceiverStep(c, k))
  {
    hide LoopStep, StartupStep, CompletionStep, CloseStep, ErrorStep, Safe, Undisturbed;
    var r := k.receiver;
    if AtRest(r) {
      LoopUndisturbed(k);
    } else if Startup(r) {
      StartupUndisturbed(k);
    } else if Completing(r) {
      CompletionUndisturbed(c, k);
    } else if ClosingUp(r) {
      CloseUndisturbed(c, k);
    } else if r.ErrorLoad? || r.ErrorSend? {
      ErrorUndisturbed(k);
    } else if r.UttFlush? || r.UttLoad? || r.UttWrite? {
      hide MessageStep;
      UtteranceUndisturbed(c, k);
    } else if !r.Run? {
      hide MessageStep;
      MessageUndisturbed(c, k);
    }
  }

  lemma MessageInUndisturbed(k: Control, m: Message)
    requires Safe(k) && Undisturbed(k) && k.receiver == Run && Expected(k.line, m)
    ensures Undisturbed(OnMessage(k, m))
  {
    hide References, Waiting, Linked;
  }

  lemma InputsUndisturbed(c: Config, k: Control, a: Action)
    requires Safe(k) && Undisturbed(k) && Enabled(k, a) && !a.SenderMoves? && !a.ReceiverMoves? && !a.Message?
    ensures Undisturbed(Apply(c, k, a))
  {
    hide References, Waiting, Linked;
  }

  lemma StepUndisturbed(c: Config, k: Control, a: Action)
    requires Safe(k) && Undisturbed(k) && Enabled(k, a)
    ensures Undisturbed(Apply(c, k, a))
  {
    hide Safe, Undisturbed, SenderStep, ReceiverStep, OnMessage, OnClose, Throw;
    match a
    case SenderMoves(t) => SenderUndisturbed(k, t);
    case ReceiverMoves => ReceiverUndisturbed(c, k);
    case Message(m) => MessageInUndisturbed(k, m);
    case _ => InputsUndisturbed(c, k, a);
  }

  lemma SmoothOnlyFalls(c: Config, k: Control, a: Action)
    requires Enabled(k, a) && !a.SenderMoves? && !a.ReceiverMoves?
    ensures Apply(c, k, a).smooth ==> k.smooth
  {
  }

  lemma SmoothStep(c: Config, k: Control, a: Action)
    requires Enabled(k, a)
    ensures Apply(c, k, a).smooth ==> k.smooth
  {
    hide SenderStep, ReceiverStep;
    match a
    case SenderMoves(t) => SenderBegins(k, t);
    case ReceiverMoves => ReceiverFinalize(c, k);
    case _ => SmoothOnlyFalls(c, k, a);
  }

  lemma {:induction false} NothingLostWhenSmooth(c: Config, s: State, actions: seq<Action>)
    requires Sound(c, s) && Undisturbed(s.k) && Executable(c, s, actions) && Execute(c, s, actions).k.smooth
    ensures s.k.smooth && LossesMarked(c, s, actions) == 0 && Abandoned(c, s, actions) == 0
    decreases |actions|
  {
    if actions != [] {
      var a := actions[0];
      StepUndisturbed(c, s.k, a);
      StepSound(c, s, a);
      SmoothStep(c, s.k, a);
      assert s.k.smooth ==> !MarksLoss(s.k, a) && !Abandons(s.k, a);
      hide Undisturbed, Sound, Apply, ContentStep, Enabled, MarksLoss, Abandons;
      NothingLostWhenSmooth(c, Step(c, s, a), actions[1..]);
    }
  }

  lemma UndisturbedBeginning(c: Config)
    ensures Sound(c, Beginning()) && Undisturbed(Beginning().k)
  {
    ReachableSound(c, []);
    hide Sound;
  }

  /** In particular the totals agree on a run without an error message, a lost connection, a throw or a shutdown. */
  lemma MarkersMatchWhenSmooth(c: Config, actions: seq<Action>)
    requires Executable(c, Beginning(), actions) && Execute(c, Beginning(), actions).k.smooth
    ensures MarkersMatch(Execute(c, Beginning(), actions))
  {
    hide Executable, Execute, Sound, Undisturbed, MarkerCount, LossesMarked, Abandoned;
    UndisturbedBeginning(c);
    NothingLostWhenSmooth(c, Beginning(), actions);
    MarkerLaw(c, actions);
  }

  lemma {:induction false} RunUndisturbed(c: Config, s: State, actions: seq<Action>)
    requires Sound(c, s) && Undisturbed(s.k) && Executable(c, s, actions)
    ensures Undisturbed(Execute(c, s, actions).k)
    decreases |actions|
  {
    if actions != [] {
      var a := actions[0];
      StepUndisturbed(c, s.k, a);
      StepSound(c, s, a);
      hide Undisturbed, Sound, Apply, ContentStep, Enabled;
      RunUndisturbed(c, Step(c, s, a), actions[1..]);
    }
  }

  /** ... and each of its conversations has exactly one marker. */
  lemma OneMarkerPerConversation(c: Config, before: seq<Action>, inside: seq<Action>)
    requires Executable(c, Beginning(), before) && WholeConversation(c, Execute(c, Beginning(), before), inside)
    requires Execute(c, Execute(c, Beginning(), before), inside).k.smooth
    ensures var s := Execute(c, Beginning(), before); var s' := Execute(c, s, inside);
      s.d.trace <= s'.d.trace && MarkersSince(s, s') == 1
  {
    hide Executable, Execute, Sound, Undisturbed, MarkerCount, LossesMarked, Abandoned, MarkersSince;
    UndisturbedBeginning(c);
    ReachableSound(c, before);
    ConversationMarkers(c, before, inside);
    RunUndisturbed(c, Beginning(), before);
    NothingLostWhenSmooth(c, Execute(c, Beginning(), before), inside);
  }

  // ---------- Disturbed runs ----------

  /** A conversation is under way and both threads are idle. */
  predicate InConversation(k: Control) {
    k.sender == Ready && !k.mediaEnd && k.receiver == Run && k.ws == Listening && k.used == None && k.recent.Some?
  }

  lemma {:induction false} Continue(c: Config, s: State, a: seq<Action>, b: seq<Action>)
    requires Executable(c, s, a) && Executable(c, Execute(c, s, a), b)
    ensures Executable(c, s, a + b) && Execute(c, s, a + b) == Execute(c, Execute(c, s, a), b)
    decreases |a|
  {
    hide Step, Enabled;
    if a == [] {
      assert a + b == b;
    } else {
      assert (a + b)[0] == a[0] && (a + b)[1..] == a[1..] + b;
      Continue(c, Step(c, s, a[0]), a[1..], b);
    }
  }

  lemma Two(c: Config, s: State, a: Action, b: Action)
    requires Enabled(s.k, a) && Enabled(Apply(c, s.k, a), b)
    ensures Executable(c, s, [a, b]) && Execute(c, s, [a, b]) == Step(c, Step(c, s, a), b)
    ensures Execute(c, s, [a, b]).k == Apply(c, Apply(c, s.k, a), b)
  {
    var s1 := Step(c, s, a);
    var s2 := Step(c, s1, b);
    hide Apply, Enabled, ContentStep;
    assert [a, b][1..] == [b] && [b][1..] == [];
    assert Executable(c, s2, []) && Execute(c, s2, []) == s2;
    assert Executable(c, s1, [b]) && Execute(c, s1, [b]) == s2;
  }

  lemma More(c: Config, s: State, actions: seq<Action>, a: Action)
    requires Executable(c, s, actions) && Enabled(Execute(c, s, actions).k, a)
    ensures Executable(c, s, actions + [a]) && Execute(c, s, actions + [a]) == Step(c, Execute(c, s, actions), a)
    ensures Execute(c, s, actions + [a]).k == Apply(c, Execute(c, s, actions).k, a)
  {
    assert Step(c, Execute(c, s, actions), a).k == Apply(c, Execute(c, s, actions).k, a) by {
      hide Apply, ContentStep, Executable, Execute;
    }
    var s' := Execute(c, s, actions);
    assert Executable(c, s', [a]) && Execute(c, s', [a]) == Step(c, s', a) by {
      hide Step, Enabled;
      assert [a][1..] == [];
    }
    Continue(c, s, actions, [a]);
  }

  /** The receiver throws and stores its state. */
  lemma Crashes(c: Config, s: State)
    requires InConversation(s.k)
    ensures var steps := [Fault, ReceiverMoves];
      && Executable(c, s, steps)
      && Execute(c, s, steps).k == s.k.(receiver := EndClear, line := Down, smooth := false, ws := Crashed)
  {
    hide Executable, Execute, Step;
    hide StartupStep, CompletionStep, CloseStep, ErrorStep, MessageStep, ContentStep;
    Two(c, s, Fault, ReceiverMoves);
  }

  /** The end of the conversation is noted, and no stop is sent. */
  lemma EndIsNoted(c: Config, s: State)
    requires s.k.sender == Ready && !s.k.mediaEnd
    ensures var steps := [InputWindowMarker, SenderMoves(0)];
      Executable(c, s, steps) && Execute(c, s, steps).k == s.k.(sender := StopLoad, mediaEnd := true, queued := false)
  {
    hide Executable, Execute, Step;
    Two(c, s, InputWindowMarker, SenderMoves(0));
  }

  lemma NextIsQueued(c: Config, s: State)
    requires s.k.sender == StopLoad && s.k.mediaEnd && s.k.ws == Crashed
    ensures var steps := [SenderMoves(0), Input(Audio)];
      Executable(c, s, steps) && Execute(c, s, steps).k == s.k.(sender := Queue(Audio))
  {
    hide Executable, Execute, Step;
    Two(c, s, SenderMoves(0), Input(Audio));
  }

  lemma StoppedIsSeen(c: Config, s: State)
    requires s.k.sender == Queue(Audio) && s.k.ws == Crashed
    ensures var steps := [SenderMoves(0), SenderMoves(0)];
      Executable(c, s, steps) && Execute(c, s, steps).k == s.k.(sender := WaitTest(Audio, Crashed), queued := true)
  {
    hide Executable, Execute, Step;
    Two(c, s, SenderMoves(0), SenderMoves(0));
  }

  lemma NextBegins(c: Config, s: State)
    requires s.k.sender == WaitTest(Audio, Crashed)
    ensures var steps := [SenderMoves(0), SenderMoves(0)];
      && Executable(c, s, steps)
      && Execute(c, s, steps).k ==
           s.k.(sender := ClearRecent(Audio), finalized := false, mediaEnd := false, begun := s.k.begun + 1)
  {
    hide Executable, Execute, Step;
    Two(c, s, SenderMoves(0), SenderMoves(0));
  }

  /** The run from a conversation into the next one, by way of a throw. */
  function LosingRun(): seq<Action> {
    [Fault, ReceiverMoves] + [InputWindowMarker, SenderMoves(0)] + [SenderMoves(0), Input(Audio)]
    + [SenderMoves(0), SenderMoves(0)] + [SenderMoves(0), SenderMoves(0)]
  }

  /** An abandoned conversation: when the receiver throws during a conversation, the next conversation can
      begin although no window marker closed this one. */
  lemma FaultLosesMarker(c: Config, s: State)
    requires InConversation(s.k)
    ensures Executable(c, s, LosingRun())
    ensures var k := Execute(c, s, LosingRun()).k; k.begun == s.k.begun + 1 && k.marked == s.k.marked
  {
    hide Executable, Execute;
    Crashes(c, s);
    var a1 := [Fault, ReceiverMoves];
    EndIsNoted(c, Execute(c, s, a1));
    Continue(c, s, a1, [InputWindowMarker, SenderMoves(0)]);
    var a2 := a1 + [InputWindowMarker, SenderMoves(0)];
    NextIsQueued(c, Execute(c, s, a2));
    Continue(c, s, a2, [SenderMoves(0), Input(Audio)]);
    var a3 := a2 + [SenderMoves(0), Input(Audio)];
    StoppedIsSeen(c, Execute(c, s, a3));
    Continue(c, s, a3, [SenderMoves(0), SenderMoves(0)]);
    var a4 := a3 + [SenderMoves(0), SenderMoves(0)];
    NextBegins(c, Execute(c, s, a4));
    Continue(c, s, a4, [SenderMoves(0), SenderMoves(0)]);
    assert LosingRun() == a4 + [SenderMoves(0), SenderMoves(0)];
  }

  /** The connection of a conversation is lost, and on_close finds the tuple. */
  lemma LosesConnection(c: Config, s: State)
    requires InConversation(s.k)
    ensures var steps := [ConnectionCloses, ReceiverMoves];
      && Executable(c, s, steps)
      && Execute(c, s, steps).k == s.k.(receiver := ErrorSend(s.k.recent.value, true), line := Down, smooth := false)
  {
    hide Executable, Execute, Step;
    hide LoopStep, StartupStep, CompletionStep, CloseStep, MessageStep, ContentStep;
    Two(c, s, ConnectionCloses, ReceiverMoves);
  }

  lemma AfterErrorSend(c: Config, k: Control)
    requires k.receiver.ErrorSend? && k.receiver.closing
    ensures ReceiverStep(c, k) == k.(receiver := CloseLoad)
  {
  }

  lemma AfterCloseLoad(c: Config, k: Control)
    requires k.receiver.CloseLoad? && k.recent.Some?
    ensures ReceiverStep(c, k) == k.(receiver := if c.completedRequested then CloseDone(k.recent.value) else CloseMarker)
  {
  }

  lemma DecidesMarker(c: Config, s: State)
    requires s.k.receiver.ErrorSend? && s.k.receiver.closing && s.k.recent.Some?
    ensures var steps := [ReceiverMoves, ReceiverMoves];
      && Executable(c, s, steps)
      && Execute(c, s, steps).k == s.k.(receiver := if c.completedRequested then CloseDone(s.k.recent.value) else CloseMarker)
  {
    hide Executable, Execute, Step, ReceiverStep;
    AfterErrorSend(c, s.k);
    AfterCloseLoad(c, s.k.(receiver := CloseLoad));
    Two(c, s, ReceiverMoves, ReceiverMoves);
  }

  lemma Single(c: Config, s: State, a: Action)
    requires Enabled(s.k, a)
    ensures Executable(c, s, [a]) && Execute(c, s, [a]) == Step(c, s, a) && Execute(c, s, [a]).k == Apply(c, s.k, a)
  {
    hide Apply, ContentStep, Enabled;
    assert [a][1..] == [];
  }

  lemma SubmitsMarker(c: Config, s: State) returns (actions: seq<Action>)
    requires s.k.receiver.CloseDone? || s.k.receiver.CloseMarker?
    ensures Executable(c, s, actions)
    ensures Execute(c, s, actions).k == s.k.(receiver := CloseClear, marked := s.k.marked + 1)
  {
    hide Executable, Execute, Step;
    hide LoopStep, StartupStep, CompletionStep, ErrorStep, MessageStep, ContentStep;
    if s.k.receiver.CloseDone? {
      actions := [ReceiverMoves, ReceiverMoves];
      Two(c, s, ReceiverMoves, ReceiverMoves);
    } else {
      actions := [ReceiverMoves];
      Single(c, s, ReceiverMoves);
    }
  }

  /** A marked loss: when the connection is lost during a conversation, a window marker is submitted although the
      conversation goes on; if it is completed over a new connection, it gets a second one. */
  lemma LossMarksEarly(c: Config, s: State) returns (actions: seq<Action>)
    requires InConversation(s.k)
    ensures Executable(c, s, actions)
    ensures var k := Execute(c, s, actions).k;
      k == s.k.(receiver := CloseClear, line := Down, smooth := false, marked := s.k.marked + 1)
  {
    LosesConnection(c, s);
    hide Executable, Execute, Step;
    actions := [ConnectionCloses, ReceiverMoves];
    DecidesMarker(c, Execute(c, s, actions));
    Continue(c, s, actions, [ReceiverMoves, ReceiverMoves]);
    actions := actions + [ReceiverMoves, ReceiverMoves];
    var more := SubmitsMarker(c, Execute(c, s, actions));
    Continue(c, s, actions, more);
    actions := actions + more;
  }

  // Such a conversation exists.

  /** The first input passes the waits at once. */
  lemma FirstInput(c: Config) returns (actions: seq<Action>)
    ensures Executable(c, Beginning(), actions)
    ensures Execute(c, Beginning(), actions).k == Initial().(sender := ClearFlag(Audio), queued := true)
  {
    var s := Beginning();
    hide Executable, Execute, Step;
    actions := [Input(Audio), SenderMoves(0)];
    Two(c, s, Input(Audio), SenderMoves(0));
    More(c, s, actions, SenderMoves(0));
    actions := actions + [SenderMoves(0)];
    More(c, s, actions, SenderMoves(0));
    actions := actions + [SenderMoves(0)];
  }

  lemma ClearsUp(c: Config, s: State) returns (actions: seq<Action>)
    requires s.k.sender == ClearFlag(Audio)
    ensures Executable(c, s, actions)
    ensures Execute(c, s, actions).k == s.k.(sender := ConnLoad(Audio, false), finalized := false, mediaEnd := false,
                                             begun := s.k.begun + 1, recent := None, basket := {})
  {
    hide Executable, Execute, Step;
    hide ConnectStep, SendStep, FinalStep, ContentStep;
    actions := [SenderMoves(0), SenderMoves(0)];
    Two(c, s, SenderMoves(0), SenderMoves(0));
    More(c, s, actions, SenderMoves(0));
    actions := actions + [SenderMoves(0)];
    More(c, s, actions, SenderMoves(0));
    actions := actions + [SenderMoves(0)];
  }

  lemma RequestsConnection(c: Config, s: State) returns (actions: seq<Action>)
    requires s.k.sender == ConnLoad(Audio, false) && s.k.ws == Idle && s.k.receiver == Poll
    ensures Executable(c, s, actions)
    ensures Execute(c, s, actions).k == s.k.(sender := ConnLoad(Audio, true), ws := Start, receiver := SetConnecting)
  {
    hide Executable, Execute, Step;
    hide StartupStep, CompletionStep, CloseStep, ErrorStep, MessageStep, ProcessStep, SendStep, FinalStep, ContentStep;
    actions := [SenderMoves(0), SenderMoves(0)];
    Two(c, s, SenderMoves(0), SenderMoves(0));
    More(c, s, actions, ReceiverMoves);
    actions := actions + [ReceiverMoves];
  }

  lemma Connects(c: Config, s: State) returns (actions: seq<Action>)
    requires s.k.receiver == SetConnecting
    ensures Executable(c, s, actions)
    ensures Execute(c, s, actions).k == s.k.(receiver := OpenStore, ws := Connecting, used := None, client := s.k.client + 1)
  {
    hide Executable, Execute, Step;
    hide LoopStep, CompletionStep, CloseStep, ErrorStep, MessageStep, ContentStep;
    actions := [ReceiverMoves, ReceiverMoves];
    Two(c, s, ReceiverMoves, ReceiverMoves);
    More(c, s, actions, Dialled(true));
    actions := actions + [Dialled(true)];
  }

  const GREETING := Decoded(Some(true), false, None, None)

  lemma Opens(c: Config, s: State) returns (actions: seq<Action>)
    requires s.k.receiver == OpenStore
    ensures Executable(c, s, actions)
    ensures Execute(c, s, actions).k == s.k.(receiver := Run, ws := Open, line := AwaitGreeting, handle := s.k.client)
  {
    hide Executable, Execute, Step;
    hide LoopStep, CompletionStep, CloseStep, ErrorStep, MessageStep, ContentStep;
    actions := [ReceiverMoves, ReceiverMoves];
    Two(c, s, ReceiverMoves, ReceiverMoves);
  }

  lemma Greets(c: Config, s: State) returns (actions: seq<Action>)
    requires s.k.receiver == Run && s.k.ws == Open && s.k.line == AwaitGreeting
    ensures Executable(c, s, actions)
    ensures Execute(c, s, actions).k == s.k.(ws := Listening, line := Talking)
  {
    hide Executable, Execute, Step;
    hide LoopStep, StartupStep, CompletionStep, CloseStep, ErrorStep, ContentStep;
    actions := [Message(GREETING), ReceiverMoves];
    Two(c, s, Message(GREETING), ReceiverMoves);
  }

  lemma AfterConnLoad(k: Control, t: TupleId)
    requires k.sender == ConnLoad(Audio, true) && k.ws == Listening
    ensures SenderStep(k, t) == k.(sender := Connected(Audio, k.client))
  {
  }

  lemma AfterConnected(k: Control, t: TupleId)
    requires k.sender.Connected? && k.sender.b == Audio
    ensures SenderStep(k, t) == k.(basket := k.basket + {t}, recent := Some(t), sender := SendAudio(k.sender.c))
  {
  }

  lemma AfterSendAudio(k: Control, t: TupleId)
    requires k.sender.SendAudio?
    ensures SenderStep(k, t) == k.(line := AudioOn(k.line), sender := Ready)
  {
  }

  lemma Speaks(c: Config, s: State) returns (actions: seq<Action>)
    requires s.k.sender == ConnLoad(Audio, true) && s.k.ws == Listening && s.k.basket == {}
    ensures Executable(c, s, actions)
    ensures Execute(c, s, actions).k ==
      s.k.(sender := Ready, basket := {0}, recent := Some(0), line := AudioOn(s.k.line))
  {
    hide Executable, Execute, Step, SenderStep, AudioOn;
    var k1 := s.k.(sender := Connected(Audio, s.k.client));
    AfterConnLoad(s.k, 0);
    AfterConnected(k1, 0);
    AfterSendAudio(SenderStep(k1, 0), 0);
    actions := [SenderMoves(0), SenderMoves(0)];
    Two(c, s, SenderMoves(0), SenderMoves(0));
    More(c, s, actions, SenderMoves(0));
    actions := actions + [SenderMoves(0)];
  }

  /** A conversation is reached without any disturbance, and from there the next one can begin unmarked. */
  lemma ConversationReachable(c: Config) returns (actions: seq<Action>)
    ensures Executable(c, Beginning(), actions)
    ensures InConversation(Execute(c, Beginning(), actions).k) && Execute(c, Beginning(), actions).k.smooth
    ensures Execute(c, Beginning(), actions).k.line == Talking
  {
    var s := Beginning();
    actions := FirstInput(c);
    hide Executable, Execute, Step;
    var more := ClearsUp(c, Execute(c, s, actions));
    Continue(c, s, actions, more);
    actions := actions + more;
    more := RequestsConnection(c, Execute(c, s, actions));
    Continue(c, s, actions, more);
    actions := actions + more;
    more := Connects(c, Execute(c, s, actions));
    Continue(c, s, actions, more);
    actions := actions + more;
    more := Opens(c, Execute(c, s, actions));
    Continue(c, s, actions, more);
    actions := actions + more;
    more := Greets(c, Execute(c, s, actions));
    Continue(c, s, actions, more);
    actions := actions + more;
    more := Speaks(c, Execute(c, s, actions));
    Continue(c, s, actions, more);
    actions := actions + more;
  }

  // ---------- The orderly end ----------

  lemma MarkerStops(c: Config, s: State)
    requires s.k.sender == StopLoad && s.k.ws == Listening && s.k.line == Talking
    ensures var steps := [SenderMoves(0), SenderMoves(0)];
      Executable(c, s, steps) && Execute(c, s, steps).k == s.k.(sender := Ready, line := AwaitDone)
  {
    hide Executable, Execute, Step;
    hide ProcessStep, ConnectStep, FinalStep, ContentStep;
    Two(c, s, SenderMoves(0), SenderMoves(0));
  }

  lemma AfterTestQueued(c: Config, k: Control)
    requires k.receiver.TestQueued? && !k.queued
    ensures ReceiverStep(c, k) == k.(receiver := StoreClosing)
  {
  }

  lemma AfterStoreClosing(c: Config, k: Control)
    requires k.receiver.StoreClosing?
    ensures ReceiverStep(c, k) == k.(ws := Closing, receiver := CallClose)
  {
  }

  lemma AfterCallClose(c: Config, k: Control)
    requires k.receiver.CallClose?
    ensures ReceiverStep(c, k) == k.(receiver := Flush)
  {
  }

  lemma AfterFlush(c: Config, k: Control)
    requires k.receiver.Flush?
    ensures ReceiverStep(c, k) == k.(used := None, receiver := if c.completedRequested then DoneLoad else DoneClear)
  {
  }

  lemma AfterDoneLoad(c: Config, k: Control)
    requires k.receiver.DoneLoad? && k.recent.Some?
    ensures ReceiverStep(c, k) == k.(receiver := DoneSend(k.recent.value))
  {
  }

  lemma AfterDoneSend(c: Config, k: Control)
    requires k.receiver.DoneSend?
    ensures ReceiverStep(c, k) == k.(receiver := DoneClear)
  {
  }

  lemma AfterDoneClear(c: Config, k: Control)
    requires k.receiver.DoneClear?
    ensures ReceiverStep(c, k) == k.(recent := None, receiver := DoneMarker)
  {
  }

  lemma AfterDoneMarker(c: Config, k: Control)
    requires k.receiver.DoneMarker?
    ensures ReceiverStep(c, k) == k.(marked := k.marked + 1, receiver := Finalize)
  {
  }

  lemma AfterFinalize(c: Config, k: Control)
    requires k.receiver.Finalize?
    ensures ReceiverStep(c, k) == k.(finalized := true, receiver := Run)
  {
  }

  /** The service answers the stop. */
  lemma Answered(c: Config, s: State) returns (actions: seq<Action>)
    requires s.k.receiver == Run && s.k.ws == Listening && s.k.line == AwaitDone && !s.k.queued
    ensures Executable(c, s, actions)
    ensures Execute(c, s, actions).k == s.k.(line := Talking, receiver := StoreClosing)
  {
    hide Executable, Execute, Step, ReceiverStep;
    AfterTestQueued(c, s.k.(line := Talking, receiver := TestQueued));
    actions := [Message(GREETING), ReceiverMoves];
    Two(c, s, Message(GREETING), ReceiverMoves);
  }

  lemma ClosesInOrder(c: Config, s: State) returns (actions: seq<Action>)
    requires s.k.receiver == StoreClosing
    ensures Executable(c, s, actions)
    ensures Execute(c, s, actions).k ==
      s.k.(ws := Closing, used := None, receiver := if c.completedRequested then DoneLoad else DoneClear)
  {
    hide Executable, Execute, Step, ReceiverStep;
    AfterStoreClosing(c, s.k);
    var k1 := s.k.(ws := Closing, receiver := CallClose);
    AfterCallClose(c, k1);
    AfterFlush(c, k1.(receiver := Flush));
    actions := [ReceiverMoves, ReceiverMoves];
    Two(c, s, ReceiverMoves, ReceiverMoves);
    More(c, s, actions, ReceiverMoves);
    actions := actions + [ReceiverMoves];
  }

  lemma ReportsCompletion(c: Config, s: State) returns (actions: seq<Action>)
    requires s.k.recent.Some? && s.k.receiver == if c.completedRequested then DoneLoad else DoneClear
    ensures Executable(c, s, actions) && Execute(c, s, actions).k == s.k.(receiver := DoneClear)
  {
    actions := [];
    if c.completedRequested {
      hide Executable, Execute, Step, ReceiverStep;
      AfterDoneLoad(c, s.k);
      AfterDoneSend(c, s.k.(receiver := DoneSend(s.k.recent.value)));
      actions := [ReceiverMoves, ReceiverMoves];
      Two(c, s, ReceiverMoves, ReceiverMoves);
    }
  }

  lemma FinalizesInOrder(c: Config, s: State) returns (actions: seq<Action>)
    requires s.k.receiver == DoneClear
    ensures Executable(c, s, actions)
    ensures Execute(c, s, actions).k == s.k.(recent := None, marked := s.k.marked + 1, finalized := true, receiver := Run)
  {
    hide Executable, Execute, Step, ReceiverStep;
    AfterDoneClear(c, s.k);
    var k1 := s.k.(recent := None, receiver := DoneMarker);
    AfterDoneMarker(c, k1);
    AfterFinalize(c, k1.(marked := k1.marked + 1, receiver := Finalize));
    actions := [ReceiverMoves, ReceiverMoves];
    Two(c, s, ReceiverMoves, ReceiverMoves);
    More(c, s, actions, ReceiverMoves);
    actions := actions + [ReceiverMoves];
  }

  /** The ordinary end of a conversation exists: a window marker is followed by a stop, its answer by one window marker in
      the output and the final flag, and the tuple is given up. */
  lemma ConversationCompletes(c: Config, s: State) returns (actions: seq<Action>)
    requires InConversation(s.k) && s.k.line == Talking
    ensures Executable(c, s, actions)
    ensures Execute(c, s, actions).k ==
      s.k.(mediaEnd := true, queued := false, ws := Closing, recent := None, marked := s.k.marked + 1, finalized := true)
  {
    hide Executable, Execute, Step;
    EndIsNoted(c, s);
    actions := [InputWindowMarker, SenderMoves(0)];
    MarkerStops(c, Execute(c, s, actions));
    Continue(c, s, actions, [SenderMoves(0), SenderMoves(0)]);
    actions := actions + [SenderMoves(0), SenderMoves(0)];
    var more := Answered(c, Execute(c, s, actions));
    Continue(c, s, actions, more);
    actions := actions + more;
    more := ClosesInOrder(c, Execute(c, s, actions));
    Continue(c, s, actions, more);
    actions := actions + more;
    more := ReportsCompletion(c, Execute(c, s, actions));
    Continue(c, s, actions, more);
    actions := actions + more;
    more := FinalizesInOrder(c, Execute(c, s, actions));
    Continue(c, s, actions, more);
    actions := actions + more;
  }
}
