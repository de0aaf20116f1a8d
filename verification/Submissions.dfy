/** What the WatsonSTT operator submits, told without tuples. */
module Submissions {
  import opened Wrappers
  import opened SpeakerAlignment
  import opened Handshake
  import opened HandshakeSafety
  import opened Transcript
  import opened TranscriptProperties

  // ---------- The reference account ----------

  /** A submission: a final result, possibly with labels, an interim result, an error or a completion; `error` tells
      whether the error attribute is set. */
  datatype Report =
    | FinalResult(result: Result, error: bool, labels: Option<SpeakerLabels>)
    | InterimResult(result: Result, error: bool)
    | ErrorReport
    | Completion(error: bool)

  /** The utterance and the labels of the latest message, the result that waits for labels, the tuples that were made for a
      blob that could not be read and have not reported an error since, and what came of it all. */
  datatype Account = Account(
    heard: Option<Utterance>, labels: Option<SpeakerLabels>, waiting: Option<Result>, faulty: set<TupleId>,
    reports: seq<Report>, dropped: seq<Result>)

  function NothingYet(): Account {
    Account(None, None, None, {}, [], [])
  }

  function Reporting(m: Account, r: Report): Account {
    m.(reports := m.reports + [r])
  }

  /** The result that waits in tuple t is reported. */
  function Released(m: Account, t: TupleId, labels: Option<SpeakerLabels>): Account {
    if m.waiting == None then m
    else Reporting(m, FinalResult(m.waiting.value, t in m.faulty, labels)).(waiting := None)
  }

  /** ... with an error, which settles the fault of the tuple. */
  function ReleasedWithError(m: Account, t: TupleId): Account {
    if m.waiting == None then m
    else Reporting(m, FinalResult(m.waiting.value, true, None)).(waiting := None, faulty := m.faulty - {t})
  }

  /** The waiting result is lost. */
  function Lost(m: Account): Account {
    if m.waiting == None then m else m.(waiting := None, dropped := m.dropped + [m.waiting.value])
  }

  /** The utterance of the latest message meets tuple t: a final one waits for labels or is reported, an interim one is
      reported if such are needed. */
  function Uttered(c: Config, m: Account, t: TupleId): Account {
    if m.heard == None then m
    else if c.complete || m.heard.value.firstFinal then
      if c.identifySpeakers then m.(waiting := Some(m.heard.value.result))
      else Reporting(m, FinalResult(m.heard.value.result, t in m.faulty, None))
    else if c.nonFinalNeeded then Reporting(m, InterimResult(m.heard.value.result, t in m.faulty))
    else m
  }

  /** The tuple that waits for labels. */
  function WaitingTuple(used: Option<TupleId>): TupleId {
    if used.Some? then used.value else 0
  }

  function Observe(c: Config, k: Control, m: Account, a: Action): Account {
    match a
    case SenderMoves(t) =>
      if k.sender.Connected? then m.(faulty := if k.sender.b == ReadError then m.faulty + {t} else m.faulty - {t}) else m
    case Message(msg) =>
      if Acceptable(k.ws, msg) then m.(heard := msg.utterance, labels := msg.labels) else Lost(m)
    case Fault => Lost(m)
    case ReceiverMoves => ObserveReceiver(c, k, m)
    case _ => m
  }

  function ObserveReceiver(c: Config, k: Control, m: Account): Account {
    match k.receiver
    case Flush => Released(m, WaitingTuple(k.used), None)
    case UttFlush(_, _) => Released(m, WaitingTuple(k.used), None)
    case ErrorLoad(_) => ReleasedWithError(m, WaitingTuple(k.used))
    case Label(_) => if c.identifySpeakers then Released(m, WaitingTuple(k.used), m.labels) else m
    case UttLoad(_, _) => if k.recent == None then Lost(m) else m
    case UttWrite(t, _, _) => Uttered(c, m, t)
    case ErrorSend(t, _) => Reporting(m, ErrorReport).(faulty := m.faulty - {t})
    case DoneSend(t) => Reporting(m, Completion(t in m.faulty))
    case CloseDone(t) => Reporting(m, Completion(t in m.faulty))
    case _ => m
  }

  function Observed(c: Config, s: State, m: Account, actions: seq<Action>): Account
    requires Executable(c, s, actions)
    decreases |actions|
  {
    if actions == [] then m else Observed(c, Step(c, s, actions[0]), Observe(c, s.k, m, actions[0]), actions[1..])
  }

  // ---------- What an entry of the history has to carry ----------

  predicate Unlabelled(c: Config, a: Attributes) {
    c.identifySpeakers ==> a.speakers == [] && a.confidences == []
  }

  predicate Carries(c: Config, e: Entry, r: Report) {
    && e.Submitted?
    && match r
       case FinalResult(result, error, labels) =>
         && e.a.result == result && e.a.final && !e.a.completed && e.a.error == error && e.labels == labels
         && (if labels.Some? then
               e.a.speakers == Speakers(labels.value, result.starts) && e.a.confidences == Confidences(labels.value, result.starts)
             else Unlabelled(c, e.a))
       case InterimResult(result, error) =>
         && e.a.result == result && !e.a.final && !e.a.completed && e.a.error == error
         && e.labels == None && Unlabelled(c, e.a)
       case ErrorReport =>
         e.a.result == BLANK && !e.a.final && !e.a.completed && e.a.error && e.labels == None && Unlabelled(c, e.a)
       case Completion(error) =>
         && e.a.result == BLANK && !e.a.final && e.a.completed && e.a.error == error
         && e.labels == None && Unlabelled(c, e.a)
  }

  function SubmittedOnly(trace: seq<Entry>): seq<Entry> {
    if trace == [] then []
    else SubmittedOnly(trace[..|trace| - 1]) + if trace[|trace| - 1].Submitted? then [trace[|trace| - 1]] else []
  }

  function Drops(trace: seq<Entry>): seq<Result> {
    if trace == [] then []
    else Drops(trace[..|trace| - 1]) + if trace[|trace| - 1].Dropped? then [trace[|trace| - 1].result] else []
  }

  /** Entry by entry. */
  ghost predicate AllCarry(c: Config, es: seq<Entry>, rs: seq<Report>) {
    |es| == |rs| && forall i :: 0 <= i < |es| ==> Carries(c, es[i], rs[i])
  }

  /** The message that the receiver works on is the latest one. */
  predicate Latest(r: Receiver, m: Account) {
    match r
    case UttFlush(u, l) => m.heard == Some(u) && m.labels == l
    case UttLoad(u, l) => m.heard == Some(u) && m.labels == l
    case UttWrite(_, u, l) => m.heard == Some(u) && m.labels == l
    case Label(l) => m.labels == Some(l)
    case _ => true
  }

  /** The waiting tuple carries the waiting result. */
  ghost predicate Waits(c: Config, k: Control, d: Content, m: Account) {
    && (m.waiting.Some? <==> Occupied(k))
    && (Occupied(k) ==>
          var a := Read(d, k.used.value);
          a.result == m.waiting.value && a.final && !a.completed && Unlabelled(c, a))
  }

  ghost predicate History(c: Config, d: Content, m: Account) {
    AllCarry(c, SubmittedOnly(d.trace), m.reports) && Drops(d.trace) == m.dropped
  }

  /** The faulty tuples are those that carry an error. */
  ghost predicate Flagged(d: Content, m: Account) {
    forall t :: t in d.tuples ==> (d.tuples[t].error <==> t in m.faulty)
  }

  ghost predicate Agrees(c: Config, k: Control, d: Content, m: Account) {
    Latest(k.receiver, m) && Waits(c, k, d, m) && History(c, d, m) && Flagged(d, m)
  }

  // ---------- Effects ----------

  lemma OneEntry(trace: seq<Entry>, e: Entry)
    ensures SubmittedOnly(trace + [e]) == SubmittedOnly(trace) + if e.Submitted? then [e] else []
    ensures Drops(trace + [e]) == Drops(trace) + if e.Dropped? then [e.result] else []
  {
    assert (trace + [e])[..|trace|] == trace;
  }

  lemma Reported(c: Config, d: Content, d': Content, m: Account, e: Entry, r: Report)
    requires History(c, d, m) && Carries(c, e, r) && d'.trace == d.trace + [e]
    ensures History(c, d', Reporting(m, r))
  {
    OneEntry(d.trace, e);
    assert e.Submitted? && Drops(d.trace) + [] == Drops(d.trace);
    hide Carries, SubmittedOnly, Drops;
  }

  lemma Marked(c: Config, d: Content, d': Content, m: Account, e: Entry)
    requires History(c, d, m) && (e == WindowMarker || e == FinalMarker) && d'.trace == d.trace + [e]
    ensures History(c, d', m)
  {
    OneEntry(d.trace, e);
    assert SubmittedOnly(d.trace) + [] == SubmittedOnly(d.trace) && Drops(d.trace) + [] == Drops(d.trace);
    hide Carries, SubmittedOnly, Drops, AllCarry;
  }

  lemma DroppedOne(c: Config, d: Content, d': Content, m: Account)
    requires History(c, d, m) && m.waiting.Some? && d'.trace == d.trace + [Dropped(m.waiting.value)]
    ensures History(c, d', Lost(m))
  {
    OneEntry(d.trace, Dropped(m.waiting.value));
    assert SubmittedOnly(d.trace) + [] == SubmittedOnly(d.trace);
    hide Carries, SubmittedOnly, Drops, AllCarry;
  }

  lemma SameHistory(c: Config, d: Content, d': Content, m: Account, m': Account)
    requires History(c, d, m) && d'.trace == d.trace && m'.reports == m.reports && m'.dropped == m.dropped
    ensures History(c, d', m')
  {
    hide AllCarry;
  }

  lemma LatestSame(r: Receiver, m: Account, m': Account)
    requires Latest(r, m) && m'.heard == m.heard && m'.labels == m.labels
    ensures Latest(r, m')
  {
  }

  /** A step that submits nothing and leaves the waiting tuple alone. */
  lemma AgreesStill(c: Config, k: Control, k': Control, d: Content, d': Content, m: Account, m': Account)
    requires Agrees(c, k, d, m) && Latest(k'.receiver, m')
    requires (Occupied(k') <==> Occupied(k)) && (Occupied(k) ==> k'.used == k.used && Read(d', k.used.value) == Read(d, k.used.value))
    requires d'.trace == d.trace && m'.waiting == m.waiting && m'.reports == m.reports && m'.dropped == m.dropped
    requires Flagged(d', m')
    ensures Agrees(c, k', d', m')
  {
    hide Latest, Read, History, Unlabelled, Flagged;
    SameHistory(c, d, d', m, m');
  }

  /** Writing a tuple without changing its error attribute, or clearing it. */
  lemma FlaggedStill(d: Content, d': Content, m: Account, m': Account, t: TupleId, a: Attributes)
    requires Flagged(d, m) && d'.tuples == d.tuples[t := a] && (a.error <==> t in m'.faulty)
    requires m'.faulty == m.faulty || m'.faulty == m.faulty - {t} || m'.faulty == m.faulty + {t}
    ensures Flagged(d', m')
  {
  }

  lemma FlaggedTuple(d: Content, m: Account, t: TupleId)
    requires Flagged(d, m) && t in d.tuples
    ensures Read(d, t).error <==> t in m.faulty
  {
  }

  /** The waiting result is reported with the attributes of its tuple. */
  lemma ReleaseAgrees(c: Config, k: Control, k': Control, d: Content, m: Account)
    requires Agrees(c, k, d, m) && Active(k.receiver) && Latest(k'.receiver, m) && !Occupied(k')
    requires k.used.Some? ==> k.used.value in d.tuples
    ensures Agrees(c, k', FlushUsed(k, d), Released(m, WaitingTuple(k.used), None))
  {
    var d', m' := FlushUsed(k, d), Released(m, WaitingTuple(k.used), None);
    LatestSame(k'.receiver, m, m');
    hide Latest, History, Read, Speakers, Confidences, Flagged;
    if k.used.Some? {
      var t, a := k.used.value, Read(d, k.used.value);
      FlaggedTuple(d, m, t);
      FlaggedStill(d, d', m, m', t, a);
      Reported(c, d, d', m, Submitted(t, a, None), FinalResult(m.waiting.value, t in m.faulty, None));
      SameHistory(c, d', d', Reporting(m, FinalResult(m.waiting.value, t in m.faulty, None)), m');
    }
  }

  lemma ErrorReleaseAgrees(c: Config, k: Control, k': Control, d: Content, m: Account)
    requires Agrees(c, k, d, m) && Active(k.receiver) && Latest(k'.receiver, m) && !Occupied(k')
    ensures Agrees(c, k', FlushWithError(k, d), ReleasedWithError(m, WaitingTuple(k.used)))
  {
    var d', m' := FlushWithError(k, d), ReleasedWithError(m, WaitingTuple(k.used));
    LatestSame(k'.receiver, m, m');
    hide Latest, History, Read, Speakers, Confidences, Flagged;
    if k.used.Some? {
      var t, a := k.used.value, Read(d, k.used.value);
      assert d'.tuples == d.tuples[t := a.(error := false)];
      FlaggedStill(d, d', m, m', t, a.(error := false));
      Reported(c, d, d', m, Submitted(t, a.(error := true), None), FinalResult(m.waiting.value, true, None));
      SameHistory(c, d', d', Reporting(m, FinalResult(m.waiting.value, true, None)), m');
    }
  }

  lemma LabelAgrees(c: Config, k: Control, k': Control, d: Content, m: Account, l: SpeakerLabels)
    requires Agrees(c, k, d, m) && Paired(c, k, d) && Active(k.receiver) && c.identifySpeakers && m.labels == Some(l)
    requires Latest(k'.receiver, m) && !Occupied(k') && (k.used.Some? ==> k.used.value in d.tuples)
    ensures Agrees(c, k', AttachLabels(c, k, d, l), Released(m, WaitingTuple(k.used), m.labels))
  {
    var d', m' := AttachLabels(c, k, d, l), Released(m, WaitingTuple(k.used), m.labels);
    LatestSame(k'.receiver, m, m');
    hide Latest, History, Read, Speakers, Confidences, Flagged;
    if k.used.Some? {
      var t := k.used.value;
      var a := Read(d, t).(speakers := Speakers(l, d.saved), confidences := Confidences(l, d.saved));
      FlaggedTuple(d, m, t);
      FlaggedStill(d, d', m, m', t, a);
      Reported(c, d, d', m, Submitted(t, a, Some(l)), FinalResult(m.waiting.value, t in m.faulty, Some(l)));
      SameHistory(c, d', d', Reporting(m, FinalResult(m.waiting.value, t in m.faulty, Some(l))), m');
    }
  }

  lemma SameFlags(d: Content, d': Content, m: Account, m': Account)
    requires Flagged(d, m) && d'.tuples == d.tuples && m'.faulty == m.faulty
    ensures Flagged(d', m')
  {
  }

  lemma DropAgrees(c: Config, k: Control, k': Control, d: Content, m: Account)
    requires Agrees(c, k, d, m) && Active(k.receiver) && Latest(k'.receiver, m) && !Active(k'.receiver)
    ensures Agrees(c, k', Drop(k, d), Lost(m))
  {
    LatestSame(k'.receiver, m, Lost(m));
    hide Latest, History, Unlabelled, Flagged;
    assert Flagged(Drop(k, d), Lost(m)) by { SameFlags(d, Drop(k, d), m, Lost(m)); }
    if k.used.Some? {
      assert Read(d, k.used.value).result == m.waiting.value;
      DroppedOne(c, d, Drop(k, d), m);
    }
  }

  /** An error or a completion is reported while no tuple waits. */
  lemma ReportAgrees(c: Config, k: Control, k': Control, d: Content, d': Content, m: Account, m': Account, e: Entry, r: Report)
    requires Agrees(c, k, d, m) && Latest(k'.receiver, m) && !Occupied(k) && !Occupied(k')
    requires Carries(c, e, r) && d'.trace == d.trace + [e] && Flagged(d', m')
    requires m' == Reporting(m, r).(faulty := m'.faulty)
    ensures Agrees(c, k', d', m')
  {
    LatestSame(k'.receiver, m, m');
    hide Latest, History, Read, Carries, Flagged;
    Reported(c, d, d', m, e, r);
    SameHistory(c, d', d', Reporting(m, r), m');
  }

  lemma UtteranceAgrees(c: Config, k: Control, k': Control, d: Content, m: Account, t: TupleId, u: Utterance)
    requires Agrees(c, k, d, m) && m.heard == Some(u) && Latest(k'.receiver, m) && !Occupied(k) && Active(k'.receiver)
    requires k'.used == (if IsFinal(c, u) && c.identifySpeakers then Some(t) else None) && t in d.tuples
    ensures Agrees(c, k', WriteUtterance(c, d, t, u), Uttered(c, m, t))
  {
    var final := IsFinal(c, u);
    var a := SetResult(ClearSpeakers(c, Read(d, t)), u.result, final);
    var d', m' := WriteUtterance(c, d, t, u), Uttered(c, m, t);
    LatestSame(k'.receiver, m, m');
    FlaggedTuple(d, m, t);
    FlaggedStill(d, d', m, m', t, a);
    hide Latest, History, Read, Speakers, Confidences, Flagged;
    if d'.trace != d.trace {
      Reported(c, d, d', m, Submitted(t, a, None),
               if final then FinalResult(u.result, t in m.faulty, None) else InterimResult(u.result, t in m.faulty));
    } else {
      SameHistory(c, d, d', m, m');
    }
  }

  lemma MarkAgrees(c: Config, k: Control, k': Control, d: Content, m: Account, e: Entry)
    requires Agrees(c, k, d, m) && Latest(k'.receiver, m) && (e == WindowMarker || e == FinalMarker)
    requires (Occupied(k') <==> Occupied(k)) && (Occupied(k) ==> k'.used == k.used)
    ensures Agrees(c, k', d.(trace := d.trace + [e]), m)
  {
    SameFlags(d, d.(trace := d.trace + [e]), m, m);
    hide Latest, History, Unlabelled, Flagged;
    Marked(c, d, d.(trace := d.trace + [e]), m, e);
  }

  // ---------- Every step ----------

  lemma NoMessage(r: Receiver, m: Account)
    requires !r.UttFlush? && !r.UttLoad? && !r.UttWrite? && !r.Label?
    ensures Latest(r, m)
  {
  }

  lemma LatestAtRest(k: Control, m: Account)
    requires AtRest(k.receiver)
    ensures Latest(LoopStep(k).receiver, m)
  {
    hide Latest;
    NoMessage(LoopStep(k).receiver, m);
  }

  lemma LatestStartup(k: Control, m: Account)
    requires Startup(k.receiver)
    ensures Latest(StartupStep(k).receiver, m)
  {
    hide Latest;
    NoMessage(StartupStep(k).receiver, m);
  }

  lemma LatestStopping(c: Config, k: Control, m: Account)
    requires k.receiver.TestQueued? || k.receiver.StoreClosing? || k.receiver.CallClose? || k.receiver.Flush?
    ensures Latest(CompletionStep(c, k).receiver, m)
  {
    hide Latest;
    NoMessage(CompletionStep(c, k).receiver, m);
  }

  lemma LatestCompleted(c: Config, k: Control, m: Account)
    requires k.receiver.DoneLoad? || k.receiver.DoneSend? || k.receiver.DoneClear? || k.receiver.DoneMarker?
      || k.receiver.Finalize?
    ensures Latest(CompletionStep(c, k).receiver, m)
  {
    hide Latest;
    NoMessage(CompletionStep(c, k).receiver, m);
  }

  lemma LatestClosing(c: Config, k: Control, m: Account)
    requires ClosingUp(k.receiver)
    ensures Latest(CloseStep(c, k).receiver, m)
  {
    hide Latest;
    if k.receiver.CloseLoad? {
      AfterCloseLoad(c, k);
    } else {
      AfterCloseDone(c, k);
    }
    NoMessage(CloseStep(c, k).receiver, m);
    hide CloseStep;
  }

  lemma AfterCloseLoad(c: Config, k: Control)
    requires k.receiver.CloseLoad?
    ensures var r := CloseStep(c, k).receiver; r.CloseClear? || r.CloseDone? || r.CloseMarker?
  {
  }

  lemma AfterCloseDone(c: Config, k: Control)
    requires k.receiver.CloseDone? || k.receiver.CloseMarker? || k.receiver.CloseClear? || k.receiver.CloseStore?
    ensures var r := CloseStep(c, k).receiver; r.CloseMarker? || r.CloseClear? || r.CloseStore? || r.AfterRun?
  {
  }

  lemma LatestError(k: Control, m: Account)
    requires k.receiver.ErrorLoad? || k.receiver.ErrorSend?
    ensures Latest(ErrorStep(k).receiver, m)
  {
    hide Latest;
    NoMessage(ErrorStep(k).receiver, m);
  }

  lemma LatestMessage(c: Config, k: Control, m: Account)
    requires k.receiver.UttFlush? || k.receiver.UttLoad? || k.receiver.UttWrite?
    requires Latest(k.receiver, m)
    ensures Latest(MessageStep(c, k).receiver, m)
  {
  }

  lemma LatestOther(c: Config, k: Control, m: Account)
    requires k.receiver.Greet? || k.receiver.ErrorStore? || k.receiver.Label? || k.receiver.Run? || k.receiver.Dial?
    requires Latest(k.receiver, m)
    ensures Latest(MessageStep(c, k).receiver, m)
  {
  }

  lemma LatestReceiver(c: Config, k: Control, m: Account)
    requires Latest(k.receiver, m)
    ensures Latest(ReceiverStep(c, k).receiver, m)
  {
    hide Latest, LoopStep, StartupStep, CompletionStep, CloseStep, ErrorStep, MessageStep;
    var r := k.receiver;
    if AtRest(r) {
      LatestAtRest(k, m);
    } else if Startup(r) {
      LatestStartup(k, m);
    } else if r.TestQueued? || r.StoreClosing? || r.CallClose? || r.Flush? {
      LatestStopping(c, k, m);
    } else if Completing(r) {
      LatestCompleted(c, k, m);
    } else if ClosingUp(r) {
      LatestClosing(c, k, m);
    } else if r.ErrorLoad? || r.ErrorSend? {
      LatestError(k, m);
    } else if r.UttFlush? || r.UttLoad? || r.UttWrite? {
      LatestMessage(c, k, m);
    } else {
      LatestOther(c, k, m);
    }
  }

  lemma AgreesFacts(c: Config, k: Control, d: Content, m: Account)
    requires Agrees(c, k, d, m)
    ensures Latest(k.receiver, m) && Flagged(d, m)
  {
    hide Latest, Waits, History, Flagged;
  }

  /** The tuples that the receiver works on are live. */
  lemma TuplesLive(c: Config, k: Control, d: Content)
    requires Safe(k) && Told(c, k, d)
    ensures Active(k.receiver) && k.used.Some? ==> k.used.value in d.tuples
    ensures Held(k.receiver).Some? ==> Held(k.receiver).value in d.tuples
  {
    ReferencesHold(k);
    assert d.tuples.Keys == k.basket;
    hide Safe, Told, Held;
  }

  lemma QuietAgrees(c: Config, k: Control, d: Content, m: Account)
    requires Safe(k) && Agrees(c, k, d, m) && !Submits(k.receiver)
    ensures Agrees(c, ReceiverStep(c, k), ReceiverContent(c, k, d), ObserveReceiver(c, k, m))
  {
    LoopSpares(k);
    StartupSpares(k);
    CompletionSpares(c, k);
    CloseSpares(c, k);
    AgreesFacts(c, k, d, m);
    LatestReceiver(c, k, m);
    hide Safe, Agrees, Latest, Occupied, LoopStep, StartupStep, CompletionStep, CloseStep, MessageStep, Drop, Lost, Read;
    if k.receiver.UttLoad? && k.recent == None {
      ThrowAgrees(c, k, d, m);
    } else {
      MessageSpares(c, k);
      AgreesStill(c, k, ReceiverStep(c, k), d, d, m, m);
    }
  }

  lemma ThrowAgrees(c: Config, k: Control, d: Content, m: Account)
    requires Agrees(c, k, d, m) && k.receiver.UttLoad? && k.recent == None
    ensures Agrees(c, ReceiverStep(c, k), ReceiverContent(c, k, d), ObserveReceiver(c, k, m))
  {
    AgreesFacts(c, k, d, m);
    LatestReceiver(c, k, m);
    hide Agrees, Latest, Drop, Lost;
    DropAgrees(c, k, ReceiverStep(c, k), d, m);
  }

  lemma FlushingAgrees(c: Config, k: Control, d: Content, m: Account)
    requires Safe(k) && Told(c, k, d) && Agrees(c, k, d, m)
    requires k.receiver.Flush? || k.receiver.UttFlush? || k.receiver.ErrorLoad?
    ensures Agrees(c, ReceiverStep(c, k), ReceiverContent(c, k, d), ObserveReceiver(c, k, m))
  {
    AgreesFacts(c, k, d, m);
    LatestReceiver(c, k, m);
    TuplesLive(c, k, d);
    hide Safe, Told, Agrees, Latest, FlushUsed, FlushWithError, Released, ReleasedWithError, WaitingTuple;
    if k.receiver.ErrorLoad? {
      ErrorReleaseAgrees(c, k, ReceiverStep(c, k), d, m);
    } else {
      ReleaseAgrees(c, k, ReceiverStep(c, k), d, m);
    }
  }

  lemma LabellingAgrees(c: Config, k: Control, d: Content, m: Account)
    requires Safe(k) && Told(c, k, d) && Agrees(c, k, d, m) && k.receiver.Label?
    ensures Agrees(c, ReceiverStep(c, k), ReceiverContent(c, k, d), ObserveReceiver(c, k, m))
  {
    AgreesFacts(c, k, d, m);
    LatestReceiver(c, k, m);
    assert Paired(c, k, d) && m.labels == Some(k.receiver.labels);
    TuplesLive(c, k, d);
    hide Safe, Told, Agrees, Latest, Paired, Released, Read, Speakers, Confidences, Flagged, WaitingTuple;
    if c.identifySpeakers {
      LabelAgrees(c, k, ReceiverStep(c, k), d, m, k.receiver.labels);
    } else {
      AgreesStill(c, k, ReceiverStep(c, k), d, d, m, m);
    }
  }

  lemma ErrorSendAgrees(c: Config, k: Control, d: Content, m: Account)
    requires Safe(k) && Told(c, k, d) && Agrees(c, k, d, m) && k.receiver.ErrorSend?
    ensures Agrees(c, ReceiverStep(c, k), ReceiverContent(c, k, d), ObserveReceiver(c, k, m))
  {
    ReferencesHold(k);
    AgreesFacts(c, k, d, m);
    LatestReceiver(c, k, m);
    hide Safe, Told, Agrees, Latest, Read, Flagged;
    var t := k.receiver.t;
    var a := ClearSpeakers(c, SetResult(Read(d, t), BLANK, false));
    var d', m' := ReceiverContent(c, k, d), ObserveReceiver(c, k, m);
    assert d'.tuples == d.tuples[t := a.(error := false)];
    FlaggedStill(d, d', m, m', t, a.(error := false));
    ReportAgrees(c, k, ReceiverStep(c, k), d, d', m, m', Submitted(t, a.(error := true), None), ErrorReport);
  }

  lemma CompletionAgrees(c: Config, k: Control, d: Content, m: Account)
    requires Safe(k) && Told(c, k, d) && Agrees(c, k, d, m) && (k.receiver.DoneSend? || k.receiver.CloseDone?)
    ensures Agrees(c, ReceiverStep(c, k), ReceiverContent(c, k, d), ObserveReceiver(c, k, m))
  {
    ReferencesHold(k);
    TuplesLive(c, k, d);
    AgreesFacts(c, k, d, m);
    LatestReceiver(c, k, m);
    hide Safe, Told, Agrees, Latest, Read, Flagged;
    var t := k.receiver.t;
    var a := CompletedAttributes(c, Read(d, t));
    var d', m' := ReceiverContent(c, k, d), ObserveReceiver(c, k, m);
    FlaggedTuple(d, m, t);
    FlaggedStill(d, d', m, m', t, a);
    ReportAgrees(c, k, ReceiverStep(c, k), d, d', m, m', Submitted(t, a, None), Completion(t in m.faulty));
  }

  lemma WritingAgrees(c: Config, k: Control, d: Content, m: Account)
    requires Safe(k) && Told(c, k, d) && Agrees(c, k, d, m) && k.receiver.UttWrite?
    ensures Agrees(c, ReceiverStep(c, k), ReceiverContent(c, k, d), ObserveReceiver(c, k, m))
  {
    AgreesFacts(c, k, d, m);
    LatestReceiver(c, k, m);
    assert k.used == None && m.heard == Some(k.receiver.u);
    TuplesLive(c, k, d);
    hide Safe, Told, Agrees, Latest, WriteUtterance, Uttered, Flagged;
    UtteranceAgrees(c, k, ReceiverStep(c, k), d, m, k.receiver.t, k.receiver.u);
  }

  lemma DoneMarkerAfter(c: Config, k: Control)
    requires k.receiver.DoneMarker?
    ensures ReceiverStep(c, k) == k.(marked := k.marked + 1, receiver := Finalize)
  {
  }

  lemma CloseMarkerAfter(c: Config, k: Control)
    requires k.receiver.CloseMarker?
    ensures ReceiverStep(c, k) == k.(marked := k.marked + 1, receiver := CloseClear)
  {
  }

  lemma MarkingAgrees(c: Config, k: Control, d: Content, m: Account)
    requires Agrees(c, k, d, m) && (k.receiver.DoneMarker? || k.receiver.CloseMarker?)
    ensures Agrees(c, ReceiverStep(c, k), ReceiverContent(c, k, d), ObserveReceiver(c, k, m))
  {
    hide Agrees, Latest, ReceiverStep;
    if k.receiver.DoneMarker? {
      DoneMarkerAfter(c, k);
    } else {
      CloseMarkerAfter(c, k);
    }
    NoMessage(ReceiverStep(c, k).receiver, m);
    MarkAgrees(c, k, ReceiverStep(c, k), d, m, WindowMarker);
  }

  lemma ReceiverAgrees(c: Config, k: Control, d: Content, m: Account)
    requires Safe(k) && Told(c, k, d) && Agrees(c, k, d, m)
    ensures Agrees(c, ReceiverStep(c, k), ReceiverContent(c, k, d), ObserveReceiver(c, k, m))
  {
    hide Safe, Told, Agrees, ReceiverStep, ReceiverContent, ObserveReceiver;
    var r := k.receiver;
    if !Submits(r) {
      QuietAgrees(c, k, d, m);
    } else if r.UttWrite? {
      WritingAgrees(c, k, d, m);
    } else if r.DoneMarker? || r.CloseMarker? {
      MarkingAgrees(c, k, d, m);
    } else if r.ErrorSend? {
      ErrorSendAgrees(c, k, d, m);
    } else if r.DoneSend? || r.CloseDone? {
      CompletionAgrees(c, k, d, m);
    } else if r.Label? {
      LabellingAgrees(c, k, d, m);
    } else {
      FlushingAgrees(c, k, d, m);
    }
  }

  lemma PublishAgrees(c: Config, k: Control, d: Content, m: Account, t: TupleId)
    requires Safe(k) && Agrees(c, k, d, m) && Enabled(k, SenderMoves(t)) && k.sender.Connected?
    ensures Agrees(c, SenderStep(k, t), SenderContent(k, d, t), Observe(c, k, m, SenderMoves(t)))
  {
    ReferencesHold(k);
    SenderSparesReceiver(k, t);
    AgreesFacts(c, k, d, m);
    var d', m' := SenderContent(k, d, t), Observe(c, k, m, SenderMoves(t));
    LatestSame(k.receiver, m, m');
    FlaggedStill(d, d', m, m', t, NewAttributes(k.sender.b));
    hide Safe, Agrees, SenderStep, Latest, Held, Active, Flagged;
    AgreesStill(c, k, SenderStep(k, t), d, d', m, m');
  }

  lemma RecycleFlags(k: Control, d: Content, m: Account)
    requires Flagged(d, m)
    ensures Flagged(d.(tuples := d.tuples - k.basket), m)
  {
  }

  lemma SenderAgrees(c: Config, k: Control, d: Content, m: Account, t: TupleId)
    requires Safe(k) && Agrees(c, k, d, m) && Enabled(k, SenderMoves(t))
    ensures Agrees(c, SenderStep(k, t), SenderContent(k, d, t), Observe(c, k, m, SenderMoves(t)))
  {
    if k.sender.Connected? {
      PublishAgrees(c, k, d, m, t);
    } else {
      ReferencesHold(k);
      SenderSparesReceiver(k, t);
      AgreesFacts(c, k, d, m);
      RecycleFlags(k, d, m);
      hide Safe, Agrees, SenderStep, Latest, Held, Active, Flagged;
      if k.sender.FinalSubmit? {
        MarkAgrees(c, k, SenderStep(k, t), d, m, FinalMarker);
      } else {
        AgreesStill(c, k, SenderStep(k, t), d, SenderContent(k, d, t), m, m);
      }
    }
  }

  lemma MessageAgrees(c: Config, k: Control, d: Content, m: Account, msg: Message)
    requires Agrees(c, k, d, m) && k.receiver == Run && Acceptable(k.ws, msg)
    ensures Agrees(c, OnMessage(k, msg), d, m.(heard := msg.utterance, labels := msg.labels))
  {
    assert Latest(OnMessage(k, msg).receiver, m.(heard := msg.utterance, labels := msg.labels));
    SameFlags(d, d, m, m.(heard := msg.utterance, labels := msg.labels));
    hide Acceptable, Read, Flagged;
    AgreesStill(c, k, OnMessage(k, msg), d, d, m, m.(heard := msg.utterance, labels := msg.labels));
  }

  lemma FaultAgrees(c: Config, k: Control, d: Content, m: Account)
    requires Agrees(c, k, d, m)
    ensures Agrees(c, Throw(k), if Active(k.receiver) then Drop(k, d) else d, Lost(m))
  {
    NoMessage(Crash, m);
    hide Latest, Drop, History;
    if Active(k.receiver) {
      DropAgrees(c, k, Throw(k), d, m);
    } else {
      assert Flagged(d, m);
      hide Flagged;
      AgreesStill(c, k, Throw(k), d, d, m, m);
    }
  }

  lemma OtherAgrees(c: Config, k: Control, d: Content, m: Account, a: Action)
    requires Agrees(c, k, d, m) && Enabled(k, a)
    requires !a.SenderMoves? && !a.ReceiverMoves? && !a.Message? && !a.Fault?
    ensures Agrees(c, Apply(c, k, a), d, m)
  {
    AgreesFacts(c, k, d, m);
    ReceiverElsewhere(c, k, a, m);
    hide Agrees, Apply, Latest, Read;
    AgreesStill(c, k, Apply(c, k, a), d, d, m, m);
  }

  lemma ReceiverElsewhere(c: Config, k: Control, a: Action, m: Account)
    requires Enabled(k, a) && !a.SenderMoves? && !a.ReceiverMoves? && !a.Message? && !a.Fault? && Latest(k.receiver, m)
    ensures var k' := Apply(c, k, a);
      k'.used == k.used && (Occupied(k') <==> Occupied(k)) && Latest(k'.receiver, m)
  {
    if a.ReceiverStops? || a.Dialled? || a.ConnectionCloses? {
      ReceiverMoved(c, k, a);
      NoMessage(Apply(c, k, a).receiver, m);
      hide Latest, Apply, Enabled;
    } else {
      ReceiverSpared(c, k, a);
      hide Latest, Apply, Enabled, Active;
    }
  }

  lemma ReceiverMoved(c: Config, k: Control, a: Action)
    requires Enabled(k, a) && (a.ReceiverStops? || a.Dialled? || a.ConnectionCloses?)
    ensures var k', r := Apply(c, k, a), Apply(c, k, a).receiver;
      && k'.used == k.used && (Active(r) <==> Active(k.receiver))
      && !r.UttFlush? && !r.UttLoad? && !r.UttWrite? && !r.Label?
  {
  }

  lemma ReceiverSpared(c: Config, k: Control, a: Action)
    requires Enabled(k, a)
    requires a.Input? || a.InputWindowMarker? || a.InputFinalMarker? || a.SenderGivesUp? || a.RequestShutdown?
    ensures Apply(c, k, a).used == k.used && Apply(c, k, a).receiver == k.receiver
  {
  }

  lemma StepAgrees(c: Config, s: State, m: Account, a: Action)
    requires Sound(c, s) && Enabled(s.k, a) && Agrees(c, s.k, s.d, m)
    ensures Agrees(c, Step(c, s, a).k, Step(c, s, a).d, Observe(c, s.k, m, a))
  {
    hide Safe, Told, Agrees, SenderStep, SenderContent, ReceiverStep, ReceiverContent, Drop, Lost, OnMessage, Throw, Acceptable;
    match a
    case SenderMoves(t) => SenderAgrees(c, s.k, s.d, m, t);
    case ReceiverMoves =>
      hide Observe;
      ReceiverAgrees(c, s.k, s.d, m);
    case Message(msg) =>
      if Acceptable(s.k.ws, msg) {
        MessageAgrees(c, s.k, s.d, m, msg);
      } else {
        FaultAgrees(c, s.k, s.d, m);
        Rejected(s.k, msg);
      }
    case Fault => FaultAgrees(c, s.k, s.d, m);
    case _ =>
      OtherAgrees(c, s.k, s.d, m, a);
      hide Apply;
  }

  lemma Rejected(k: Control, msg: Message)
    requires !Acceptable(k.ws, msg)
    ensures OnMessage(k, msg) == Throw(k) && (k.receiver == Run ==> Active(k.receiver))
  {
  }

  lemma {:induction false} RunAgrees(c: Config, s: State, m: Account, actions: seq<Action>)
    requires Sound(c, s) && Executable(c, s, actions) && Agrees(c, s.k, s.d, m)
    ensures var s' := Execute(c, s, actions); Agrees(c, s'.k, s'.d, Observed(c, s, m, actions))
    decreases |actions|
  {
    if actions != [] {
      StepAgrees(c, s, m, actions[0]);
      StepSound(c, s, actions[0]);
      hide Sound, Agrees, Step, Enabled, Observe;
      RunAgrees(c, Step(c, s, actions[0]), Observe(c, s.k, m, actions[0]), actions[1..]);
    }
  }

  lemma InitiallyAgrees(c: Config)
    ensures Agrees(c, Beginning().k, Beginning().d, NothingYet()) && Sound(c, Beginning())
  {
    InitiallySafe();
  }

  /** Over every run the submissions are, one for one and in order, the reports of the reference account, and the results
      that were dropped are those it lost. */
  lemma EverySubmissionReported(c: Config, actions: seq<Action>)
    requires Executable(c, Beginning(), actions)
    ensures var trace, m := Execute(c, Beginning(), actions).d.trace, Observed(c, Beginning(), NothingYet(), actions);
      && |SubmittedOnly(trace)| == |m.reports|
      && (forall i :: 0 <= i < |m.reports| ==> Carries(c, SubmittedOnly(trace)[i], m.reports[i]))
      && Drops(trace) == m.dropped
  {
    InitiallyAgrees(c);
    RunAgrees(c, Beginning(), NothingYet(), actions);
    hide Executable, Execute, Observed, Latest, Waits, Carries, SubmittedOnly, Drops, Sound;
  }

  // ---------- Utterances, from the messages to the output ----------

  /** The utterances of the messages that met a tuple, in order. `heard` is the utterance of the latest message. */
  function PairedUtterances(c: Config, s: State, heard: Option<Utterance>, actions: seq<Action>): seq<Utterance>
    requires Executable(c, s, actions)
    decreases |actions|
  {
    if actions == [] then []
    else
      var a, s' := actions[0], Step(c, s, actions[0]);
      if a.Message? && Acceptable(s.k.ws, a.m) then PairedUtterances(c, s', a.m.utterance, actions[1..])
      else
        (if a.ReceiverMoves? && s.k.receiver.UttWrite? && heard.Some? then [heard.value] else [])
        + PairedUtterances(c, s', heard, actions[1..])
  }

  /** Results of the final, and of the interim, utterances among them. */
  function Finals(c: Config, us: seq<Utterance>): seq<Result> {
    if us == [] then []
    else (if c.complete || us[0].firstFinal then [us[0].result] else []) + Finals(c, us[1..])
  }

  function Interims(c: Config, us: seq<Utterance>): seq<Result> {
    if us == [] then []
    else (if c.complete || us[0].firstFinal then [] else [us[0].result]) + Interims(c, us[1..])
  }

  function ReportedInterims(rs: seq<Report>): seq<Result> {
    if rs == [] then []
    else ReportedInterims(rs[..|rs| - 1]) + if rs[|rs| - 1].InterimResult? then [rs[|rs| - 1].result] else []
  }

  lemma InterimOneMore(rs: seq<Report>, r: Report)
    ensures ReportedInterims(rs + [r]) == ReportedInterims(rs) + if r.InterimResult? then [r.result] else []
  {
    assert (rs + [r])[..|rs|] == rs;
  }

  /** What one action adds to the reported interim results. */
  lemma ObserveInterims(c: Config, k: Control, m: Account, a: Action)
    ensures var m' := Observe(c, k, m, a);
      && m'.heard == (if a.Message? && Acceptable(k.ws, a.m) then a.m.utterance else m.heard)
      && ReportedInterims(m'.reports) == ReportedInterims(m.reports) +
           if a.ReceiverMoves? && k.receiver.UttWrite? && m.heard.Some? && c.nonFinalNeeded
           then Interims(c, [m.heard.value]) else []
  {
    hide Acceptable, ReportedInterims;
    assert ReportedInterims(m.reports) + [] == ReportedInterims(m.reports);
    if m.heard.Some? {
      assert [m.heard.value][1..] == [] && Interims(c, []) == [];
    }
    var m' := Observe(c, k, m, a);
    if |m'.reports| > |m.reports| {
      assert m'.reports == m.reports + [m'.reports[|m.reports|]];
      InterimOneMore(m.reports, m'.reports[|m.reports|]);
    }
  }

  lemma UtteredOneMore(c: Config, u: Utterance, us: seq<Utterance>)
    ensures Interims(c, [u] + us) == Interims(c, [u]) + Interims(c, us)
    ensures Finals(c, [u] + us) == Finals(c, [u]) + Finals(c, us)
  {
    assert ([u] + us)[1..] == us && [u][1..] == [];
    assert Interims(c, []) == [] && Finals(c, []) == [];
  }

  lemma Join(a: seq<Result>, b: seq<Result>, d: seq<Result>)
    ensures a + (b + d) == a + b + d && a + [] == a && [] + a == a
  {
  }

  lemma {:induction false} InterimsAreHeard(c: Config, s: State, m: Account, actions: seq<Action>)
    requires Executable(c, s, actions)
    ensures ReportedInterims(Observed(c, s, m, actions).reports) == ReportedInterims(m.reports) +
      if c.nonFinalNeeded then Interims(c, PairedUtterances(c, s, m.heard, actions)) else []
    decreases |actions|
  {
    if actions == [] {
      Join(ReportedInterims(m.reports), [], []);
    } else {
      var a, s', m' := actions[0], Step(c, s, actions[0]), Observe(c, s.k, m, actions[0]);
      assert Executable(c, s', actions[1..]);
      var rest := PairedUtterances(c, s', m'.heard, actions[1..]);
      ObserveInterims(c, s.k, m, a);
      hide Observe, Enabled, Step, Acceptable, Interims, ReportedInterims;
      InterimsAreHeard(c, s', m', actions[1..]);
      if a.ReceiverMoves? && s.k.receiver.UttWrite? && m.heard.Some? {
        UtteredOneMore(c, m.heard.value, rest);
        Join(ReportedInterims(m.reports), Interims(c, [m.heard.value]), Interims(c, rest));
      } else {
        assert [] + rest == rest;
        Join(ReportedInterims(m.reports), [], Interims(c, rest));
      }
    }
  }

  /** A non-final submission that carries an utterance: an error and a completion carry a blank result. */
  predicate CarriesInterim(e: Entry) {
    e.Submitted? && !e.a.final && !e.a.completed && e.a.result != BLANK
  }

  function InterimEntries(es: seq<Entry>): seq<Result> {
    if es == [] then []
    else InterimEntries(es[..|es| - 1]) + if CarriesInterim(es[|es| - 1]) then [es[|es| - 1].a.result] else []
  }

  function NotBlank(rs: seq<Result>): seq<Result> {
    if rs == [] then [] else NotBlank(rs[..|rs| - 1]) + if rs[|rs| - 1] != BLANK then [rs[|rs| - 1]] else []
  }

  lemma NotBlankOneMore(rs: seq<Result>, r: Result)
    ensures NotBlank(rs + [r]) == NotBlank(rs) + if r != BLANK then [r] else []
  {
    assert (rs + [r])[..|rs|] == rs;
  }

  lemma {:induction false} EntriesCarryInterims(c: Config, es: seq<Entry>, rs: seq<Report>)
    requires AllCarry(c, es, rs)
    ensures InterimEntries(es) == NotBlank(ReportedInterims(rs))
    decreases |es|
  {
    if es != [] {
      var n := |es| - 1;
      assert Carries(c, es[n], rs[n]);
      EntriesCarryInterims(c, es[..n], rs[..n]);
      if rs[n].InterimResult? {
        NotBlankOneMore(ReportedInterims(rs[..n]), rs[n].result);
      } else {
        assert ReportedInterims(rs) == ReportedInterims(rs[..n]);
      }
      hide ReportedInterims, NotBlank, Speakers, Confidences;
    }
  }

  /** Over every run the submitted tuples with an interim utterance are, in order, the interim utterances of the messages
      that met a tuple, if such are needed, and otherwise there are none. */
  lemma InterimResultsIfNeeded(c: Config, actions: seq<Action>)
    requires Executable(c, Beginning(), actions)
    ensures InterimEntries(SubmittedOnly(Execute(c, Beginning(), actions).d.trace)) ==
      if c.nonFinalNeeded then NotBlank(Interims(c, PairedUtterances(c, Beginning(), None, actions))) else []
  {
    hide Executable, Execute, Observed, Carries, SubmittedOnly, PairedUtterances, Interims, InterimEntries, NotBlank;
    EverySubmissionReported(c, actions);
    InterimsAreHeard(c, Beginning(), NothingYet(), actions);
    var trace, m := Execute(c, Beginning(), actions).d.trace, Observed(c, Beginning(), NothingYet(), actions);
    EntriesCarryInterims(c, SubmittedOnly(trace), m.reports);
    NothingReported(c);
    Join(Interims(c, PairedUtterances(c, Beginning(), None, actions)), [], []);
  }

  lemma NothingReported(c: Config)
    ensures ReportedInterims(NothingYet().reports) == [] && NothingYet().heard == None && NotBlank([]) == []
  {
  }

  // ---------- The final results come from the messages ----------

  lemma AcceptedStep(c: Config, s: State, m: Account, a: Action)
    requires Sound(c, s) && Enabled(s.k, a) && Latest(s.k.receiver, m)
    ensures Step(c, s, a).d.accepted == s.d.accepted +
      if a.ReceiverMoves? && s.k.receiver.UttWrite? && m.heard.Some? then Finals(c, [m.heard.value]) else []
  {
    hide Apply, Read, Sound, Speakers, Confidences, Acceptable;
    if m.heard.Some? {
      assert [m.heard.value][1..] == [] && Finals(c, []) == [];
    }
  }

  lemma {:induction false} AcceptedAreHeard(c: Config, s: State, m: Account, actions: seq<Action>)
    requires Sound(c, s) && Executable(c, s, actions) && Agrees(c, s.k, s.d, m)
    ensures Execute(c, s, actions).d.accepted == s.d.accepted + Finals(c, PairedUtterances(c, s, m.heard, actions))
    decreases |actions|
  {
    if actions == [] {
      Join(s.d.accepted, [], []);
    } else {
      var a, s', m' := actions[0], Step(c, s, actions[0]), Observe(c, s.k, m, actions[0]);
      assert Executable(c, s', actions[1..]);
      var rest := PairedUtterances(c, s', m'.heard, actions[1..]);
      AgreesFacts(c, s.k, s.d, m);
      AcceptedStep(c, s, m, a);
      ObserveInterims(c, s.k, m, a);
      StepAgrees(c, s, m, a);
      StepSound(c, s, a);
      hide Observe, Enabled, Step, Acceptable, Finals, Sound, Agrees, Latest, ReportedInterims;
      AcceptedAreHeard(c, s', m', actions[1..]);
      if a.ReceiverMoves? && s.k.receiver.UttWrite? && m.heard.Some? {
        UtteredOneMore(c, m.heard.value, rest);
        Join(s.d.accepted, Finals(c, [m.heard.value]), Finals(c, rest));
      } else {
        assert [] + rest == rest;
        Join(s.d.accepted, [], Finals(c, rest));
      }
    }
  }

  /** From message to output: the results of the final utterances that met a tuple are, in order, those submitted as final,
      those dropped by a crash, and at most one that waits for its labels. */
  lemma FinalUtterancesOnce(c: Config, actions: seq<Action>)
    requires Executable(c, Beginning(), actions)
    ensures var s := Execute(c, Beginning(), actions);
      Finals(c, PairedUtterances(c, Beginning(), None, actions)) == Outcomes(s.d.trace) + Pending(s.k, s.d)
  {
    InitiallyAgrees(c);
    hide Executable, Execute, PairedUtterances, Finals, Outcomes, Pending, Agrees, Sound;
    AcceptedAreHeard(c, Beginning(), NothingYet(), actions);
    EveryFinalResultOnce(c, actions);
    Join(Finals(c, PairedUtterances(c, Beginning(), None, actions)), [], []);
    NothingReported(c);
  }
}
