/** What the WatsonSTT operator writes into its output tuples and submits, along every interleaving of the handshake. */
module Transcript {
  import opened Wrappers
  import opened SpeakerAlignment
  import opened Handshake

  datatype Attributes = Attributes(
    result: Result, final: bool, speakers: seq<int>, confidences: seq<real>, completed: bool, error: bool)

  /** Submissions, and results that are lost with the receiver's state. `labels` tells what a tuple was labelled with. */
  datatype Entry =
    | Submitted(t: TupleId, a: Attributes, labels: Option<SpeakerLabels>)
    | WindowMarker
    | FinalMarker
    | Dropped(result: Result)

  /** The live tuples, the start times saved for the speaker labels, and two histories: what was submitted, and the
      final results that were paired with a tuple. */
  datatype Content = Content(
    tuples: map<TupleId, Attributes>, saved: seq<real>, trace: seq<Entry>, accepted: seq<Result>)

  function NoContent(): Content {
    Content(map[], [], [], [])
  }

  // ---------- Operations on tuples ----------

  /** Reading a tuple that has been deleted is undefined; here it yields something, and it is shown never to happen. */
  function Read(d: Content, t: TupleId): Attributes {
    if t in d.tuples then d.tuples[t] else NewAttributes(Empty)
  }

  function NewAttributes(b: Blob): Attributes {
    Attributes(BLANK, false, [], [], false, b == ReadError)
  }

  function SetResult(a: Attributes, r: Result, final: bool): Attributes {
    a.(result := r, final := final, completed := false)
  }

  /** setSpeakerResultAttributes with no speaker results, if speakers are identified at all. */
  function ClearSpeakers(c: Config, a: Attributes): Attributes {
    if c.identifySpeakers then a.(speakers := [], confidences := []) else a
  }

  function CompletedAttributes(c: Config, a: Attributes): Attributes {
    ClearSpeakers(c, SetResult(a, BLANK, false)).(completed := true)
  }

  function Submit(d: Content, t: TupleId, a: Attributes, labels: Option<SpeakerLabels>): Content {
    d.(tuples := d.tuples[t := a], trace := d.trace + [Submitted(t, a, labels)])
  }

  /** The error attribute is cleared after the submission. */
  function SubmitWithError(d: Content, t: TupleId, a: Attributes): Content {
    Submit(d, t, a.(error := true), None).(tuples := d.tuples[t := a.(error := false)])
  }

  /** Submits the tuple that waits for its speaker labels, if there is one. */
  function FlushUsed(k: Control, d: Content): Content {
    if k.used == None then d else Submit(d, k.used.value, Read(d, k.used.value), None)
  }

  /** sendErrorTuple when a tuple waits for its labels. */
  function FlushWithError(k: Control, d: Content): Content {
    if k.used == None then d else SubmitWithError(d, k.used.value, Read(d, k.used.value))
  }

  /** sendErrorTuple with the recent tuple. */
  function SendError(c: Config, d: Content, t: TupleId): Content {
    SubmitWithError(d, t, ClearSpeakers(c, SetResult(Read(d, t), BLANK, false)))
  }

  function SendCompleted(c: Config, d: Content, t: TupleId): Content {
    Submit(d, t, CompletedAttributes(c, Read(d, t)), None)
  }

  /** The attributes of an utterance are set; a final one waits for labels or is submitted at once. */
  function WriteUtterance(c: Config, d: Content, t: TupleId, u: Utterance): Content {
    var final := IsFinal(c, u);
    var a := SetResult(ClearSpeakers(c, Read(d, t)), u.result, final);
    var d1 := Content(d.tuples[t := a], if c.identifySpeakers then u.result.starts else d.saved, d.trace,
                      if final then d.accepted + [u.result] else d.accepted);
    if (if final then !c.identifySpeakers else c.nonFinalNeeded) then Submit(d1, t, a, None) else d1
  }

  /** Speaker labels are attached to the waiting tuple. */
  function AttachLabels(c: Config, k: Control, d: Content, l: SpeakerLabels): Content {
    if c.identifySpeakers && k.used.Some? then
      Submit(d, k.used.value,
             Read(d, k.used.value).(speakers := Speakers(l, d.saved), confidences := Confidences(l, d.saved)), Some(l))
    else d
  }

  /** A tuple that waits for its labels is forgotten when the receiver throws. */
  function Drop(k: Control, d: Content): Content {
    if k.used == None then d else d.(trace := d.trace + [Dropped(Read(d, k.used.value).result)])
  }

  // ---------- The content part of each step ----------

  function SenderContent(k: Control, d: Content, t: TupleId): Content {
    match k.sender
    case Connected(b, _) => d.(tuples := d.tuples[t := NewAttributes(b)])
    case Recycle(_) => d.(tuples := d.tuples - k.basket)
    case FinalSubmit(_) => d.(trace := d.trace + [FinalMarker])
    case _ => d
  }

  function ReceiverContent(c: Config, k: Control, d: Content): Content {
    match k.receiver
    case Flush => FlushUsed(k, d)
    case DoneSend(t) => SendCompleted(c, d, t)
    case DoneMarker => d.(trace := d.trace + [WindowMarker])
    case ErrorLoad(_) => FlushWithError(k, d)
    case ErrorSend(t, _) => SendError(c, d, t)
    case UttFlush(_, _) => FlushUsed(k, d)
    case UttLoad(_, _) => if k.recent == None then Drop(k, d) else d
    case UttWrite(t, u, _) => WriteUtterance(c, d, t, u)
    case Label(l) => AttachLabels(c, k, d, l)
    case CloseDone(t) => SendCompleted(c, d, t)
    case CloseMarker => d.(trace := d.trace + [WindowMarker])
    case _ => d
  }

  function ContentStep(c: Config, k: Control, d: Content, a: Action): Content {
    match a
    case SenderMoves(t) => SenderContent(k, d, t)
    case ReceiverMoves => ReceiverContent(c, k, d)
    case Message(m) => if Acceptable(k.ws, m) then d else Drop(k, d)
    case Fault => if Active(k.receiver) then Drop(k, d) else d
    case _ => d
  }

  // ---------- Runs ----------

  datatype State = State(k: Control, d: Content)

  function Beginning(): State {
    State(Initial(), NoContent())
  }

  function Step(c: Config, s: State, a: Action): State
    requires Enabled(s.k, a)
  {
    State(Apply(c, s.k, a), ContentStep(c, s.k, s.d, a))
  }

  predicate Executable(c: Config, s: State, actions: seq<Action>)
    decreases |actions|
  {
    actions != [] ==> Enabled(s.k, actions[0]) && Executable(c, Step(c, s, actions[0]), actions[1..])
  }

  function Execute(c: Config, s: State, actions: seq<Action>): State
    requires Executable(c, s, actions)
    decreases |actions|
  {
    if actions == [] then s else Execute(c, Step(c, s, actions[0]), actions[1..])
  }
}
