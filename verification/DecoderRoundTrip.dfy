/** Rendering what the service says, and decoding it, are inverse. */
module DecoderRoundTrip {
  import opened Wrappers
  import opened Json
  import opened Decoder
  import opened DecoderProperties

  // ---------- What the service says ----------

  datatype Word = Word(text: string, start: real, end: real, confidence: real)

  datatype Choice = Choice(word: string, confidence: real)

  /** Word alternatives for a stretch of time. */
  datatype Slot = Slot(start: real, end: real, choices: seq<Choice>)

  /** A spotted keyword. */
  datatype Spotted = Spotted(text: string, at: Emergence)

  datatype Said = Said(
    final: bool, confidence: Option<real>, transcript: string, words: seq<Word>, others: seq<string>,
    slots: seq<Slot>, keywords: seq<(string, seq<Spotted>)>)

  datatype Attribution = Attribution(from: real, speaker: int, confidence: real)

  datatype Report = Report(
    error: Option<string>, state: Option<string>, index: Option<real>, said: seq<Said>, labels: seq<Attribution>)

  function Each<X, Y>(xs: seq<X>, f: X -> Y): seq<Y> {
    seq(|xs|, i requires 0 <= i < |xs| => f(xs[i]))
  }

  function Concat<X, Y>(xs: seq<X>, f: X -> seq<Y>): seq<Y> {
    if xs == [] then [] else Concat(xs[..|xs| - 1], f) + f(xs[|xs| - 1])
  }

  // ---------- The document ----------

  function RenderStamp(w: Word): Json {
    Arr([Str(w.text), Num(w.start, false), Num(w.end, false)])
  }

  function RenderWordConfidence(w: Word): Json {
    Arr([Str(w.text), Num(w.confidence, false)])
  }

  function OptionalMember(name: string, v: Option<Json>): seq<(string, Json)> {
    if v.Some? then [(name, v.value)] else []
  }

  function Confidence(s: Said): Option<Json> {
    if s.confidence.Some? then Some(Num(s.confidence.value, false)) else None
  }

  function RenderFirst(s: Said): Json {
    Obj([("transcript", Str(s.transcript)), ("timestamps", Arr(Each(s.words, RenderStamp))),
         ("word_confidence", Arr(Each(s.words, RenderWordConfidence)))] + OptionalMember("confidence", Confidence(s)))
  }

  function RenderOther(transcript: string): Json {
    Obj([("transcript", Str(transcript))])
  }

  function RenderChoice(ch: Choice): Json {
    Obj([("word", Str(ch.word)), ("confidence", Num(ch.confidence, false))])
  }

  function RenderSlot(slot: Slot): Json {
    Obj([("start_time", Num(slot.start, false)), ("end_time", Num(slot.end, false)),
         ("alternatives", Arr(Each(slot.choices, RenderChoice)))])
  }

  function RenderSpotted(m: Spotted): Json {
    Obj([("normalized_text", Str(m.text)), ("start_time", Num(m.at.startTime, false)),
         ("end_time", Num(m.at.endTime, false)), ("confidence", Num(m.at.confidence, false))])
  }

  function RenderKeyword(k: (string, seq<Spotted>)): (string, Json) {
    (k.0, Arr(Each(k.1, RenderSpotted)))
  }

  function RenderSaid(s: Said): Json {
    Obj([("final", Bool(s.final)), ("alternatives", Arr([RenderFirst(s)] + Each(s.others, RenderOther))),
         ("word_alternatives", Arr(Each(s.slots, RenderSlot))), ("keywords_result", Obj(Each(s.keywords, RenderKeyword)))])
  }

  function RenderLabel(l: Attribution): Json {
    Obj([("from", Num(l.from, false)), ("speaker", Num(l.speaker as real, true)), ("confidence", Num(l.confidence, false))])
  }

  function AsString(s: Option<string>): Option<Json> {
    if s.Some? then Some(Str(s.value)) else None
  }

  function AsNumber(x: Option<real>): Option<Json> {
    if x.Some? then Some(Num(x.value, false)) else None
  }

  function Render(r: Report): Json {
    Obj([("results", Arr(Each(r.said, RenderSaid))), ("speaker_labels", Arr(Each(r.labels, RenderLabel)))]
        + OptionalMember("error", AsString(r.error)) + OptionalMember("state", AsString(r.state))
        + OptionalMember("result_index", AsNumber(r.index)))
  }

  // ---------- Finding members ----------

  lemma {:induction false} Lookup(members: seq<(string, Json)>, k: nat, name: string)
    requires k < |members| && members[k].0 == name && forall j :: 0 <= j < k ==> members[j].0 != name
    ensures FindMember(members, name) == Some(members[k].1)
    decreases k
  {
    if k > 0 {
      Lookup(members[1..], k - 1, name);
    }
  }

  lemma {:induction false} Missing(members: seq<(string, Json)>, name: string)
    requires forall j :: 0 <= j < |members| ==> members[j].0 != name
    ensures FindMember(members, name) == None
  {
    if members != [] {
      Missing(members[1..], name);
    }
  }

  lemma MapEach<X(!new), T>(xs: seq<X>, render: X -> Json, f: Json -> T, g: X -> T)
    requires forall x :: f(render(x)) == g(x)
    ensures Map(Each(xs, render), f) == Each(xs, g)
  {
  }

  lemma {:induction false} FlatMapEach<X(!new), T>(xs: seq<X>, render: X -> Json, f: Json -> seq<T>, g: X -> seq<T>)
    requires forall x :: f(render(x)) == g(x)
    ensures FlatMap(Each(xs, render), f) == Concat(xs, g)
  {
    if xs != [] {
      var n := |xs| - 1;
      assert Each(xs, render)[..n] == Each(xs[..n], render);
      FlatMapEach(xs[..n], render, f, g);
    }
  }

  // ---------- Reading back ----------

  lemma StampRead(w: Word)
    ensures ValidStamp(RenderStamp(w))
    ensures WordOf(RenderStamp(w)) == w.text && StartOf(RenderStamp(w)) == w.start && EndOf(RenderStamp(w)) == w.end
    ensures ValidWordConfidence(RenderWordConfidence(w)) && ConfidenceOf(RenderWordConfidence(w)) == w.confidence
  {
  }

  lemma FirstRead(s: Said)
    ensures var a := RenderFirst(s);
      && a.Obj? && RequiredOk(String, a, "transcript") && Transcript(a) == s.transcript
      && Find(a, "timestamps") == Some(Arr(Each(s.words, RenderStamp)))
      && Find(a, "word_confidence") == Some(Arr(Each(s.words, RenderWordConfidence)))
      && Find(a, "confidence") == Confidence(s)
  {
    var members := RenderFirst(s).members;
    assert "timestamps"[1] != "transcript"[1] && "confidence"[0] != "transcript"[0] && "confidence"[0] != "timestamps"[0];
    Lookup(members, 0, "transcript");
    Lookup(members, 1, "timestamps");
    Lookup(members, 2, "word_confidence");
    if s.confidence.Some? {
      Lookup(members, 3, "confidence");
    } else {
      Missing(members, "confidence");
    }
  }

  lemma OtherRead(transcript: string)
    ensures var a := RenderOther(transcript);
      a.Obj? && RequiredOk(String, a, "transcript") && Transcript(a) == transcript
  {
    Lookup(RenderOther(transcript).members, 0, "transcript");
  }

  lemma ChoiceRead(ch: Choice)
    ensures var v := RenderChoice(ch); ValidChoice(v) && ChoiceWord(v) == ch.word && ChoiceConfidence(v) == ch.confidence
  {
    Lookup(RenderChoice(ch).members, 0, "word");
    Lookup(RenderChoice(ch).members, 1, "confidence");
  }

  function WordsIn(slot: Slot): seq<string> { Each(slot.choices, (ch: Choice) => ch.word) }
  function ConfidencesIn(slot: Slot): seq<real> { Each(slot.choices, (ch: Choice) => ch.confidence) }

  lemma SlotRead(slot: Slot)
    ensures var v := RenderSlot(slot);
      && ValidSlot(v) && SlotStart(v) == slot.start && SlotEnd(v) == slot.end
      && SlotWords(v) == WordsIn(slot) && SlotConfidences(v) == ConfidencesIn(slot)
  {
    var members := RenderSlot(slot).members;
    Lookup(members, 0, "start_time");
    Lookup(members, 1, "end_time");
    Lookup(members, 2, "alternatives");
    forall ch ensures var v := RenderChoice(ch); ValidChoice(v) && ChoiceWord(v) == ch.word && ChoiceConfidence(v) == ch.confidence {
      ChoiceRead(ch);
    }
    MapEach(slot.choices, RenderChoice, ChoiceWord, (ch: Choice) => ch.word);
    MapEach(slot.choices, RenderChoice, ChoiceConfidence, (ch: Choice) => ch.confidence);
  }

  lemma SpottedRead(m: Spotted)
    ensures ValidMatch(RenderSpotted(m)) && EmergenceOf(RenderSpotted(m)) == m.at
  {
    var members := RenderSpotted(m).members;
    assert "confidence"[0] != "start_time"[0];
    Lookup(members, 0, "normalized_text");
    Lookup(members, 1, "start_time");
    Lookup(members, 2, "end_time");
    Lookup(members, 3, "confidence");
  }

  lemma LabelRead(l: Attribution)
    ensures var v := RenderLabel(l);
      ValidLabel(v) && FromOf(v) == l.from && SpeakerOf(v) == l.speaker && LabelConfidenceOf(v) == l.confidence
  {
    var members := RenderLabel(l).members;
    Lookup(members, 0, "from");
    Lookup(members, 1, "speaker");
    Lookup(members, 2, "confidence");
  }

  lemma SaidMembers(s: Said)
    ensures var v := RenderSaid(s);
      && v.Obj? && RequiredOk(Boolean, v, "final") && Final(v) == s.final
      && Find(v, "alternatives") == Some(Arr([RenderFirst(s)] + Each(s.others, RenderOther)))
      && Find(v, "word_alternatives") == Some(Arr(Each(s.slots, RenderSlot)))
      && Find(v, "keywords_result") == Some(Obj(Each(s.keywords, RenderKeyword)))
  {
    var members := RenderSaid(s).members;
    Lookup(members, 0, "final");
    Lookup(members, 1, "alternatives");
    Lookup(members, 2, "word_alternatives");
    Lookup(members, 3, "keywords_result");
  }

  // The contribution of one utterance.

  function Texts(s: Said): seq<string> { Each(s.words, (w: Word) => w.text) }
  function Starts(s: Said): seq<real> { Each(s.words, (w: Word) => w.start) }
  function Ends(s: Said): seq<real> { Each(s.words, (w: Word) => w.end) }
  function Certainties(s: Said): seq<real> { Each(s.words, (w: Word) => w.confidence) }

  lemma WordsRead(s: Said)
    ensures var v := RenderSaid(s);
      && TextOf(v) == s.transcript && WordsOf(v) == Texts(s) && StartsOf(v) == Starts(s) && EndsOf(v) == Ends(s)
      && ConfidencesOf(v) == Certainties(s)
      && Alternatives(v) != [] && OthersOf(v) == s.others
      && ConfidenceOfFirst(v) == if s.confidence.Some? then s.confidence.value else -1.0
  {
    SaidMembers(s);
    FirstRead(s);
    forall w: Word ensures WordOf(RenderStamp(w)) == w.text && StartOf(RenderStamp(w)) == w.start
                           && EndOf(RenderStamp(w)) == w.end && ConfidenceOf(RenderWordConfidence(w)) == w.confidence {
      StampRead(w);
    }
    MapEach(s.words, RenderStamp, WordOf, (w: Word) => w.text);
    MapEach(s.words, RenderStamp, StartOf, (w: Word) => w.start);
    MapEach(s.words, RenderStamp, EndOf, (w: Word) => w.end);
    MapEach(s.words, RenderWordConfidence, ConfidenceOf, (w: Word) => w.confidence);
    OthersRead(s);
  }

  lemma OthersRead(s: Said)
    ensures Alternatives(RenderSaid(s)) != [] && OthersOf(RenderSaid(s)) == s.others
  {
    SaidMembers(s);
    forall t: string ensures Transcript(RenderOther(t)) == t {
      OtherRead(t);
    }
    MapEach(s.others, RenderOther, Transcript, (t: string) => t);
    assert Alternatives(RenderSaid(s))[1..] == Each(s.others, RenderOther);
    assert Each(s.others, (t: string) => t) == s.others;
  }

  function SlotBegins(s: Said): seq<real> { Each(s.slots, (x: Slot) => x.start) }
  function SlotFinishes(s: Said): seq<real> { Each(s.slots, (x: Slot) => x.end) }
  function SlotTexts(s: Said): seq<seq<string>> { Each(s.slots, WordsIn) }
  function SlotCertainties(s: Said): seq<seq<real>> { Each(s.slots, ConfidencesIn) }

  lemma SlotsRead(s: Said)
    ensures var v := RenderSaid(s);
      && ValidSlots(v)
      && SlotStartsOf(v) == SlotBegins(s) && SlotEndsOf(v) == SlotFinishes(s)
      && SlotWordsOf(v) == SlotTexts(s) && SlotConfidencesOf(v) == SlotCertainties(s)
  {
    SaidMembers(s);
    forall x: Slot
      ensures var v := RenderSlot(x);
        && ValidSlot(v) && SlotStart(v) == x.start && SlotEnd(v) == x.end
        && SlotWords(v) == WordsIn(x) && SlotConfidences(v) == ConfidencesIn(x)
    {
      SlotRead(x);
    }
    hide ValidSlot, SlotStart, SlotEnd, SlotWords, SlotConfidences, RenderSlot, WordsIn, ConfidencesIn, RenderSaid;
    MapEach(s.slots, RenderSlot, SlotStart, (x: Slot) => x.start);
    MapEach(s.slots, RenderSlot, SlotEnd, (x: Slot) => x.end);
    MapEach(s.slots, RenderSlot, SlotWords, WordsIn);
    MapEach(s.slots, RenderSlot, SlotConfidences, ConfidencesIn);
  }

  /** What an utterance says about a keyword: the first entry of that name. */
  function Spoken(keywords: seq<(string, seq<Spotted>)>, kw: string): Option<seq<Emergence>> {
    if keywords == [] then None
    else if keywords[0].0 == kw then Some(Each(keywords[0].1, (m: Spotted) => m.at))
    else Spoken(keywords[1..], kw)
  }

  lemma MatchesRead(ms: seq<Spotted>)
    ensures forall i :: 0 <= i < |ms| ==> ValidMatch(Each(ms, RenderSpotted)[i])
    ensures Map(Each(ms, RenderSpotted), EmergenceOf) == Each(ms, (m: Spotted) => m.at)
  {
    forall m: Spotted ensures ValidMatch(RenderSpotted(m)) && EmergenceOf(RenderSpotted(m)) == m.at {
      SpottedRead(m);
    }
    hide ValidMatch, RenderSpotted;
    MapEach(ms, RenderSpotted, EmergenceOf, (m: Spotted) => m.at);
  }

  lemma {:induction false} KeywordFound(keywords: seq<(string, seq<Spotted>)>, kw: string)
    ensures var found := FindMember(Each(keywords, RenderKeyword), kw);
      && (found.Some? <==> Spoken(keywords, kw).Some?)
      && (found.Some? ==>
            && found.value.Arr? && (forall m :: m in found.value.items ==> ValidMatch(m))
            && Map(found.value.items, EmergenceOf) == Spoken(keywords, kw).value)
  {
    if keywords != [] {
      assert Each(keywords, RenderKeyword)[1..] == Each(keywords[1..], RenderKeyword);
      assert Each(keywords, RenderKeyword)[0] == RenderKeyword(keywords[0]);
      if keywords[0].0 == kw {
        MatchesRead(keywords[0].1);
      } else {
        KeywordFound(keywords[1..], kw);
      }
      hide ValidMatch, RenderSpotted;
    }
  }

  lemma KeywordsRead(c: Configuration, s: Said)
    ensures ValidKeywords(c, RenderSaid(s))
    ensures forall kw :: Hit(RenderSaid(s), kw) == Spoken(s.keywords, kw)
  {
    SaidMembers(s);
    hide RenderSaid, Spoken, ValidMatch, FindMember;
    forall kw ensures var found := FindMember(Each(s.keywords, RenderKeyword), kw);
      && (found.Some? <==> Spoken(s.keywords, kw).Some?)
      && (found.Some? ==>
            && found.value.Arr? && (forall m :: m in found.value.items ==> ValidMatch(m))
            && Map(found.value.items, EmergenceOf) == Spoken(s.keywords, kw).value)
    {
      KeywordFound(s.keywords, kw);
    }
    hide Map;
  }

  // ---------- Validity ----------

  lemma FirstValid(c: Configuration, s: Said, resultIndex: nat, final: bool)
    ensures ValidAlternative(c, RenderFirst(s), 0, resultIndex, final)
  {
    FirstRead(s);
    forall w: Word ensures ValidStamp(RenderStamp(w)) && ValidWordConfidence(RenderWordConfidence(w)) {
      StampRead(w);
    }
    hide RenderFirst, ValidStamp, ValidWordConfidence, RenderStamp, RenderWordConfidence;
  }

  lemma SaidValid(c: Configuration, s: Said, i: nat)
    ensures ValidResult(c, RenderSaid(s), i)
  {
    SaidMembers(s);
    SlotsRead(s);
    KeywordsRead(c, s);
    FirstValid(c, s, i, s.final);
    forall j | 0 <= j < |s.others| ensures ValidAlternative(c, Each(s.others, RenderOther)[j], j + 1, i, s.final) {
      OtherRead(s.others[j]);
    }
    hide RenderSaid, RenderFirst, RenderOther, ValidSlots, ValidKeywords, ValidAlternative, Hit;
    var alternatives := [RenderFirst(s)] + Each(s.others, RenderOther);
    forall j | 0 <= j < |alternatives| ensures ValidAlternative(c, alternatives[j], j, i, s.final) {
      if j > 0 {
        assert alternatives[j] == Each(s.others, RenderOther)[j - 1];
      }
    }
  }

  lemma ReportMembers(r: Report)
    ensures var v := Render(r);
      && v.Obj? && Find(v, "results") == Some(Arr(Each(r.said, RenderSaid)))
      && Find(v, "speaker_labels") == Some(Arr(Each(r.labels, RenderLabel)))
      && Find(v, "error") == AsString(r.error) && Find(v, "state") == AsString(r.state)
      && Find(v, "result_index") == AsNumber(r.index)
  {
    hide Each, RenderSaid, RenderLabel, FindMember;
    var members := Render(r).members;
    assert "error"[0] != "state"[0];
    Lookup(members, 0, "results");
    Lookup(members, 1, "speaker_labels");
    var e := if r.error.Some? then 1 else 0;
    var t := if r.state.Some? then 1 else 0;
    if r.error.Some? {
      Lookup(members, 2, "error");
    } else {
      Missing(members, "error");
    }
    if r.state.Some? {
      Lookup(members, 2 + e, "state");
    } else {
      Missing(members, "state");
    }
    if r.index.Some? {
      Lookup(members, 2 + e + t, "result_index");
    } else {
      Missing(members, "result_index");
    }
  }

  lemma LabelsRead(r: Report)
    ensures ValidLabels(Render(r))
    ensures Map(LabelsOf(Render(r)), FromOf) == Each(r.labels, (l: Attribution) => l.from)
    ensures Map(LabelsOf(Render(r)), SpeakerOf) == Each(r.labels, (l: Attribution) => l.speaker)
    ensures Map(LabelsOf(Render(r)), LabelConfidenceOf) == Each(r.labels, (l: Attribution) => l.confidence)
  {
    ReportMembers(r);
    forall l: Attribution
      ensures var v := RenderLabel(l);
        ValidLabel(v) && FromOf(v) == l.from && SpeakerOf(v) == l.speaker && LabelConfidenceOf(v) == l.confidence
    {
      LabelRead(l);
    }
    hide Render, RenderLabel, ValidLabel, FromOf, SpeakerOf, LabelConfidenceOf;
    MapEach(r.labels, RenderLabel, FromOf, (l: Attribution) => l.from);
    MapEach(r.labels, RenderLabel, SpeakerOf, (l: Attribution) => l.speaker);
    MapEach(r.labels, RenderLabel, LabelConfidenceOf, (l: Attribution) => l.confidence);
  }

  lemma RenderedIsValid(c: Configuration, r: Report)
    ensures ValidDocument(c, Render(r)) && Results(Render(r)) == Each(r.said, RenderSaid)
  {
    ReportMembers(r);
    LabelsRead(r);
    forall i | 0 <= i < |r.said| ensures ValidResult(c, Each(r.said, RenderSaid)[i], i) {
      SaidValid(c, r.said[i], i);
    }
    hide Render, RenderSaid, ValidResult, ValidLabels;
  }

  // ---------- The selections ----------

  /** The utterances of which words are taken: the final ones, and in partial mode all. */
  function Taken(c: Configuration, us: seq<Said>): seq<Said> {
    if us == [] then []
    else Taken(c, us[..|us| - 1]) + if us[|us| - 1].final || c.mode == Partial then [us[|us| - 1]] else []
  }

  function FinalOnes(us: seq<Said>): seq<Said> {
    if us == [] then [] else FinalOnes(us[..|us| - 1]) + if us[|us| - 1].final then [us[|us| - 1]] else []
  }

  lemma {:induction false} SelectionsRead(c: Configuration, us: seq<Said>)
    ensures Selection(c, Each(us, RenderSaid)) == Each(Taken(c, us), RenderSaid)
    ensures Finals(Each(us, RenderSaid)) == Each(FinalOnes(us), RenderSaid)
  {
    if us != [] {
      var n := |us| - 1;
      assert Each(us, RenderSaid)[..n] == Each(us[..n], RenderSaid);
      SaidMembers(us[n]);
      SelectionsRead(c, us[..n]);
      hide RenderSaid, Final;
    }
  }

  /** What the first of the final utterances that mention a keyword says about it. */
  function FirstMention(finals: seq<Said>, kw: string): Option<seq<Emergence>> {
    if finals == [] then None
    else
      var before := FirstMention(finals[..|finals| - 1], kw);
      if before.Some? then before else Spoken(finals[|finals| - 1].keywords, kw)
  }

  lemma {:induction false} MentionsRead(c: Configuration, finals: seq<Said>, kw: string)
    ensures FirstHit(Each(finals, RenderSaid), kw) == FirstMention(finals, kw)
  {
    if finals != [] {
      var n := |finals| - 1;
      assert Each(finals, RenderSaid)[..n] == Each(finals[..n], RenderSaid);
      MentionsRead(c, finals[..n], kw);
      KeywordsRead(c, finals[n]);
      hide RenderSaid, Hit, Spoken;
    }
  }

  // ---------- The round trip ----------

  lemma ConcatenationsRead(c: Configuration, us: seq<Said>)
    ensures var d, taken := Fold(c, Each(us, RenderSaid)), Taken(c, us);
      && d.finals == Each(us, (u: Said) => u.final)
      && d.text == Concat(taken, (u: Said) => u.transcript)
      && d.words == Concat(taken, Texts) && d.starts == Concat(taken, Starts) && d.ends == Concat(taken, Ends)
  {
    WordsOfSelection(c, Each(us, RenderSaid));
    SelectionsRead(c, us);
    forall u: Said
      ensures var v := RenderSaid(u);
        && Final(v) == u.final && TextOf(v) == u.transcript && WordsOf(v) == Texts(u) && StartsOf(v) == Starts(u)
        && EndsOf(v) == Ends(u)
    {
      SaidMembers(u);
      WordsRead(u);
    }
    hide RenderSaid, Final, TextOf, WordsOf, StartsOf, EndsOf, Texts, Starts, Ends, Fold, Taken, Selection;
    MapEach(us, RenderSaid, Final, (u: Said) => u.final);
    FlatMapEach(Taken(c, us), RenderSaid, TextOf, (u: Said) => u.transcript);
    FlatMapEach(Taken(c, us), RenderSaid, WordsOf, Texts);
    FlatMapEach(Taken(c, us), RenderSaid, StartsOf, Starts);
    FlatMapEach(Taken(c, us), RenderSaid, EndsOf, Ends);
  }

  lemma DetailsRead(c: Configuration, us: seq<Said>)
    ensures var d, finals := Fold(c, Each(us, RenderSaid)), FinalOnes(us);
      && d.wordConfidences == Concat(finals, Certainties)
      && d.slotStarts == Concat(finals, SlotBegins) && d.slotEnds == Concat(finals, SlotFinishes)
      && d.slotWords == Concat(finals, SlotTexts) && d.slotConfidences == Concat(finals, SlotCertainties)
      && d.keywords == map kw | kw in c.keywords && FirstMention(finals, kw).Some? :: FirstMention(finals, kw).value
  {
    DetailsOfFinals(c, Each(us, RenderSaid));
    SelectionsRead(c, us);
    forall u: Said
      ensures var v := RenderSaid(u);
        && ConfidencesOf(v) == Certainties(u) && SlotStartsOf(v) == SlotBegins(u) && SlotEndsOf(v) == SlotFinishes(u)
        && SlotWordsOf(v) == SlotTexts(u) && SlotConfidencesOf(v) == SlotCertainties(u)
    {
      WordsRead(u);
      SlotsRead(u);
    }
    forall kw ensures FirstHit(Each(FinalOnes(us), RenderSaid), kw) == FirstMention(FinalOnes(us), kw) {
      MentionsRead(c, FinalOnes(us), kw);
    }
    hide RenderSaid, ConfidencesOf, SlotStartsOf, SlotEndsOf, SlotWordsOf, SlotConfidencesOf, Fold, FinalOnes, Finals,
         Certainties, SlotBegins, SlotFinishes, SlotTexts, SlotCertainties, FirstHit, FirstMention;
    FlatMapEach(FinalOnes(us), RenderSaid, ConfidencesOf, Certainties);
    FlatMapEach(FinalOnes(us), RenderSaid, SlotStartsOf, SlotBegins);
    FlatMapEach(FinalOnes(us), RenderSaid, SlotEndsOf, SlotFinishes);
    FlatMapEach(FinalOnes(us), RenderSaid, SlotWordsOf, SlotTexts);
    FlatMapEach(FinalOnes(us), RenderSaid, SlotConfidencesOf, SlotCertainties);
  }

  lemma SinglesRead(c: Configuration, us: seq<Said>)
    ensures var d := Fold(c, Each(us, RenderSaid));
      var taken := us != [] && (us[0].final || c.mode == Partial);
      var first := taken && c.mode != Complete;
      && d.startTime == (if taken && us[0].words != [] then us[0].words[0].start else 0.0)
      && d.endTime == (if d.ends != [] then d.ends[|d.ends| - 1] else 0.0)
      && d.others == (if first then us[0].others else [])
      && d.confidence == (if !first then 0.0 else if us[0].confidence.Some? then us[0].confidence.value else -1.0)
  {
    FirstsAndLasts(c, Each(us, RenderSaid));
    if us != [] {
      assert Each(us, RenderSaid)[0] == RenderSaid(us[0]);
      SaidMembers(us[0]);
      WordsRead(us[0]);
      hide Fold, RenderSaid, Final, StartsOf, OthersOf, ConfidenceOfFirst, Alternatives;
    }
  }

  /** Decoding gives back exactly what was rendered: the flags; text, words and times of the utterances taken; word
      confidences, word alternatives and keywords of the final ones; the single values of the first; the labels; and
      error, state and index. */
  lemma RoundTrip(c: Configuration, r: Report)
    ensures ValidDocument(c, Render(r)) && |Results(Render(r))| == |r.said|
    ensures var d, taken := Fold(c, Results(Render(r))), Taken(c, r.said);
      && d.finals == Each(r.said, (u: Said) => u.final)
      && d.text == Concat(taken, (u: Said) => u.transcript)
      && d.words == Concat(taken, Texts) && d.starts == Concat(taken, Starts) && d.ends == Concat(taken, Ends)
    ensures var d, finals := Fold(c, Results(Render(r))), FinalOnes(r.said);
      && d.wordConfidences == Concat(finals, Certainties)
      && d.slotStarts == Concat(finals, SlotBegins) && d.slotEnds == Concat(finals, SlotFinishes)
      && d.slotWords == Concat(finals, SlotTexts) && d.slotConfidences == Concat(finals, SlotCertainties)
      && d.keywords == map kw | kw in c.keywords && FirstMention(finals, kw).Some? :: FirstMention(finals, kw).value
    ensures var d := Fold(c, Results(Render(r)));
      var taken := r.said != [] && (r.said[0].final || c.mode == Partial);
      var first := taken && c.mode != Complete;
      && d.startTime == (if taken && r.said[0].words != [] then r.said[0].words[0].start else 0.0)
      && d.endTime == (if d.ends != [] then d.ends[|d.ends| - 1] else 0.0)
      && d.others == (if first then r.said[0].others else [])
      && d.confidence == (if !first then 0.0 else if r.said[0].confidence.Some? then r.said[0].confidence.value else -1.0)
    ensures Map(LabelsOf(Render(r)), FromOf) == Each(r.labels, (l: Attribution) => l.from)
    ensures Map(LabelsOf(Render(r)), SpeakerOf) == Each(r.labels, (l: Attribution) => l.speaker)
    ensures Map(LabelsOf(Render(r)), LabelConfidenceOf) == Each(r.labels, (l: Attribution) => l.confidence)
    ensures StringMember(Render(r), "error") == r.error && StringMember(Render(r), "state") == r.state
    ensures NumberMember(Render(r), "result_index") == r.index
  {
    RenderedIsValid(c, r);
    LabelsRead(r);
    ReportMembers(r);
    hide Render, Fold, RenderSaid, RenderLabel, Taken, FinalOnes, ValidDocument, LabelsOf, Results;
    hide FromOf, SpeakerOf, LabelConfidenceOf, Texts, Starts, Ends, Certainties, SlotBegins, SlotFinishes, SlotTexts,
         SlotCertainties, FirstMention, Concat, Map;
    ConcatenationsRead(c, r.said);
    DetailsRead(c, r.said);
    SinglesRead(c, r.said);
  }
}
