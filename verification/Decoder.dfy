/** The decoder of the messages of the speech service: members that accumulate while the JSON tree is walked. */
module Decoder {
  import opened Wrappers
  import opened Json

  /** sttOutputResultMode. */
  datatype Mode = Partial | FinalOnly | Complete

  datatype Configuration = Configuration(mode: Mode, keywords: seq<string>)

  datatype Emergence = Emergence(startTime: real, endTime: real, confidence: real)

  // ---------- Lists over JSON arrays ----------

  function Map<T>(items: seq<Json>, f: Json -> T): seq<T> {
    seq(|items|, i requires 0 <= i < |items| => f(items[i]))
  }

  function FlatMap<T>(items: seq<Json>, f: Json -> seq<T>): seq<T> {
    if items == [] then [] else FlatMap(items[..|items| - 1], f) + f(items[|items| - 1])
  }

  lemma MapOneMore<T>(items: seq<Json>, n: nat, f: Json -> T)
    requires n < |items|
    ensures Map(items[..n + 1], f) == Map(items[..n], f) + [f(items[n])]
  {
  }

  lemma MapAll<T>(items: seq<Json>, f: Json -> T)
    ensures Map(items[..0], f) == [] && Map(items[..|items|], f) == Map(items, f)
  {
    assert items[..|items|] == items;
  }

  // ---------- What is valid, and what it means ----------

  function Stamps(alternative: Json): seq<Json> {
    ItemsOf(Get(alternative, "timestamps"))
  }

  /** A timestamp is a triple of word, start and end. */
  predicate ValidStamp(stamp: Json) {
    stamp.Arr? && |stamp.items| == 3 && stamp.items[0].Str? && stamp.items[1].Num? && stamp.items[2].Num?
  }

  predicate ValidStamps(alternative: Json) {
    OptionalOk(Array, alternative, "timestamps") && forall stamp :: stamp in Stamps(alternative) ==> ValidStamp(stamp)
  }

  function WordOf(stamp: Json): string { StringOf(Item(stamp, 0)) }
  function StartOf(stamp: Json): real { NumberOf(Item(stamp, 1)) }
  function EndOf(stamp: Json): real { NumberOf(Item(stamp, 2)) }

  function WordConfidences(alternative: Json): seq<Json> {
    ItemsOf(Get(alternative, "word_confidence"))
  }

  predicate ValidWordConfidence(pair: Json) {
    pair.Arr? && |pair.items| == 2 && pair.items[1].Num?
  }

  predicate ValidWordConfidences(alternative: Json) {
    && OptionalOk(Array, alternative, "word_confidence")
    && forall pair :: pair in WordConfidences(alternative) ==> ValidWordConfidence(pair)
  }

  function ConfidenceOf(pair: Json): real { NumberOf(Item(pair, 1)) }

  function Final(result: Json): bool {
    BoolOf(Get(result, "final"))
  }

  /** The results of which the alternatives are decoded. */
  predicate Selected(c: Configuration, result: Json) {
    Final(result) || c.mode == Partial
  }

  function Alternatives(result: Json): seq<Json> {
    ItemsOf(Get(result, "alternatives"))
  }

  function FirstAlternative(result: Json): Json {
    Item(Get(result, "alternatives"), 0)
  }

  function Transcript(alternative: Json): string {
    StringOf(Get(alternative, "transcript"))
  }

  predicate ValidAlternative(c: Configuration, alternative: Json, i: nat, resultIndex: nat, final: bool) {
    && alternative.Obj?
    && (c.mode != Complete && resultIndex == 0 && i == 0 ==> OptionalOk(Number, alternative, "confidence"))
    && RequiredOk(String, alternative, "transcript")
    && (i == 0 ==> ValidStamps(alternative) && (final ==> ValidWordConfidences(alternative)))
  }

  predicate ValidAlternatives(c: Configuration, result: Json, resultIndex: nat, final: bool) {
    && RequiredOk(Array, result, "alternatives")
    && forall i :: 0 <= i < |Alternatives(result)| ==> ValidAlternative(c, Alternatives(result)[i], i, resultIndex, final)
  }

  // The contribution of one result.

  function TextOf(result: Json): string { Transcript(FirstAlternative(result)) }
  function WordsOf(result: Json): seq<string> { Map(Stamps(FirstAlternative(result)), WordOf) }
  function StartsOf(result: Json): seq<real> { Map(Stamps(FirstAlternative(result)), StartOf) }
  function EndsOf(result: Json): seq<real> { Map(Stamps(FirstAlternative(result)), EndOf) }
  function ConfidencesOf(result: Json): seq<real> { Map(WordConfidences(FirstAlternative(result)), ConfidenceOf) }

  /** Transcripts of the further alternatives. */
  function OthersOf(result: Json): seq<string> {
    if Alternatives(result) == [] then [] else Map(Alternatives(result)[1..], Transcript)
  }

  /** Confidence of the first alternative: -1 if it has none. */
  function ConfidenceOfFirst(result: Json): real {
    if Find(FirstAlternative(result), "confidence").Some? then NumberOf(Get(FirstAlternative(result), "confidence")) else -1.0
  }

  // Word alternatives of a final result.

  function Slots(result: Json): seq<Json> {
    ItemsOf(Get(result, "word_alternatives"))
  }

  predicate ValidChoice(choice: Json) {
    RequiredOk(String, choice, "word") && RequiredOk(Number, choice, "confidence")
  }

  predicate ValidSlot(slot: Json) {
    && RequiredOk(Number, slot, "start_time") && RequiredOk(Number, slot, "end_time")
    && RequiredOk(Array, slot, "alternatives")
    && forall choice :: choice in Choices(slot) ==> ValidChoice(choice)
  }

  predicate ValidSlots(result: Json) {
    OptionalOk(Array, result, "word_alternatives") && forall slot :: slot in Slots(result) ==> ValidSlot(slot)
  }

  function Choices(slot: Json): seq<Json> { ItemsOf(Get(slot, "alternatives")) }
  function SlotStart(slot: Json): real { NumberOf(Get(slot, "start_time")) }
  function SlotEnd(slot: Json): real { NumberOf(Get(slot, "end_time")) }
  function ChoiceWord(choice: Json): string { StringOf(Get(choice, "word")) }
  function ChoiceConfidence(choice: Json): real { NumberOf(Get(choice, "confidence")) }
  function SlotWords(slot: Json): seq<string> { Map(Choices(slot), ChoiceWord) }
  function SlotConfidences(slot: Json): seq<real> { Map(Choices(slot), ChoiceConfidence) }

  // Keywords of a final result.

  predicate ValidMatch(m: Json) {
    && RequiredOk(String, m, "normalized_text") && RequiredOk(Number, m, "start_time")
    && RequiredOk(Number, m, "end_time") && RequiredOk(Number, m, "confidence")
  }

  predicate ValidKeyword(keywordsResult: Json, kw: string) {
    && OptionalOk(Array, keywordsResult, kw)
    && forall m :: m in ItemsOf(Get(keywordsResult, kw)) ==> ValidMatch(m)
  }

  predicate ValidKeywords(c: Configuration, result: Json) {
    && OptionalOk(Object, result, "keywords_result")
    && (Find(result, "keywords_result").Some? ==>
          forall kw :: kw in c.keywords ==> ValidKeyword(Get(result, "keywords_result"), kw))
  }

  function EmergenceOf(m: Json): Emergence {
    Emergence(NumberOf(Get(m, "start_time")), NumberOf(Get(m, "end_time")), NumberOf(Get(m, "confidence")))
  }

  /** What one result tells about a keyword. */
  function Hit(result: Json, kw: string): Option<seq<Emergence>> {
    var found := Find(Get(result, "keywords_result"), kw);
    if found.Some? then Some(Map(ItemsOf(found.value), EmergenceOf)) else None
  }

  /** insert keeps what an earlier result has told. */
  function Merged(known: map<string, seq<Emergence>>, keywords: seq<string>, result: Json): map<string, seq<Emergence>> {
    map kw | kw in known.Keys + (set w | w in keywords && Hit(result, w).Some?) ::
      if kw in known then known[kw] else Hit(result, kw).value
  }

  // ---------- The document ----------

  function Results(doc: Json): seq<Json> {
    ItemsOf(Get(doc, "results"))
  }

  predicate ValidResult(c: Configuration, result: Json, i: nat) {
    && RequiredOk(Boolean, result, "final")
    && (Selected(c, result) ==> ValidAlternatives(c, result, i, Final(result)))
    && (Final(result) ==> ValidSlots(result) && ValidKeywords(c, result))
  }

  predicate ValidResults(c: Configuration, doc: Json) {
    OptionalOk(Array, doc, "results") && forall i :: 0 <= i < |Results(doc)| ==> ValidResult(c, Results(doc)[i], i)
  }

  function LabelsOf(doc: Json): seq<Json> {
    ItemsOf(Get(doc, "speaker_labels"))
  }

  predicate ValidLabel(l: Json) {
    RequiredOk(Number, l, "from") && RequiredOk(Integer, l, "speaker") && RequiredOk(Number, l, "confidence")
  }

  predicate ValidLabels(doc: Json) {
    OptionalOk(Array, doc, "speaker_labels") && forall l :: l in LabelsOf(doc) ==> ValidLabel(l)
  }

  function FromOf(l: Json): real { NumberOf(Get(l, "from")) }
  function SpeakerOf(l: Json): int { IntOf(Get(l, "speaker")) }
  function LabelConfidenceOf(l: Json): real { NumberOf(Get(l, "confidence")) }

  predicate ValidDocument(c: Configuration, doc: Json) {
    && OptionalOk(String, doc, "error") && OptionalOk(String, doc, "state")
    && ValidResults(c, doc) && OptionalOk(Number, doc, "result_index") && ValidLabels(doc)
  }

  /** The results that satisfy a condition, in their order. */
  function Selection(c: Configuration, results: seq<Json>): seq<Json> {
    if results == [] then []
    else
      var last := results[|results| - 1];
      Selection(c, results[..|results| - 1]) + if Selected(c, last) then [last] else []
  }

  function Finals(results: seq<Json>): seq<Json> {
    if results == [] then []
    else
      var last := results[|results| - 1];
      Finals(results[..|results| - 1]) + if Final(last) then [last] else []
  }

  /** What the first final result that carries the keyword tells about it. */
  function FirstHit(finals: seq<Json>, kw: string): Option<seq<Emergence>> {
    if finals == [] then None
    else
      var before := FirstHit(finals[..|finals| - 1], kw);
      if before.Some? then before else Hit(finals[|finals| - 1], kw)
  }

  function KeywordMap(keywords: seq<string>, finals: seq<Json>): map<string, seq<Emergence>> {
    map kw | kw in keywords && FirstHit(finals, kw).Some? :: FirstHit(finals, kw).value
  }

  lemma FlatMapOneMore<T>(items: seq<Json>, x: Json, f: Json -> seq<T>)
    ensures FlatMap(items + [x], f) == FlatMap(items, f) + f(x)
  {
    assert (items + [x])[..|items|] == items;
  }

  lemma FirstHitOneMore(finals: seq<Json>, result: Json, kw: string)
    ensures FirstHit(finals + [result], kw) == if FirstHit(finals, kw).Some? then FirstHit(finals, kw) else Hit(result, kw)
  {
    assert (finals + [result])[..|finals|] == finals;
  }

  lemma KeywordsOneMore(keywords: seq<string>, finals: seq<Json>, result: Json)
    ensures KeywordMap(keywords, finals + [result]) == Merged(KeywordMap(keywords, finals), keywords, result)
  {
    forall kw ensures FirstHit(finals + [result], kw)
                   == if FirstHit(finals, kw).Some? then FirstHit(finals, kw) else Hit(result, kw) {
      FirstHitOneMore(finals, result, kw);
    }
    hide FirstHit, Hit;
    assert KeywordMap(keywords, finals + [result]).Keys == Merged(KeywordMap(keywords, finals), keywords, result).Keys;
  }

  function StringMember(doc: Json, name: string): Option<string> {
    if Find(doc, name).Some? then Some(StringOf(Get(doc, name))) else None
  }

  function NumberMember(doc: Json, name: string): Option<real> {
    if Find(doc, name).Some? then Some(NumberOf(Get(doc, name))) else None
  }

  // ---------- The fold over the results ----------

  /** What the members of the result decoders hold. */
  datatype Decoded = Decoded(
    finals: seq<bool>,
    text: string, others: seq<string>, confidence: real,
    words: seq<string>, wordConfidences: seq<real>, starts: seq<real>, ends: seq<real>, startTime: real, endTime: real,
    slotStarts: seq<real>, slotEnds: seq<real>, slotWords: seq<seq<string>>, slotConfidences: seq<seq<real>>,
    keywords: map<string, seq<Emergence>>)

  function Nothing(): Decoded {
    Decoded([], "", [], 0.0, [], [], [], [], 0.0, 0.0, [], [], [], [], map[])
  }

  function WithAlternatives(c: Configuration, d: Decoded, result: Json, i: nat): Decoded {
    var first := c.mode != Complete && i == 0;
    d.(text := d.text + TextOf(result),
       others := d.others + (if first then OthersOf(result) else []),
       confidence := if first && Alternatives(result) != [] then ConfidenceOfFirst(result) else d.confidence,
       words := d.words + WordsOf(result),
       wordConfidences := d.wordConfidences + (if Final(result) then ConfidencesOf(result) else []),
       starts := d.starts + StartsOf(result),
       ends := d.ends + EndsOf(result),
       startTime := if i == 0 && StartsOf(result) != [] then StartsOf(result)[0] else d.startTime,
       endTime := if EndsOf(result) != [] then EndsOf(result)[|EndsOf(result)| - 1] else d.endTime)
  }

  function SlotStartsOf(result: Json): seq<real> { Map(Slots(result), SlotStart) }
  function SlotEndsOf(result: Json): seq<real> { Map(Slots(result), SlotEnd) }
  function SlotWordsOf(result: Json): seq<seq<string>> { Map(Slots(result), SlotWords) }
  function SlotConfidencesOf(result: Json): seq<seq<real>> { Map(Slots(result), SlotConfidences) }

  function WithFinal(c: Configuration, d: Decoded, result: Json): Decoded {
    d.(slotStarts := d.slotStarts + SlotStartsOf(result),
       slotEnds := d.slotEnds + SlotEndsOf(result),
       slotWords := d.slotWords + SlotWordsOf(result),
       slotConfidences := d.slotConfidences + SlotConfidencesOf(result),
       keywords := Merged(d.keywords, c.keywords, result))
  }

  function Accumulate(c: Configuration, d: Decoded, result: Json, i: nat): Decoded {
    var d1 := d.(finals := d.finals + [Final(result)]);
    var d2 := if Selected(c, result) then WithAlternatives(c, d1, result, i) else d1;
    if Final(result) then WithFinal(c, d2, result) else d2
  }

  function Fold(c: Configuration, results: seq<Json>): Decoded {
    if results == [] then Nothing()
    else Accumulate(c, Fold(c, results[..|results| - 1]), results[|results| - 1], |results| - 1)
  }

  lemma DocumentParts(c: Configuration, doc: Json)
    ensures ValidDocument(c, doc) <==>
      && OptionalOk(String, doc, "error") && OptionalOk(String, doc, "state")
      && ValidResults(c, doc) && OptionalOk(Number, doc, "result_index") && ValidLabels(doc)
  {
  }

  lemma FoldOfNone(c: Configuration, results: seq<Json>)
    ensures Fold(c, results[..0]) == Nothing() && results[..|results|] == results
  {
  }

  lemma FoldOneMore(c: Configuration, results: seq<Json>, i: nat)
    requires i < |results|
    ensures Fold(c, results[..i + 1]) == Accumulate(c, Fold(c, results[..i]), results[i], i)
  {
    assert results[..i + 1][..i] == results[..i];
    hide Accumulate;
  }

  // ---------- The decoder object ----------

  /** Each method returns false where the original throws; the members are then left half-way. */
  class Decoder {
    const configuration: Configuration
    var errorValue: Option<string>
    var stateValue: Option<string>
    var isListening: bool
    var resultsSize: nat
    var finals: seq<bool>
    var utteranceText: string
    var utteranceAlternatives: seq<string>
    var confidence: real
    var utteranceWords: seq<string>
    var utteranceWordsConfidences: seq<real>
    var utteranceWordsStartTimes: seq<real>
    var utteranceWordsEndTimes: seq<real>
    var utteranceStartTime: real
    var utteranceEndTime: real
    var startTimes: seq<real>
    var endTimes: seq<real>
    var wordAlternatives: seq<seq<string>>
    var wordConfidences: seq<seq<real>>
    var kwmaplist: map<string, seq<Emergence>>
    var resultIndexValue: Option<real>
    var from: seq<real>
    var speaker: seq<int>
    var speakerConfidence: seq<real>

    constructor (c: Configuration)
      ensures configuration == c
    {
      configuration := c;
      errorValue, stateValue, isListening, resultsSize, finals := None, None, false, 0, [];
      utteranceText, utteranceAlternatives, confidence := "", [], 0.0;
      utteranceWords, utteranceWordsConfidences := [], [];
      utteranceWordsStartTimes, utteranceWordsEndTimes, utteranceStartTime, utteranceEndTime := [], [], 0.0, 0.0;
      startTimes, endTimes, wordAlternatives, wordConfidences := [], [], [], [];
      kwmaplist, resultIndexValue := map[], None;
      from, speaker, speakerConfidence := [], [], [];
    }

    function Members(): Decoded
      reads `finals, `startTimes, `endTimes, `wordAlternatives, `wordConfidences, `kwmaplist,
            `utteranceText, `utteranceAlternatives, `confidence, `utteranceWords, `utteranceWordsConfidences,
            `utteranceWordsStartTimes, `utteranceWordsEndTimes, `utteranceStartTime, `utteranceEndTime
    {
      Decoded(finals, utteranceText, utteranceAlternatives, confidence, utteranceWords, utteranceWordsConfidences,
              utteranceWordsStartTimes, utteranceWordsEndTimes, utteranceStartTime, utteranceEndTime,
              startTimes, endTimes, wordAlternatives, wordConfidences, kwmaplist)
    }

    method DoWorkTimestamps(alternative: Json, resultIndex: nat) returns (ok: bool)
      modifies `utteranceWords, `utteranceWordsStartTimes, `utteranceWordsEndTimes, `utteranceStartTime, `utteranceEndTime
      ensures ok <==> ValidStamps(alternative)
      ensures var stamps := Stamps(alternative); ok ==>
        && utteranceWords == old(utteranceWords) + Map(stamps, WordOf)
        && utteranceWordsStartTimes == old(utteranceWordsStartTimes) + Map(stamps, StartOf)
        && utteranceWordsEndTimes == old(utteranceWordsEndTimes) + Map(stamps, EndOf)
        && utteranceStartTime == (if resultIndex == 0 && stamps != [] then StartOf(stamps[0]) else old(utteranceStartTime))
        && utteranceEndTime == (if stamps != [] then EndOf(stamps[|stamps| - 1]) else old(utteranceEndTime))
    {
      if !OptionalOk(Array, alternative, "timestamps") {
        return false;
      }
      var stamps := Stamps(alternative);
      MapAll(stamps, WordOf);
      MapAll(stamps, StartOf);
      MapAll(stamps, EndOf);
      hide Map;
      for i := 0 to |stamps|
        invariant forall j :: 0 <= j < i ==> ValidStamp(stamps[j])
        invariant utteranceWords == old(utteranceWords) + Map(stamps[..i], WordOf)
        invariant utteranceWordsStartTimes == old(utteranceWordsStartTimes) + Map(stamps[..i], StartOf)
        invariant utteranceWordsEndTimes == old(utteranceWordsEndTimes) + Map(stamps[..i], EndOf)
        invariant utteranceStartTime == if resultIndex == 0 && i > 0 then StartOf(stamps[0]) else old(utteranceStartTime)
        invariant utteranceEndTime == if i > 0 then EndOf(stamps[i - 1]) else old(utteranceEndTime)
      {
        var timestamp := stamps[i];
        if !(timestamp.Arr? && |timestamp.items| == 3
             && timestamp.items[0].Str? && timestamp.items[1].Num? && timestamp.items[2].Num?) {
          assert stamps[i] in stamps;
          return false;
        }
        MapOneMore(stamps, i, WordOf);
        MapOneMore(stamps, i, StartOf);
        MapOneMore(stamps, i, EndOf);
        utteranceWords := utteranceWords + [timestamp.items[0].s];
        utteranceWordsStartTimes := utteranceWordsStartTimes + [timestamp.items[1].value];
        utteranceWordsEndTimes := utteranceWordsEndTimes + [timestamp.items[2].value];
        if resultIndex == 0 && i == 0 {
          utteranceStartTime := timestamp.items[1].value;
        }
        utteranceEndTime := timestamp.items[2].value;
      }
      return true;
    }

    method DoWorkWordConfidence(alternative: Json) returns (ok: bool)
      modifies `utteranceWordsConfidences
      ensures ok <==> ValidWordConfidences(alternative)
      ensures ok ==>
        utteranceWordsConfidences == old(utteranceWordsConfidences) + Map(WordConfidences(alternative), ConfidenceOf)
    {
      if !OptionalOk(Array, alternative, "word_confidence") {
        return false;
      }
      var pairs := WordConfidences(alternative);
      MapAll(pairs, ConfidenceOf);
      hide Map;
      for i := 0 to |pairs|
        invariant forall j :: 0 <= j < i ==> ValidWordConfidence(pairs[j])
        invariant utteranceWordsConfidences == old(utteranceWordsConfidences) + Map(pairs[..i], ConfidenceOf)
      {
        var wordConfidence := pairs[i];
        if !(wordConfidence.Arr? && |wordConfidence.items| == 2 && wordConfidence.items[1].Num?) {
          assert pairs[i] in pairs;
          return false;
        }
        MapOneMore(pairs, i, ConfidenceOf);
        utteranceWordsConfidences := utteranceWordsConfidences + [wordConfidence.items[1].value];
      }
      return true;
    }

    /** The first alternative gives the text, the words and their confidences. */
    method DecodeFirst(alternative: Json, resultIndex: nat, final: bool) returns (ok: bool)
      modifies `utteranceText, `confidence, `utteranceWords, `utteranceWordsConfidences,
               `utteranceWordsStartTimes, `utteranceWordsEndTimes, `utteranceStartTime, `utteranceEndTime
      ensures ok <==> ValidAlternative(configuration, alternative, 0, resultIndex, final)
      ensures var stamps := Stamps(alternative); ok ==>
        && utteranceText == old(utteranceText) + Transcript(alternative)
        && confidence == (if configuration.mode == Complete || resultIndex != 0 then old(confidence)
                          else if Find(alternative, "confidence").Some? then NumberOf(Get(alternative, "confidence")) else -1.0)
        && utteranceWords == old(utteranceWords) + Map(stamps, WordOf)
        && utteranceWordsStartTimes == old(utteranceWordsStartTimes) + Map(stamps, StartOf)
        && utteranceWordsEndTimes == old(utteranceWordsEndTimes) + Map(stamps, EndOf)
        && utteranceStartTime == (if resultIndex == 0 && stamps != [] then StartOf(stamps[0]) else old(utteranceStartTime))
        && utteranceEndTime == (if stamps != [] then EndOf(stamps[|stamps| - 1]) else old(utteranceEndTime))
        && utteranceWordsConfidences == old(utteranceWordsConfidences)
             + (if final then Map(WordConfidences(alternative), ConfidenceOf) else [])
    {
      hide Map, ValidStamps, ValidWordConfidences;
      if !alternative.Obj? {
        return false;
      }
      if configuration.mode != Complete && resultIndex == 0 {
        if !OptionalOk(Number, alternative, "confidence") {
          return false;
        }
        var confidenceVal := Find(alternative, "confidence");
        confidence := if confidenceVal.Some? then NumberOf(confidenceVal.value) else -1.0;
      }
      if !RequiredOk(String, alternative, "transcript") {
        return false;
      }
      utteranceText := utteranceText + Transcript(alternative);
      ok := DoWorkTimestamps(alternative, resultIndex);
      if ok && final {
        ok := DoWorkWordConfidence(alternative);
      }
    }

    /** The further alternatives; their transcripts are kept for the first result only. */
    method DecodeOthers(alternatives: seq<Json>, resultIndex: nat, final: bool) returns (ok: bool)
      requires |alternatives| > 0
      modifies `utteranceAlternatives
      ensures ok <==> forall i :: 1 <= i < |alternatives| ==>
        ValidAlternative(configuration, alternatives[i], i, resultIndex, final)
      ensures ok ==>
        utteranceAlternatives == old(utteranceAlternatives) +
          (if configuration.mode != Complete && resultIndex == 0 then Map(alternatives[1..], Transcript) else [])
    {
      MapAll(alternatives[1..], Transcript);
      assert alternatives[1..1] == alternatives[1..][..0] && alternatives[1..|alternatives|] == alternatives[1..];
      hide Map, ValidStamps, ValidWordConfidences;
      for i := 1 to |alternatives|
        invariant forall j :: 1 <= j < i ==> ValidAlternative(configuration, alternatives[j], j, resultIndex, final)
        invariant utteranceAlternatives == old(utteranceAlternatives)
          + (if configuration.mode != Complete && resultIndex == 0 then Map(alternatives[1..i], Transcript) else [])
      {
        var alternative := alternatives[i];
        if !alternative.Obj? || !RequiredOk(String, alternative, "transcript") {
          return false;
        }
        if configuration.mode != Complete && resultIndex == 0 {
          MapOneMore(alternatives[1..], i - 1, Transcript);
          assert alternatives[1..][..i] == alternatives[1..i + 1] && alternatives[1..][..i - 1] == alternatives[1..i];
          utteranceAlternatives := utteranceAlternatives + [Transcript(alternative)];
        }
      }
      return true;
    }

    method DoWorkAlternatives(result: Json, resultIndex: nat, final: bool) returns (ok: bool)
      modifies `utteranceText, `utteranceAlternatives, `confidence, `utteranceWords, `utteranceWordsConfidences,
               `utteranceWordsStartTimes, `utteranceWordsEndTimes, `utteranceStartTime, `utteranceEndTime
      ensures ok <==> ValidAlternatives(configuration, result, resultIndex, final)
      ensures var first := configuration.mode != Complete && resultIndex == 0; ok ==>
        && utteranceText == old(utteranceText) + TextOf(result)
        && utteranceAlternatives == old(utteranceAlternatives) + (if first then OthersOf(result) else [])
        && confidence == (if first && Alternatives(result) != [] then ConfidenceOfFirst(result) else old(confidence))
      ensures ok ==>
        && utteranceWords == old(utteranceWords) + WordsOf(result)
        && utteranceWordsStartTimes == old(utteranceWordsStartTimes) + StartsOf(result)
        && utteranceWordsEndTimes == old(utteranceWordsEndTimes) + EndsOf(result)
        && utteranceWordsConfidences == old(utteranceWordsConfidences) + (if final then ConfidencesOf(result) else [])
      ensures ok ==>
        && utteranceStartTime == (if resultIndex == 0 && StartsOf(result) != [] then StartsOf(result)[0]
                                  else old(utteranceStartTime))
        && utteranceEndTime == (if EndsOf(result) != [] then EndsOf(result)[|EndsOf(result)| - 1] else old(utteranceEndTime))
    {
      if !RequiredOk(Array, result, "alternatives") {
        return false;
      }
      var alternatives := Alternatives(result);
      if alternatives == [] {
        return true;
      }
      assert FirstAlternative(result) == alternatives[0];
      ok := DecodeFirst(alternatives[0], resultIndex, final);
      if !ok {
        return false;
      }
      ok := DecodeOthers(alternatives, resultIndex, final);
    }

    method DoWorkSpeakerLabels(doc: Json) returns (ok: bool)
      requires from == [] && speaker == [] && speakerConfidence == []
      modifies `from, `speaker, `speakerConfidence
      ensures ok <==> ValidLabels(doc)
      ensures ok ==> from == Map(LabelsOf(doc), FromOf) && speaker == Map(LabelsOf(doc), SpeakerOf)
                     && speakerConfidence == Map(LabelsOf(doc), LabelConfidenceOf)
    {
      if !OptionalOk(Array, doc, "speaker_labels") {
        return false;
      }
      var labels := LabelsOf(doc);
      MapAll(labels, FromOf);
      MapAll(labels, SpeakerOf);
      MapAll(labels, LabelConfidenceOf);
      hide Map;
      for i := 0 to |labels|
        invariant forall j :: 0 <= j < i ==> ValidLabel(labels[j])
        invariant from == Map(labels[..i], FromOf) && speaker == Map(labels[..i], SpeakerOf)
        invariant speakerConfidence == Map(labels[..i], LabelConfidenceOf)
      {
        var l := labels[i];
        if !(RequiredOk(Number, l, "from") && RequiredOk(Integer, l, "speaker") && RequiredOk(Number, l, "confidence")) {
          assert labels[i] in labels;
          return false;
        }
        MapOneMore(labels, i, FromOf);
        MapOneMore(labels, i, SpeakerOf);
        MapOneMore(labels, i, LabelConfidenceOf);
        from := from + [FromOf(l)];
        speaker := speaker + [SpeakerOf(l)];
        speakerConfidence := speakerConfidence + [LabelConfidenceOf(l)];
      }
      return true;
    }

    /** The inner loop over the choices of one slot. */
    method DecodeChoices(slot: Json) returns (ok: bool, words: seq<string>, confidences: seq<real>)
      ensures ok <==> forall choice :: choice in Choices(slot) ==> ValidChoice(choice)
      ensures ok ==> words == SlotWords(slot) && confidences == SlotConfidences(slot)
    {
      words, confidences := [], [];
      var choices := Choices(slot);
      MapAll(choices, ChoiceWord);
      MapAll(choices, ChoiceConfidence);
      hide Map;
      for j := 0 to |choices|
        invariant forall k :: 0 <= k < j ==> ValidChoice(choices[k])
        invariant words == Map(choices[..j], ChoiceWord) && confidences == Map(choices[..j], ChoiceConfidence)
      {
        var choice := choices[j];
        if !(RequiredOk(String, choice, "word") && RequiredOk(Number, choice, "confidence")) {
          assert choices[j] in choices;
          return false, words, confidences;
        }
        MapOneMore(choices, j, ChoiceWord);
        MapOneMore(choices, j, ChoiceConfidence);
        words := words + [ChoiceWord(choice)];
        confidences := confidences + [ChoiceConfidence(choice)];
      }
      ok := true;
    }

    method DoWorkWordAlternatives(result: Json) returns (ok: bool)
      modifies `startTimes, `endTimes, `wordAlternatives, `wordConfidences
      ensures ok <==> ValidSlots(result)
      ensures ok ==>
        && startTimes == old(startTimes) + Map(Slots(result), SlotStart)
        && endTimes == old(endTimes) + Map(Slots(result), SlotEnd)
        && wordAlternatives == old(wordAlternatives) + Map(Slots(result), SlotWords)
        && wordConfidences == old(wordConfidences) + Map(Slots(result), SlotConfidences)
    {
      if !OptionalOk(Array, result, "word_alternatives") {
        return false;
      }
      var slots := Slots(result);
      MapAll(slots, SlotStart);
      MapAll(slots, SlotEnd);
      MapAll(slots, SlotWords);
      MapAll(slots, SlotConfidences);
      hide Map;
      for i := 0 to |slots|
        invariant forall j :: 0 <= j < i ==> ValidSlot(slots[j])
        invariant startTimes == old(startTimes) + Map(slots[..i], SlotStart)
        invariant endTimes == old(endTimes) + Map(slots[..i], SlotEnd)
        invariant wordAlternatives == old(wordAlternatives) + Map(slots[..i], SlotWords)
        invariant wordConfidences == old(wordConfidences) + Map(slots[..i], SlotConfidences)
      {
        var slot := slots[i];
        assert slots[i] in slots;
        if !(RequiredOk(Number, slot, "start_time") && RequiredOk(Number, slot, "end_time")
             && RequiredOk(Array, slot, "alternatives")) {
          return false;
        }
        var valid, words, confidences := DecodeChoices(slot);
        if !valid {
          return false;
        }
        MapOneMore(slots, i, SlotStart);
        MapOneMore(slots, i, SlotEnd);
        MapOneMore(slots, i, SlotWords);
        MapOneMore(slots, i, SlotConfidences);
        startTimes := startTimes + [SlotStart(slot)];
        endTimes := endTimes + [SlotEnd(slot)];
        wordAlternatives := wordAlternatives + [words];
        wordConfidences := wordConfidences + [confidences];
      }
      return true;
    }

    /** The inner loop over the matches of one keyword. */
    method DecodeMatches(matches: seq<Json>) returns (ok: bool, innerList: seq<Emergence>)
      ensures ok <==> forall m :: m in matches ==> ValidMatch(m)
      ensures ok ==> innerList == Map(matches, EmergenceOf)
    {
      innerList := [];
      MapAll(matches, EmergenceOf);
      hide Map;
      for i := 0 to |matches|
        invariant forall j :: 0 <= j < i ==> ValidMatch(matches[j])
        invariant innerList == Map(matches[..i], EmergenceOf)
      {
        var m := matches[i];
        if !(RequiredOk(String, m, "normalized_text") && RequiredOk(Number, m, "start_time")
             && RequiredOk(Number, m, "end_time") && RequiredOk(Number, m, "confidence")) {
          assert matches[i] in matches;
          return false, innerList;
        }
        MapOneMore(matches, i, EmergenceOf);
        innerList := innerList + [EmergenceOf(m)];
      }
      ok := true;
    }

    /** One configured keyword in one result. */
    method AddKeyword(keywordsResult: Json, kw: string) returns (ok: bool)
      requires keywordsResult.Obj?
      modifies `kwmaplist
      ensures ok <==> ValidKeyword(keywordsResult, kw)
      ensures var found := Find(keywordsResult, kw); ok ==>
        kwmaplist == if found == None || kw in old(kwmaplist) then old(kwmaplist)
                     else old(kwmaplist)[kw := Map(ItemsOf(found.value), EmergenceOf)]
    {
      hide Map, ValidMatch;
      if !OptionalOk(Array, keywordsResult, kw) {
        return false;
      }
      var keyword := Find(keywordsResult, kw);
      if keyword.Some? {
        var valid, innerList := DecodeMatches(ItemsOf(keyword.value));
        if !valid {
          return false;
        }
        if kw !in kwmaplist {
          kwmaplist := kwmaplist[kw := innerList];
        }
      }
      return true;
    }

    /** The loop over the configured keywords. */
    method AddKeywords(result: Json, keywords: seq<string>) returns (ok: bool)
      requires Get(result, "keywords_result").Obj?
      modifies `kwmaplist
      ensures ok <==> forall kw :: kw in keywords ==> ValidKeyword(Get(result, "keywords_result"), kw)
      ensures ok ==> kwmaplist == Merged(old(kwmaplist), keywords, result)
    {
      var keywordsResult := Get(result, "keywords_result");
      hide Merged, ValidKeyword, Map, Get, Find;
      MergedNothing(kwmaplist, keywords, result);
      for k := 0 to |keywords|
        invariant forall j :: 0 <= j < k ==> ValidKeyword(keywordsResult, keywords[j])
        invariant kwmaplist == Merged(old(kwmaplist), keywords[..k], result)
      {
        assert keywords[k] in keywords;
        MergedOneMore(old(kwmaplist), keywords, k, result);
        ok := AddKeyword(keywordsResult, keywords[k]);
        if !ok {
          return false;
        }
      }
      assert keywords[..|keywords|] == keywords;
      return true;
    }

    method DoWorkKeywords(result: Json) returns (ok: bool)
      modifies `kwmaplist
      ensures ok <==> ValidKeywords(configuration, result)
      ensures ok ==> kwmaplist == Merged(old(kwmaplist), configuration.keywords, result)
    {
      hide Merged, ValidKeyword;
      if !OptionalOk(Object, result, "keywords_result") {
        return false;
      }
      MergedNothing(kwmaplist, configuration.keywords, result);
      if Find(result, "keywords_result") == None {
        return true;
      }
      ok := AddKeywords(result, configuration.keywords);
    }

    method AddAlternatives(result: Json, i: nat) returns (ok: bool)
      modifies `utteranceText, `utteranceAlternatives, `confidence, `utteranceWords, `utteranceWordsConfidences,
               `utteranceWordsStartTimes, `utteranceWordsEndTimes, `utteranceStartTime, `utteranceEndTime
      ensures ok <==> ValidAlternatives(configuration, result, i, Final(result))
      ensures ok ==> Members() == WithAlternatives(configuration, old(Members()), result, i)
    {
      hide ValidAlternatives, Map;
      hide TextOf, WordsOf, StartsOf, EndsOf, ConfidencesOf, OthersOf, ConfidenceOfFirst, Alternatives, Final;
      ok := DoWorkAlternatives(result, i, Final(result));
    }

    method AddFinal(result: Json) returns (ok: bool)
      modifies `startTimes, `endTimes, `wordAlternatives, `wordConfidences, `kwmaplist
      ensures ok <==> ValidSlots(result) && ValidKeywords(configuration, result)
      ensures ok ==> Members() == WithFinal(configuration, old(Members()), result)
    {
      hide ValidSlots, ValidKeywords, Merged, Map;
      ok := DoWorkWordAlternatives(result);
      if ok {
        ok := DoWorkKeywords(result);
      }
    }

    /** One round of the loop over the results. */
    method DecodeResult(result: Json, i: nat) returns (ok: bool)
      modifies `finals, `startTimes, `endTimes, `wordAlternatives, `wordConfidences, `kwmaplist,
               `utteranceText, `utteranceAlternatives, `confidence, `utteranceWords, `utteranceWordsConfidences,
               `utteranceWordsStartTimes, `utteranceWordsEndTimes, `utteranceStartTime, `utteranceEndTime
      ensures ok <==> ValidResult(configuration, result, i)
      ensures ok ==> Members() == Accumulate(configuration, old(Members()), result, i)
    {
      hide ValidAlternatives, ValidSlots, ValidKeywords, WithFinal, WithAlternatives, Final;
      if !RequiredOk(Boolean, result, "final") {
        return false;
      }
      finals := finals + [Final(result)];
      if Final(result) || configuration.mode == Partial {
        ok := AddAlternatives(result, i);
        if !ok {
          return false;
        }
      }
      if Final(result) {
        ok := AddFinal(result);
        return ok;
      }
      return true;
    }

    /** The loop over the results. */
    method DecodeResults(results: seq<Json>) returns (ok: bool)
      requires Members() == Nothing()
      modifies `finals, `startTimes, `endTimes, `wordAlternatives, `wordConfidences, `kwmaplist,
               `utteranceText, `utteranceAlternatives, `confidence, `utteranceWords, `utteranceWordsConfidences,
               `utteranceWordsStartTimes, `utteranceWordsEndTimes, `utteranceStartTime, `utteranceEndTime
      ensures ok <==> forall i :: 0 <= i < |results| ==> ValidResult(configuration, results[i], i)
      ensures ok ==> Members() == Fold(configuration, results)
    {
      hide *;
      FoldOfNone(configuration, results);
      for i := 0 to |results|
        invariant forall j :: 0 <= j < i ==> ValidResult(configuration, results[j], j)
        invariant Members() == Fold(configuration, results[..i])
      {
        FoldOneMore(configuration, results, i);
        ok := DecodeResult(results[i], i);
        if !ok {
          return false;
        }
      }
      return true;
    }

    method DoWorkResults(doc: Json) returns (ok: bool)
      requires Members() == Nothing()
      modifies `resultsSize, `finals, `startTimes, `endTimes, `wordAlternatives, `wordConfidences, `kwmaplist,
               `utteranceText, `utteranceAlternatives, `confidence, `utteranceWords, `utteranceWordsConfidences,
               `utteranceWordsStartTimes, `utteranceWordsEndTimes, `utteranceStartTime, `utteranceEndTime
      ensures ok <==> ValidResults(configuration, doc)
      ensures ok ==> Members() == Fold(configuration, Results(doc)) && resultsSize == |Results(doc)|
    {
      hide ValidResult, Fold, OptionalOk, Results, Nothing;
      if !OptionalOk(Array, doc, "results") {
        return false;
      }
      resultsSize := |Results(doc)|;
      ok := DecodeResults(Results(doc));
    }

    method ResetAlternatives()
      modifies `utteranceText, `utteranceAlternatives, `confidence, `utteranceWords, `utteranceWordsConfidences,
               `utteranceWordsStartTimes, `utteranceWordsEndTimes, `utteranceStartTime, `utteranceEndTime
      ensures utteranceText == "" && utteranceAlternatives == [] && confidence == 0.0
      ensures utteranceWords == [] && utteranceWordsConfidences == [] && utteranceWordsStartTimes == []
      ensures utteranceWordsEndTimes == [] && utteranceStartTime == 0.0 && utteranceEndTime == 0.0
    {
      utteranceText, utteranceAlternatives, confidence := "", [], 0.0;
      utteranceWords, utteranceWordsConfidences := [], [];
      utteranceWordsStartTimes, utteranceWordsEndTimes, utteranceStartTime, utteranceEndTime := [], [], 0.0, 0.0;
    }

    method ResetResults()
      modifies `resultsSize, `finals, `startTimes, `endTimes, `wordAlternatives, `wordConfidences, `kwmaplist,
               `utteranceText, `utteranceAlternatives, `confidence, `utteranceWords, `utteranceWordsConfidences,
               `utteranceWordsStartTimes, `utteranceWordsEndTimes, `utteranceStartTime, `utteranceEndTime
      ensures Members() == Nothing()
    {
      startTimes, endTimes, wordAlternatives, wordConfidences := [], [], [], [];
      kwmaplist := map[];
      ResetAlternatives();
      finals, resultsSize := [], 0;
    }

    method ResetLabels()
      modifies `from, `speaker, `speakerConfidence
      ensures from == [] && speaker == [] && speakerConfidence == []
    {
      from, speaker, speakerConfidence := [], [], [];
    }

    method DoWorkErrorAndState(doc: Json) returns (ok: bool)
      modifies `errorValue, `stateValue, `isListening
      ensures ok <==> OptionalOk(String, doc, "error") && OptionalOk(String, doc, "state")
      ensures ok ==> errorValue == StringMember(doc, "error") && stateValue == StringMember(doc, "state")
                     && isListening == (stateValue == Some("listening"))
    {
      if !OptionalOk(String, doc, "error") {
        return false;
      }
      errorValue := StringMember(doc, "error");
      if !OptionalOk(String, doc, "state") {
        return false;
      }
      stateValue := StringMember(doc, "state");
      isListening := if stateValue.Some? then stateValue.value == "listening" else false;
      return true;
    }

    method DoWorkIndexAndLabels(doc: Json) returns (ok: bool)
      requires from == [] && speaker == [] && speakerConfidence == []
      modifies `resultIndexValue, `from, `speaker, `speakerConfidence
      ensures ok <==> OptionalOk(Number, doc, "result_index") && ValidLabels(doc)
      ensures ok ==> resultIndexValue == NumberMember(doc, "result_index")
      ensures ok ==> from == Map(LabelsOf(doc), FromOf) && speaker == Map(LabelsOf(doc), SpeakerOf)
                     && speakerConfidence == Map(LabelsOf(doc), LabelConfidenceOf)
    {
      hide Map, ValidLabels;
      if !OptionalOk(Number, doc, "result_index") {
        return false;
      }
      resultIndexValue := NumberMember(doc, "result_index");
      ok := DoWorkSpeakerLabels(doc);
    }

    /** Whatever the decoder has seen before: the call succeeds exactly on a valid document, and then its members are
        determined by this document alone. */
    method DoWork(doc: Json) returns (ok: bool)
      modifies this
      ensures ok <==> ValidDocument(configuration, doc)
      ensures ok ==>
        && Members() == Fold(configuration, Results(doc)) && resultsSize == |Results(doc)|
        && errorValue == StringMember(doc, "error")
        && stateValue == StringMember(doc, "state") && isListening == (stateValue == Some("listening"))
        && resultIndexValue == NumberMember(doc, "result_index")
        && from == Map(LabelsOf(doc), FromOf) && speaker == Map(LabelsOf(doc), SpeakerOf)
        && speakerConfidence == Map(LabelsOf(doc), LabelConfidenceOf)
    {
      DocumentParts(configuration, doc);
      hide *;
      ResetResults();
      ResetLabels();
      ok := DoWorkErrorAndState(doc);
      if !ok {
        return false;
      }
      ok := DoWorkResults(doc);
      if ok {
        ok := DoWorkIndexAndLabels(doc);
      }
    }
  }

  lemma MergedNothing(known: map<string, seq<Emergence>>, keywords: seq<string>, result: Json)
    ensures Merged(known, [], result) == known
    ensures Find(result, "keywords_result") == None ==> Merged(known, keywords, result) == known
  {
  }

  /** Inserting the next keyword of a result. */
  lemma MergedOneMore(known: map<string, seq<Emergence>>, keywords: seq<string>, k: nat, result: Json)
    requires k < |keywords|
    ensures Merged(known, keywords[..k + 1], result) ==
      var m := Merged(known, keywords[..k], result);
      if keywords[k] in m || Hit(result, keywords[k]) == None then m else m[keywords[k] := Hit(result, keywords[k]).value]
  {
    hide Hit;
    assert keywords[..k + 1] == keywords[..k] + [keywords[k]];
    var m := Merged(known, keywords[..k], result);
    var l := Merged(known, keywords[..k + 1], result);
    assert forall w :: w in keywords[..k + 1] <==> w in keywords[..k] || w == keywords[k];
    assert l.Keys == m.Keys + if Hit(result, keywords[k]).Some? then {keywords[k]} else {};
  }
}
