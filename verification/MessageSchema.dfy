/** The documents that the decoder accepts, as a schema. */
module MessageSchema {
  import opened Wrappers
  import opened Json
  import opened Decoder

  datatype Schema =
    | Anything
    | Plain(kind: Kind)
    | ListOf(element: Schema)
    | HeadAndRest(head: Schema, rest: Schema)
    | Tuple(parts: seq<Schema>)
    | Record(required: seq<(string, Schema)>, optional: seq<(string, Schema)>)

  predicate Conforms(v: Json, s: Schema)
    decreases s
  {
    match s
    case Anything => true
    case Plain(kind) => Is(kind, v)
    case ListOf(element) => v.Arr? && forall i :: 0 <= i < |v.items| ==> Conforms(v.items[i], element)
    case HeadAndRest(head, rest) =>
      v.Arr? && forall i :: 0 <= i < |v.items| ==> Conforms(v.items[i], if i == 0 then head else rest)
    case Tuple(parts) => v.Arr? && |v.items| == |parts| && forall i :: 0 <= i < |parts| ==> Conforms(v.items[i], parts[i])
    case Record(required, optional) =>
      && v.Obj?
      && (forall i :: 0 <= i < |required| ==> Present(v, required[i].0) && Conforms(Get(v, required[i].0), required[i].1))
      && (forall i :: 0 <= i < |optional| ==> Present(v, optional[i].0) ==> Conforms(Get(v, optional[i].0), optional[i].1))
  }

  predicate Present(v: Json, name: string) {
    Find(v, name).Some?
  }

  // ---------- The messages of the service ----------

  const STAMP := Tuple([Plain(String), Plain(Number), Plain(Number)])

  const WORD_CONFIDENCE := Tuple([Anything, Plain(Number)])

  const OTHER_ALTERNATIVE := Record([("transcript", Plain(String))], [])

  const CHOICE := Record([("word", Plain(String)), ("confidence", Plain(Number))], [])

  const SLOT := Record([("start_time", Plain(Number)), ("end_time", Plain(Number)), ("alternatives", ListOf(CHOICE))], [])

  const MATCH := Record([("normalized_text", Plain(String)), ("start_time", Plain(Number)), ("end_time", Plain(Number)),
                         ("confidence", Plain(Number))], [])

  const LABEL := Record([("from", Plain(Number)), ("speaker", Plain(Integer)), ("confidence", Plain(Number))], [])

  /** Word confidences are looked at in final results, a confidence of the whole only in the first result. */
  function FirstSchema(c: Configuration, i: nat, final: bool): Schema {
    Record([("transcript", Plain(String))],
           [("timestamps", ListOf(STAMP)), ("word_confidence", if final then ListOf(WORD_CONFIDENCE) else Anything),
            ("confidence", if c.mode != Complete && i == 0 then Plain(Number) else Anything)])
  }

  function KeywordsSchema(c: Configuration): Schema {
    Record([], seq(|c.keywords|, k requires 0 <= k < |c.keywords| => (c.keywords[k], ListOf(MATCH))))
  }

  /** Result number i. Interim results are looked into in partial mode only. */
  function ResultSchema(c: Configuration, i: nat, final: bool): Schema {
    Record([("final", Plain(Boolean))]
           + (if final || c.mode == Partial then [("alternatives", HeadAndRest(FirstSchema(c, i, final), OTHER_ALTERNATIVE))]
              else []),
           if final then [("word_alternatives", ListOf(SLOT)), ("keywords_result", KeywordsSchema(c))] else [])
  }

  const MESSAGE := Record([], [("error", Plain(String)), ("state", Plain(String)), ("results", ListOf(Anything)),
                               ("result_index", Plain(Number)), ("speaker_labels", ListOf(LABEL))])

  // ---------- The decoder accepts exactly these ----------

  lemma StampConforms(v: Json)
    ensures ValidStamp(v) <==> Conforms(v, STAMP)
  {
    var parts := STAMP.parts;
    assert parts[0] == Plain(String) && parts[1] == Plain(Number) && parts[2] == Plain(Number);
    if ValidStamp(v) {
      assert forall i :: 0 <= i < |parts| ==> Conforms(v.items[i], parts[i]);
    }
  }

  lemma WordConfidenceConforms(v: Json)
    ensures ValidWordConfidence(v) <==> Conforms(v, WORD_CONFIDENCE)
  {
    var parts := WORD_CONFIDENCE.parts;
    assert parts[0] == Anything && parts[1] == Plain(Number);
  }

  lemma ChoiceConforms(v: Json)
    ensures ValidChoice(v) <==> Conforms(v, CHOICE)
  {
    var required := CHOICE.required;
    assert required[0] == ("word", Plain(String)) && required[1] == ("confidence", Plain(Number));
  }

  lemma ListConforms(v: Json, ok: Json -> bool, element: Schema)
    requires forall x :: ok(x) <==> Conforms(x, element)
    ensures Conforms(v, ListOf(element)) <==> v.Arr? && forall x :: x in ItemsOf(v) ==> ok(x)
  {
    if v.Arr? && forall x :: x in ItemsOf(v) ==> ok(x) {
      forall i | 0 <= i < |v.items| ensures Conforms(v.items[i], element) {
        assert v.items[i] in ItemsOf(v);
      }
    }
  }

  lemma SlotConforms(v: Json)
    ensures ValidSlot(v) <==> Conforms(v, SLOT)
  {
    var required := SLOT.required;
    assert required[0] == ("start_time", Plain(Number)) && required[1] == ("end_time", Plain(Number));
    assert required[2] == ("alternatives", ListOf(CHOICE));
    forall x ensures ValidChoice(x) <==> Conforms(x, CHOICE) {
      ChoiceConforms(x);
    }
    hide ValidChoice;
    ListConforms(Get(v, "alternatives"), ValidChoice, CHOICE);
  }

  lemma Required(v: Json, name: string, kind: Kind)
    ensures RequiredOk(kind, v, name) <==> v.Obj? && Present(v, name) && Conforms(Get(v, name), Plain(kind))
  {
  }

  lemma Optional(v: Json, name: string, kind: Kind)
    ensures OptionalOk(kind, v, name) <==> v.Obj? && (Present(v, name) ==> Conforms(Get(v, name), Plain(kind)))
  {
  }

  lemma MatchConforms(v: Json)
    ensures ValidMatch(v) <==> Conforms(v, MATCH)
  {
    var required := MATCH.required;
    assert required[0] == ("normalized_text", Plain(String)) && required[1] == ("start_time", Plain(Number));
    assert required[2] == ("end_time", Plain(Number)) && required[3] == ("confidence", Plain(Number));
    Required(v, "normalized_text", String);
    Required(v, "start_time", Number);
    Required(v, "end_time", Number);
    Required(v, "confidence", Number);
    hide RequiredOk, Present, Get;
  }

  lemma LabelConforms(v: Json)
    ensures ValidLabel(v) <==> Conforms(v, LABEL)
  {
    var required := LABEL.required;
    assert required[0] == ("from", Plain(Number)) && required[1] == ("speaker", Plain(Integer));
    assert required[2] == ("confidence", Plain(Number));
  }

  lemma OtherConforms(c: Configuration, v: Json, j: nat, i: nat, final: bool)
    requires j > 0
    ensures ValidAlternative(c, v, j, i, final) <==> Conforms(v, OTHER_ALTERNATIVE)
  {
    assert OTHER_ALTERNATIVE.required[0] == ("transcript", Plain(String));
  }

  lemma StampsConform(v: Json)
    requires v.Obj?
    ensures ValidStamps(v) <==> (Present(v, "timestamps") ==> Conforms(Get(v, "timestamps"), ListOf(STAMP)))
  {
    forall x ensures ValidStamp(x) <==> Conforms(x, STAMP) {
      StampConforms(x);
    }
    hide ValidStamp;
    ListConforms(Get(v, "timestamps"), ValidStamp, STAMP);
  }

  lemma WordConfidencesConform(v: Json)
    requires v.Obj?
    ensures ValidWordConfidences(v) <==>
      (Present(v, "word_confidence") ==> Conforms(Get(v, "word_confidence"), ListOf(WORD_CONFIDENCE)))
  {
    forall x ensures ValidWordConfidence(x) <==> Conforms(x, WORD_CONFIDENCE) {
      WordConfidenceConforms(x);
    }
    hide ValidWordConfidence;
    ListConforms(Get(v, "word_confidence"), ValidWordConfidence, WORD_CONFIDENCE);
  }

  lemma FirstConforms(c: Configuration, v: Json, i: nat, final: bool)
    ensures ValidAlternative(c, v, 0, i, final) <==> Conforms(v, FirstSchema(c, i, final))
  {
    var optional := FirstSchema(c, i, final).optional;
    assert FirstSchema(c, i, final).required[0] == ("transcript", Plain(String));
    assert optional[0] == ("timestamps", ListOf(STAMP));
    assert optional[1] == ("word_confidence", if final then ListOf(WORD_CONFIDENCE) else Anything);
    assert optional[2] == ("confidence", if c.mode != Complete && i == 0 then Plain(Number) else Anything);
    Required(v, "transcript", String);
    Optional(v, "confidence", Number);
    if v.Obj? {
      StampsConform(v);
      WordConfidencesConform(v);
    }
    hide ValidStamps, ValidWordConfidences, RequiredOk, OptionalOk;
  }

  lemma AlternativesConform(c: Configuration, result: Json, i: nat, final: bool)
    requires result.Obj?
    ensures ValidAlternatives(c, result, i, final) <==>
      && Present(result, "alternatives")
      && Conforms(Get(result, "alternatives"), HeadAndRest(FirstSchema(c, i, final), OTHER_ALTERNATIVE))
  {
    var v := Get(result, "alternatives");
    var head := FirstSchema(c, i, final);
    if v.Arr? {
      forall j | 0 <= j < |v.items|
        ensures ValidAlternative(c, v.items[j], j, i, final) <==> Conforms(v.items[j], if j == 0 then head else OTHER_ALTERNATIVE)
      {
        if j == 0 {
          FirstConforms(c, v.items[0], i, final);
        } else {
          OtherConforms(c, v.items[j], j, i, final);
        }
      }
      hide ValidAlternative, FirstSchema;
      assert Alternatives(result) == v.items;
      if ValidAlternatives(c, result, i, final) {
        forall j | 0 <= j < |v.items| ensures Conforms(v.items[j], if j == 0 then head else OTHER_ALTERNATIVE) {
          assert ValidAlternative(c, Alternatives(result)[j], j, i, final);
        }
        assert Conforms(v, HeadAndRest(head, OTHER_ALTERNATIVE));
      }
    }
  }

  lemma KeywordsConform(c: Configuration, result: Json)
    requires result.Obj?
    ensures ValidKeywords(c, result) <==>
      (Present(result, "keywords_result") ==> Conforms(Get(result, "keywords_result"), KeywordsSchema(c)))
  {
    var optional, v := KeywordsSchema(c).optional, Get(result, "keywords_result");
    forall x ensures ValidMatch(x) <==> Conforms(x, MATCH) {
      MatchConforms(x);
    }
    hide ValidMatch;
    forall kw ensures ValidKeyword(v, kw) <==> v.Obj? && (Present(v, kw) ==> Conforms(Get(v, kw), ListOf(MATCH))) {
      ListConforms(Get(v, kw), ValidMatch, MATCH);
    }
    hide ValidKeyword;
    assert forall k :: 0 <= k < |c.keywords| ==> optional[k] == (c.keywords[k], ListOf(MATCH));
    assert forall kw :: kw in c.keywords ==> exists k :: 0 <= k < |c.keywords| && optional[k].0 == kw;
  }

  lemma SlotsConform(result: Json)
    requires result.Obj?
    ensures ValidSlots(result) <==>
      (Present(result, "word_alternatives") ==> Conforms(Get(result, "word_alternatives"), ListOf(SLOT)))
  {
    forall x ensures ValidSlot(x) <==> Conforms(x, SLOT) {
      SlotConforms(x);
    }
    hide ValidSlot;
    ListConforms(Get(result, "word_alternatives"), ValidSlot, SLOT);
  }

  lemma ResultConforms(c: Configuration, result: Json, i: nat)
    ensures ValidResult(c, result, i) <==> Conforms(result, ResultSchema(c, i, Final(result)))
  {
    var final, schema := Final(result), ResultSchema(c, i, Final(result));
    assert schema.required[0] == ("final", Plain(Boolean));
    if final || c.mode == Partial {
      assert schema.required[1] == ("alternatives", HeadAndRest(FirstSchema(c, i, final), OTHER_ALTERNATIVE));
    }
    if final {
      assert schema.optional[0] == ("word_alternatives", ListOf(SLOT));
      assert schema.optional[1] == ("keywords_result", KeywordsSchema(c));
    }
    if result.Obj? {
      AlternativesConform(c, result, i, final);
      SlotsConform(result);
      KeywordsConform(c, result);
    }
    hide ValidAlternatives, ValidSlots, ValidKeywords, FirstSchema, KeywordsSchema;
  }

  lemma LabelsConform(doc: Json)
    requires doc.Obj?
    ensures ValidLabels(doc) <==>
      (Present(doc, "speaker_labels") ==> Conforms(Get(doc, "speaker_labels"), ListOf(LABEL)))
  {
    forall x ensures ValidLabel(x) <==> Conforms(x, LABEL) {
      LabelConforms(x);
    }
    hide ValidLabel;
    ListConforms(Get(doc, "speaker_labels"), ValidLabel, LABEL);
  }

  lemma MembersConform(doc: Json)
    ensures Conforms(doc, MESSAGE) <==>
      && OptionalOk(String, doc, "error") && OptionalOk(String, doc, "state") && OptionalOk(Array, doc, "results")
      && OptionalOk(Number, doc, "result_index") && ValidLabels(doc)
  {
    var optional := MESSAGE.optional;
    assert optional[0] == ("error", Plain(String)) && optional[1] == ("state", Plain(String));
    assert optional[2] == ("results", ListOf(Anything)) && optional[3] == ("result_index", Plain(Number));
    assert optional[4] == ("speaker_labels", ListOf(LABEL));
    Optional(doc, "error", String);
    Optional(doc, "state", String);
    Optional(doc, "results", Array);
    Optional(doc, "result_index", Number);
    if doc.Obj? {
      LabelsConform(doc);
    }
    hide ValidLabels, OptionalOk, Present, Get;
  }

  /** The decoding succeeds on exactly the messages of this shape: those that conform to the schema of messages, with
      every result conforming to the schema for its number and its final flag. */
  lemma ValidIffConforms(c: Configuration, doc: Json)
    ensures ValidDocument(c, doc) <==>
      && Conforms(doc, MESSAGE)
      && forall i :: 0 <= i < |Results(doc)| ==>
           Conforms(Results(doc)[i], ResultSchema(c, i, Get(Results(doc)[i], "final") == Bool(true)))
  {
    MembersConform(doc);
    forall i | 0 <= i < |Results(doc)|
      ensures ValidResult(c, Results(doc)[i], i) <==>
              Conforms(Results(doc)[i], ResultSchema(c, i, Get(Results(doc)[i], "final") == Bool(true)))
    {
      ResultConforms(c, Results(doc)[i], i);
    }
    hide ValidResult, ResultSchema, ValidLabels, OptionalOk, Conforms;
  }
}
