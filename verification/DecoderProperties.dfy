/** What a decoded document means: the accumulated members as functions of the selected results. */
module DecoderProperties {
  import opened Wrappers
  import opened Json
  import opened SpeakerAlignment
  import opened Decoder

  /** Dropping the last result. */
  function Front(results: seq<Json>): seq<Json>
    requires results != []
  {
    results[..|results| - 1]
  }

  lemma SelectionLast(c: Configuration, results: seq<Json>)
    requires results != []
    ensures Selection(c, results) ==
      Selection(c, Front(results)) + if Selected(c, results[|results| - 1]) then [results[|results| - 1]] else []
    ensures Finals(results) ==
      Finals(Front(results)) + if Final(results[|results| - 1]) then [results[|results| - 1]] else []
  {
  }

  lemma FlatMapAfter<T>(items: seq<Json>, more: seq<Json>, f: Json -> seq<T>)
    requires |more| <= 1
    ensures FlatMap(items + more, f) == FlatMap(items, f) + if more == [] then [] else f(more[0])
  {
    if more == [] {
      assert items + more == items;
    } else {
      assert more == [more[0]];
      FlatMapOneMore(items, more[0], f);
    }
  }

  /** What one result adds to the members that are concatenated. */
  lemma Gains(c: Configuration, d: Decoded, result: Json, i: nat)
    ensures var d', selected, final := Accumulate(c, d, result, i), Selected(c, result), Final(result);
      && d'.finals == d.finals + [final]
      && d'.text == d.text + (if selected then TextOf(result) else [])
      && d'.words == d.words + (if selected then WordsOf(result) else [])
      && d'.starts == d.starts + (if selected then StartsOf(result) else [])
      && d'.ends == d.ends + (if selected then EndsOf(result) else [])
      && d'.wordConfidences == d.wordConfidences + (if final then ConfidencesOf(result) else [])
      && d'.slotStarts == d.slotStarts + (if final then SlotStartsOf(result) else [])
      && d'.slotEnds == d.slotEnds + (if final then SlotEndsOf(result) else [])
      && d'.slotWords == d.slotWords + (if final then SlotWordsOf(result) else [])
      && d'.slotConfidences == d.slotConfidences + (if final then SlotConfidencesOf(result) else [])
      && d'.keywords == (if final then Merged(d.keywords, c.keywords, result) else d.keywords)
  {
    hide Merged, Map;
  }

  lemma FoldLast(c: Configuration, results: seq<Json>)
    requires results != []
    ensures Fold(c, results) == Accumulate(c, Fold(c, Front(results)), results[|results| - 1], |results| - 1)
    ensures Map(results, Final) == Map(Front(results), Final) + [Final(results[|results| - 1])]
  {
    hide Accumulate;
    assert results == Front(results) + [results[|results| - 1]];
  }

  /** The text, the words and their times concatenate the first alternatives of exactly the selected results. */
  lemma {:induction false} WordsOfSelection(c: Configuration, results: seq<Json>)
    ensures var d, selected := Fold(c, results), Selection(c, results);
      && d.text == FlatMap(selected, TextOf) && d.words == FlatMap(selected, WordsOf)
      && d.starts == FlatMap(selected, StartsOf) && d.ends == FlatMap(selected, EndsOf)
      && d.finals == Map(results, Final)
  {
    if results != [] {
      var front, last := Front(results), results[|results| - 1];
      WordsOfSelection(c, front);
      SelectionLast(c, results);
      FoldLast(c, results);
      Gains(c, Fold(c, front), last, |front|);
      var more := if Selected(c, last) then [last] else [];
      FlatMapAfter(Selection(c, front), more, TextOf);
      FlatMapAfter(Selection(c, front), more, WordsOf);
      FlatMapAfter(Selection(c, front), more, StartsOf);
      FlatMapAfter(Selection(c, front), more, EndsOf);
      hide *;
    }
  }

  /** The word confidences and the word alternatives are those of the final results, and the keyword map keeps what the
      first of them tells. */
  lemma {:induction false} DetailsOfFinals(c: Configuration, results: seq<Json>)
    ensures var d, finals := Fold(c, results), Finals(results);
      && d.wordConfidences == FlatMap(finals, ConfidencesOf)
      && d.slotStarts == FlatMap(finals, SlotStartsOf) && d.slotEnds == FlatMap(finals, SlotEndsOf)
      && d.slotWords == FlatMap(finals, SlotWordsOf) && d.slotConfidences == FlatMap(finals, SlotConfidencesOf)
      && d.keywords == KeywordMap(c.keywords, finals)
  {
    if results == [] {
      assert KeywordMap(c.keywords, []) == map[];
    } else {
      var front, last := Front(results), results[|results| - 1];
      DetailsOfFinals(c, front);
      SelectionLast(c, results);
      FoldLast(c, results);
      Gains(c, Fold(c, front), last, |front|);
      var more := if Final(last) then [last] else [];
      FlatMapAfter(Finals(front), more, ConfidencesOf);
      FlatMapAfter(Finals(front), more, SlotStartsOf);
      FlatMapAfter(Finals(front), more, SlotEndsOf);
      FlatMapAfter(Finals(front), more, SlotWordsOf);
      FlatMapAfter(Finals(front), more, SlotConfidencesOf);
      KeywordsOneMore(c.keywords, Finals(front), last);
      hide *;
      assert Finals(front) + [] == Finals(front);
    }
  }

  /** What one result does to the single values. */
  lemma Singles(c: Configuration, d: Decoded, result: Json, i: nat)
    ensures var d', selected, first := Accumulate(c, d, result, i), Selected(c, result), i == 0 && c.mode != Complete;
      && d'.startTime == (if selected && i == 0 && StartsOf(result) != [] then StartsOf(result)[0] else d.startTime)
      && d'.endTime == (if selected && EndsOf(result) != [] then EndsOf(result)[|EndsOf(result)| - 1] else d.endTime)
      && d'.others == d.others + (if selected && first then OthersOf(result) else [])
      && d'.confidence == (if selected && first && Alternatives(result) != [] then ConfidenceOfFirst(result)
                           else d.confidence)
  {
    hide Merged, Map;
  }

  lemma AppendedLast(ends: seq<real>, more: seq<real>)
    ensures more != [] ==> (ends + more)[|ends + more| - 1] == more[|more| - 1]
    ensures more == [] ==> ends + more == ends
  {
  }

  lemma FoldOfNothing(c: Configuration, results: seq<Json>)
    requires results == []
    ensures var d := Fold(c, results);
      d.startTime == 0.0 && d.endTime == 0.0 && d.others == [] && d.confidence == 0.0 && d.ends == []
  {
  }

  lemma FrontFacts(results: seq<Json>)
    requires results != []
    ensures |Front(results)| == |results| - 1 && (Front(results) != [] ==> Front(results)[0] == results[0])
  {
  }

  lemma {:induction false} StartFromFirst(c: Configuration, results: seq<Json>)
    ensures Fold(c, results).startTime ==
      if results != [] && Selected(c, results[0]) && StartsOf(results[0]) != [] then StartsOf(results[0])[0] else 0.0
    decreases |results|
  {
    hide *;
    if results == [] {
      FoldOfNothing(c, results);
    } else {
      var front, last := Front(results), results[|results| - 1];
      FrontFacts(results);
      StartFromFirst(c, front);
      FoldLast(c, results);
      Singles(c, Fold(c, front), last, |front|);
    }
  }

  lemma {:induction false} EndFromLast(c: Configuration, results: seq<Json>)
    ensures var d := Fold(c, results); d.endTime == if d.ends != [] then d.ends[|d.ends| - 1] else 0.0
    decreases |results|
  {
    hide *;
    if results == [] {
      FoldOfNothing(c, results);
    } else {
      var front, last := Front(results), results[|results| - 1];
      FrontFacts(results);
      EndFromLast(c, front);
      FoldLast(c, results);
      Singles(c, Fold(c, front), last, |front|);
      Gains(c, Fold(c, front), last, |front|);
      AppendedLast(Fold(c, front).ends, if Selected(c, last) then EndsOf(last) else []);
    }
  }

  lemma {:induction false} OthersFromFirst(c: Configuration, results: seq<Json>)
    ensures var d := Fold(c, results);
      var first := results != [] && Selected(c, results[0]) && c.mode != Complete;
      && d.others == (if first then OthersOf(results[0]) else [])
      && d.confidence == (if first && Alternatives(results[0]) != [] then ConfidenceOfFirst(results[0]) else 0.0)
    decreases |results|
  {
    hide *;
    if results == [] {
      FoldOfNothing(c, results);
    } else {
      var front, last := Front(results), results[|results| - 1];
      FrontFacts(results);
      OthersFromFirst(c, front);
      FoldLast(c, results);
      Singles(c, Fold(c, front), last, |front|);
    }
  }

  /** The single values come from the first result and the last word. */
  lemma {:induction false} FirstsAndLasts(c: Configuration, results: seq<Json>)
    ensures var d := Fold(c, results);
      var first := results != [] && Selected(c, results[0]);
      && d.startTime == (if first && StartsOf(results[0]) != [] then StartsOf(results[0])[0] else 0.0)
      && d.endTime == (if d.ends != [] then d.ends[|d.ends| - 1] else 0.0)
      && d.others == (if first && c.mode != Complete then OthersOf(results[0]) else [])
      && d.confidence == (if first && c.mode != Complete && Alternatives(results[0]) != [] then ConfidenceOfFirst(results[0])
                          else 0.0)
  {
    hide *;
    StartFromFirst(c, results);
    EndFromLast(c, results);
    OthersFromFirst(c, results);
  }

  // ---------- Parallel lists ----------

  lemma {:induction false} ParallelFlatMap<T, U>(items: seq<Json>, f: Json -> seq<T>, g: Json -> seq<U>)
    requires forall x :: |f(x)| == |g(x)|
    ensures |FlatMap(items, f)| == |FlatMap(items, g)|
  {
    if items != [] {
      ParallelFlatMap(items[..|items| - 1], f, g);
    }
  }

  /** Words, start times and end times correspond one to one, for any document and mode. */
  lemma WordListsParallel(c: Configuration, results: seq<Json>)
    ensures var d := Fold(c, results); |d.words| == |d.starts| == |d.ends|
  {
    WordsOfSelection(c, results);
    ParallelFlatMap(Selection(c, results), WordsOf, StartsOf);
    ParallelFlatMap(Selection(c, results), StartsOf, EndsOf);
  }

  predicate NestedParallel(words: seq<seq<string>>, confidences: seq<seq<real>>) {
    |words| == |confidences| && forall i :: 0 <= i < |words| ==> |words[i]| == |confidences[i]|
  }

  /** The same for the word alternatives, the inner lists included. */
  lemma {:induction false} SlotListsParallel(c: Configuration, results: seq<Json>)
    ensures var d := Fold(c, results);
      && |d.slotStarts| == |d.slotEnds| == |d.slotWords| == |d.slotConfidences|
      && NestedParallel(d.slotWords, d.slotConfidences)
  {
    if results != [] {
      SlotListsParallel(c, Front(results));
      FoldLast(c, results);
      Gains(c, Fold(c, Front(results)), results[|results| - 1], |results| - 1);
      SlotsParallel(results[|results| - 1]);
      hide Fold, Accumulate, SlotWordsOf, SlotConfidencesOf, SlotStartsOf, SlotEndsOf, Merged;
    }
  }

  lemma SlotsParallel(result: Json)
    ensures |SlotStartsOf(result)| == |SlotEndsOf(result)| == |SlotWordsOf(result)| == |SlotConfidencesOf(result)|
    ensures NestedParallel(SlotWordsOf(result), SlotConfidencesOf(result))
  {
    forall i | 0 <= i < |Slots(result)| ensures |SlotWordsOf(result)[i]| == |SlotConfidencesOf(result)[i]| {
      assert SlotWordsOf(result)[i] == SlotWords(Slots(result)[i]);
      assert SlotConfidencesOf(result)[i] == SlotConfidences(Slots(result)[i]);
    }
  }

  /** The label lists of a document fit each other, as SpeakerProcessor expects. */
  lemma LabelListsParallel(doc: Json)
    ensures Labels(Map(LabelsOf(doc), FromOf), Map(LabelsOf(doc), SpeakerOf), Map(LabelsOf(doc), LabelConfidenceOf)).Parallel()
  {
  }

  /** The lists that a document leaves behind fit each other: word by word, slot by slot and label by label. */
  lemma ListsParallel(c: Configuration, doc: Json)
    ensures var d := Fold(c, Results(doc));
      && |d.words| == |d.starts| == |d.ends|
      && |d.slotStarts| == |d.slotEnds| == |d.slotWords| == |d.slotConfidences|
      && NestedParallel(d.slotWords, d.slotConfidences)
    ensures Labels(Map(LabelsOf(doc), FromOf), Map(LabelsOf(doc), SpeakerOf), Map(LabelsOf(doc), LabelConfidenceOf)).Parallel()
  {
    WordListsParallel(c, Results(doc));
    SlotListsParallel(c, Results(doc));
    LabelListsParallel(doc);
    hide *;
  }

  // ---------- Keywords ----------

  /** Result k is the first final one that carries the keyword. */
  predicate FirstCarrier(results: seq<Json>, kw: string, k: nat) {
    && k < |results| && Final(results[k]) && Hit(results[k], kw).Some?
    && forall j :: 0 <= j < k && Final(results[j]) ==> Hit(results[j], kw) == None
  }

  predicate NoCarrier(results: seq<Json>, kw: string) {
    forall j :: 0 <= j < |results| && Final(results[j]) ==> Hit(results[j], kw) == None
  }

  lemma LastFinalHit(results: seq<Json>, kw: string)
    requires results != []
    ensures var last, before := results[|results| - 1], FirstHit(Finals(Front(results)), kw);
      FirstHit(Finals(results), kw) == if before.Some? || !Final(last) then before else Hit(last, kw)
  {
    FirstHitOneMore(Finals(Front(results)), results[|results| - 1], kw);
    assert Finals(Front(results)) + [] == Finals(Front(results));
    hide FirstHit, Hit, Final;
  }

  lemma LastCarrier(results: seq<Json>, kw: string)
    requires results != []
    ensures NoCarrier(results, kw) <==>
      NoCarrier(Front(results), kw) && (Final(results[|results| - 1]) ==> Hit(results[|results| - 1], kw) == None)
  {
    hide Hit, Final;
    assert results == Front(results) + [results[|results| - 1]];
  }

  lemma {:induction false} NoHitIffNoCarrier(results: seq<Json>, kw: string)
    ensures FirstHit(Finals(results), kw) == None <==> NoCarrier(results, kw)
  {
    if results != [] {
      NoHitIffNoCarrier(Front(results), kw);
      LastFinalHit(results, kw);
      LastCarrier(results, kw);
      hide *;
    }
  }

  lemma {:induction false} FirstHitIsFirst(results: seq<Json>, kw: string, k: nat)
    requires FirstCarrier(results, kw, k)
    ensures FirstHit(Finals(results), kw) == Hit(results[k], kw)
  {
    var front := Front(results);
    LastFinalHit(results, kw);
      LastCarrier(results, kw);
    if k < |front| {
      assert FirstCarrier(front, kw, k) by {
        hide Hit, Final;
      }
      FirstHitIsFirst(front, kw, k);
      hide Hit, Final, FirstHit;
    } else {
      NoHitIffNoCarrier(front, kw);
      hide Hit, Final, FirstHit;
    }
  }

  /** An entry is kept for a configured keyword if and only if some final result carries it, and it is that of the first
      such result: a later one neither replaces nor extends it. */
  lemma FirstFinalResultWins(c: Configuration, results: seq<Json>, kw: string)
    ensures kw in Fold(c, results).keywords <==> kw in c.keywords && !NoCarrier(results, kw)
    ensures forall k: nat :: kw in c.keywords && FirstCarrier(results, kw, k) ==>
      kw in Fold(c, results).keywords && Fold(c, results).keywords[kw] == Hit(results[k], kw).value
  {
    DetailsOfFinals(c, results);
    NoHitIffNoCarrier(results, kw);
    forall k: nat | FirstCarrier(results, kw, k)
      ensures FirstHit(Finals(results), kw) == Hit(results[k], kw) && Hit(results[k], kw).Some?
    {
      FirstHitIsFirst(results, kw, k);
    }
    hide Fold, Hit, Final, FirstHit, Finals, FlatMap, NoCarrier;
  }
}
