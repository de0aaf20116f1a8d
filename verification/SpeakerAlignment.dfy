/** SpeakerProcessor: assigns speaker labels to the words of an utterance and separates the speaker updates. */
module SpeakerAlignment {

  /** The three parallel lists of a speaker_labels message. */
  datatype Labels = Labels(from: seq<real>, speaker: seq<int>, confidence: seq<real>) {
    predicate Parallel() {
      |speaker| == |from| && |confidence| == |from|
    }
  }

  /** Index of the first label at this time, -1 if there is none. */
  function FirstIndex(from: seq<real>, start: real): (k: int)
    ensures -1 <= k < |from|
    ensures if k == -1 then start !in from else from[k] == start && start !in from[..k]
  {
    if from == [] then -1
    else
      var front := from[..|from| - 1];
      var k := FirstIndex(front, start);
      assert from == front + [from[|from| - 1]];
      if k != -1 then
        assert from[..k] == front[..k];
        k
      else if from[|from| - 1] == start then |from| - 1 else -1
  }

  /** That property determines the index. */
  lemma FirstIndexIsUnique(from: seq<real>, start: real, k: int)
    requires -1 <= k < |from|
    requires if k == -1 then start !in from else from[k] == start && start !in from[..k]
    ensures k == FirstIndex(from, start)
  {
    var f := FirstIndex(from, start);
    if f != -1 && k != -1 {
      assert forall j :: 0 <= j < k ==> from[..k][j] == from[j];
      assert forall j :: 0 <= j < f ==> from[..f][j] == from[j];
    }
  }

  // ---------- What the word lists mean ----------

  function SpeakerAt(l: Labels, start: real): int
    requires l.Parallel()
  {
    var k := FirstIndex(l.from, start);
    if k == -1 then -1 else l.speaker[k]
  }

  function ConfidenceAt(l: Labels, start: real): real
    requires l.Parallel()
  {
    var k := FirstIndex(l.from, start);
    if k == -1 then -1.0 else l.confidence[k]
  }

  /** Exactly one speaker and one confidence for each word. */
  function Speakers(l: Labels, words: seq<real>): seq<int>
    requires l.Parallel()
  {
    seq(|words|, i requires 0 <= i < |words| => SpeakerAt(l, words[i]))
  }

  function Confidences(l: Labels, words: seq<real>): seq<real>
    requires l.Parallel()
  {
    seq(|words|, i requires 0 <= i < |words| => ConfidenceAt(l, words[i]))
  }

  /** The label is the one given to some word. */
  predicate Given(l: Labels, words: seq<real>, k: int) {
    exists i :: 0 <= i < |words| && FirstIndex(l.from, words[i]) == k
  }

  predicate Increasing(indexes: seq<int>) {
    forall i, j :: 0 <= i < j < |indexes| ==> indexes[i] < indexes[j]
  }

  /** In increasing order, exactly the labels that are given to no word. */
  ghost predicate AreUpdates(l: Labels, words: seq<real>, indexes: seq<int>) {
    && Increasing(indexes)
    && forall k :: k in indexes <==> 0 <= k < |l.from| && !Given(l, words, k)
  }

  lemma HeadIsMember(a: seq<int>)
    ensures a == [] || a[0] in a
  {
  }

  /** The update list is determined by the labels and the words. */
  lemma {:induction false} UpdatesAreUnique(a: seq<int>, b: seq<int>)
    requires Increasing(a) && Increasing(b) && forall k :: k in a <==> k in b
    ensures a == b
  {
    HeadIsMember(a);
    HeadIsMember(b);
    if a != [] && b != [] {
      forall k ensures k in a[1..] <==> k in b[1..] {
        assert a == [a[0]] + a[1..] && b == [b[0]] + b[1..];
        assert k in a[1..] <==> k in a && k != a[0];
        assert k in b[1..] <==> k in b && k != b[0];
      }
      UpdatesAreUnique(a[1..], b[1..]);
    }
  }

  /** Every label is either given to a word or reported as an update, never both and never lost; a label that repeats
      an earlier start time is always an update. */
  lemma LabelsArePartitioned(l: Labels, words: seq<real>, updates: seq<int>, k: nat)
    requires AreUpdates(l, words, updates) && k < |l.from|
    ensures k in updates <==> !Given(l, words, k)
    ensures Given(l, words, k) <==> l.from[k] in words && l.from[k] !in l.from[..k]
  {
    if l.from[k] in words && l.from[k] !in l.from[..k] {
      var i :| 0 <= i < |words| && words[i] == l.from[k];
      FirstIndexIsUnique(l.from, words[i], k);
    }
  }

  /** Labels that carry the words' own distinct start times are taken over unchanged, and nothing is an update. */
  lemma MatchingLabels(l: Labels, updates: seq<int>)
    requires l.Parallel() && forall i, j :: 0 <= i < j < |l.from| ==> l.from[i] != l.from[j]
    requires AreUpdates(l, l.from, updates)
    ensures Speakers(l, l.from) == l.speaker && Confidences(l, l.from) == l.confidence && updates == []
  {
    forall i | 0 <= i < |l.from| ensures FirstIndex(l.from, l.from[i]) == i {
      FirstIndexIsUnique(l.from, l.from[i], i);
    }
    forall k: nat | k < |l.from| ensures k !in updates {
      assert FirstIndex(l.from, l.from[k]) == k;
    }
    HeadIsMember(updates);
  }

  /** Word by word: the speaker and confidence of the first label at its start time, and -1 if there is none. */
  lemma WordByWord(l: Labels, words: seq<real>, i: nat)
    requires l.Parallel() && i < |words|
    ensures |Speakers(l, words)| == |Confidences(l, words)| == |words|
    ensures words[i] !in l.from ==> Speakers(l, words)[i] == -1 && Confidences(l, words)[i] == -1.0
    ensures forall k :: 0 <= k < |l.from| && l.from[k] == words[i] && words[i] !in l.from[..k] ==>
      Speakers(l, words)[i] == l.speaker[k] && Confidences(l, words)[i] == l.confidence[k]
  {
    forall k | 0 <= k < |l.from| && l.from[k] == words[i] && words[i] !in l.from[..k]
      ensures Speakers(l, words)[i] == l.speaker[k] && Confidences(l, words)[i] == l.confidence[k]
    {
      FirstIndexIsUnique(l.from, words[i], k);
    }
  }

  class SpeakerProcessor {
    const labels: Labels
    const myUtteranceWordsStartTimes: seq<real>
    var spkFromNew: seq<real>
    var spkSpkNew: seq<int>
    var spkCfdNew: seq<real>
    var spkUpdateIndexes: seq<int>

    constructor (l: Labels, words: seq<real>)
      ensures labels == l && myUtteranceWordsStartTimes == words
      ensures spkFromNew == [] && spkSpkNew == [] && spkCfdNew == [] && spkUpdateIndexes == []
    {
      labels, myUtteranceWordsStartTimes := l, words;
      spkFromNew, spkSpkNew, spkCfdNew, spkUpdateIndexes := [], [], [], [];
    }

    /** The index map: an insertion does not replace the entry of an equal start time. */
    method IndexLabels() returns (spkIndexMap: map<real, int>)
      ensures forall start :: start in spkIndexMap <==> FirstIndex(labels.from, start) != -1
      ensures forall start :: start in spkIndexMap ==> spkIndexMap[start] == FirstIndex(labels.from, start)
    {
      spkIndexMap := map[];
      for i := 0 to |labels.from|
        invariant forall start :: start in spkIndexMap <==> FirstIndex(labels.from[..i], start) != -1
        invariant forall start :: start in spkIndexMap ==> spkIndexMap[start] == FirstIndex(labels.from[..i], start)
      {
        assert labels.from[..i + 1][..i] == labels.from[..i];
        if labels.from[i] !in spkIndexMap {
          spkIndexMap := spkIndexMap[labels.from[i] := i];
        }
      }
      assert labels.from[..|labels.from|] == labels.from;
    }

    method Run()
      requires labels.Parallel()
      requires spkFromNew == [] && spkSpkNew == [] && spkCfdNew == [] && spkUpdateIndexes == []
      modifies this
      ensures spkFromNew == myUtteranceWordsStartTimes
      ensures spkSpkNew == Speakers(labels, myUtteranceWordsStartTimes)
      ensures spkCfdNew == Confidences(labels, myUtteranceWordsStartTimes)
      ensures AreUpdates(labels, myUtteranceWordsStartTimes, spkUpdateIndexes)
    {
      var words := myUtteranceWordsStartTimes;
      var spkIndexMap := IndexLabels();
      var usedSpkIndexes: set<int> := {};
      NoWords(labels, words);
      hide Given, Speakers, Confidences, FirstIndex;
      for i := 0 to |words|
        invariant spkFromNew == words[..i] && spkUpdateIndexes == []
        invariant spkSpkNew == Speakers(labels, words[..i]) && spkCfdNew == Confidences(labels, words[..i])
        invariant forall k :: k in usedSpkIndexes <==> k != -1 && Given(labels, words[..i], k)
      {
        var startt := words[i];
        assert words[..i + 1] == words[..i] + [startt];
        SpeakersOneMore(labels, words[..i], startt);
        GivenOneMore(labels, words[..i], startt);
        if startt in spkIndexMap {
          var idx := spkIndexMap[startt];
          spkFromNew := spkFromNew + [labels.from[idx]];
          spkSpkNew := spkSpkNew + [labels.speaker[idx]];
          spkCfdNew := spkCfdNew + [labels.confidence[idx]];
          usedSpkIndexes := usedSpkIndexes + {idx};
        } else {
          spkFromNew := spkFromNew + [startt];
          spkSpkNew := spkSpkNew + [-1];
          spkCfdNew := spkCfdNew + [-1.0];
        }
      }
      assert words[..|words|] == words;
      CollectUpdates(usedSpkIndexes);
    }

    /** The indexes that were not used are reported as updates. */
    method CollectUpdates(usedSpkIndexes: set<int>)
      requires spkUpdateIndexes == []
      requires forall k :: k in usedSpkIndexes <==> k != -1 && Given(labels, myUtteranceWordsStartTimes, k)
      modifies `spkUpdateIndexes
      ensures AreUpdates(labels, myUtteranceWordsStartTimes, spkUpdateIndexes)
    {
      hide Given;
      for i := 0 to |labels.from|
        invariant Increasing(spkUpdateIndexes)
        invariant forall k :: k in spkUpdateIndexes <==> 0 <= k < i && !Given(labels, myUtteranceWordsStartTimes, k)
      {
        ghost var before := spkUpdateIndexes;
        if i !in usedSpkIndexes {
          spkUpdateIndexes := spkUpdateIndexes + [i];
        }
        assert forall j :: 0 <= j < |before| ==> before[j] in before;
      }
    }
  }

  lemma NoWords(l: Labels, words: seq<real>)
    requires l.Parallel()
    ensures Speakers(l, words[..0]) == [] && Confidences(l, words[..0]) == [] && forall k :: !Given(l, words[..0], k)
  {
  }

  lemma SpeakersOneMore(l: Labels, words: seq<real>, start: real)
    requires l.Parallel()
    ensures Speakers(l, words + [start]) == Speakers(l, words) + [SpeakerAt(l, start)]
    ensures Confidences(l, words + [start]) == Confidences(l, words) + [ConfidenceAt(l, start)]
  {
    hide SpeakerAt, ConfidenceAt;
  }

  lemma GivenOneMore(l: Labels, words: seq<real>, start: real)
    ensures forall k :: Given(l, words + [start], k) <==> Given(l, words, k) || FirstIndex(l.from, start) == k
  {
    forall k ensures Given(l, words + [start], k) <==> Given(l, words, k) || FirstIndex(l.from, start) == k {
      var all := words + [start];
      if Given(l, words, k) {
        var i :| 0 <= i < |words| && FirstIndex(l.from, words[i]) == k;
        assert all[i] == words[i];
      }
      if FirstIndex(l.from, start) == k {
        assert all[|words|] == start;
      }
    }
  }
}
