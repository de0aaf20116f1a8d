/** The VoiceCallDataRouter operator: a round-robin, capacity-bounded allocator of calls to speech processors. */
module CallRouter {
  import opened Wrappers
  import opened ChannelKey
  import opened SpeechStream

  /** Submission-time values: N processors, calls allowed on each, EOCS needed to complete a call (1 or 2). */
  datatype Config = Config(processors: nat, capacity: nat, eocsNeeded: int)

  /** The operator's mutable state. Processor ids run from 1 to N, list indexes from 0 to N-1. */
  datatype Router = Router(
    status: seq<int>,          // calls in progress on each processor
    recent: int,               // id chosen for the latest new call, -1 before the first
    calls: map<string, int>,   // processor id of every ongoing call
    done: map<string, bool>)   // session_channel keys whose EOCS has been seen

  /** What became of an incoming tuple. */
  datatype Fate = Forwarded(processor: int) | EmptyIgnored | Refused | UnknownCall

  // ---------- Configuration helpers ----------

  /** Two engines serve one call; None where the original aborts on an odd number of engines. */
  function CallsPerProcessor(engines: nat): (r: Option<nat>)
    ensures r.Some? <==> exists calls: nat :: engines == 2 * calls
    ensures r.Some? ==> engines == 2 * r.value
  {
    if engines % 2 != 0 then
      assert forall calls: nat :: (2 * calls) % 2 == 0;
      None
    else
      assert engines == 2 * (engines / 2);
      Some(engines / 2)
  }

  method PrepareIdleProcessors(count: int) returns (idle: seq<int>)
    ensures |idle| == if count < 0 then 0 else count
    ensures forall p :: 0 <= p < |idle| ==> idle[p] == 0
  {
    idle := [];
    var idx := 1;
    while idx <= count
      invariant 1 <= idx && (idx <= count + 1 || idx == 1)
      invariant |idle| == idx - 1
      invariant forall p :: 0 <= p < |idle| ==> idle[p] == 0
    {
      idle := idle + [0];
      idx := idx + 1;
    }
  }

  // ---------- The cyclic search ----------

  /** The list index that is looked at first after `recent` was chosen. */
  function Cursor(recent: int, n: nat): int {
    if recent == -1 || recent == n then 0 else recent
  }

  /** The index reached after k steps from start in a ring of n. */
  function Slot(start: nat, k: nat, n: nat): (i: nat)
    requires start < n && k <= n
    ensures i < n
  {
    if start + k < n then start + k else start + k - n
  }

  predicate ValidCursor(recent: int, n: nat) {
    recent == -1 || 1 <= recent <= n
  }

  /** Every slot is busy in the first k positions of the ring. */
  predicate BusyBefore(capacity: int, status: seq<int>, start: nat, k: nat)
    requires start < |status| && k <= |status|
  {
    forall j: nat :: j < k ==> status[Slot(start, j, |status|)] >= capacity
  }

  /** i is the first index with a free place, in ring order from the cursor; -1 if there is none. */
  ghost predicate FirstFree(capacity: int, status: seq<int>, recent: int, i: int)
    requires ValidCursor(recent, |status|)
  {
    var n := |status|;
    if i == -1 then forall p :: 0 <= p < n ==> status[p] >= capacity
    else
      && 0 <= i < n && status[i] < capacity
      && exists k: nat :: k < n && i == Slot(Cursor(recent, n), k, n) && BusyBefore(capacity, status, Cursor(recent, n), k)
  }

  /** getSpeechProcessorIdForNewCallProcessing: the list is passed by reference, here as in- and out-parameter. */
  method GetSpeechProcessorIdForNewCallProcessing(capacity: int, status: seq<int>, count: nat, recent: int)
    returns (id: int, updated: seq<int>)
    requires |status| == count && ValidCursor(recent, count)
    ensures id == -1 || 1 <= id <= count
    ensures FirstFree(capacity, status, recent, if id == -1 then -1 else id - 1)
    ensures updated == if id == -1 then status else status[id - 1 := status[id - 1] + 1]
  {
    if |status| <= 0 {
      return -1, status;
    }
    var available := false;
    var idToBeChecked := recent;
    var loopCnt := 1;
    if recent == -1 || recent == count {
      idToBeChecked := 0;
    }
    ghost var start: nat := idToBeChecked;
    while true
      invariant 1 <= loopCnt <= count + 1
      invariant idToBeChecked == Slot(start, loopCnt - 1, count)
      invariant BusyBefore(capacity, status, start, loopCnt - 1)
      decreases count + 1 - loopCnt
    {
      if loopCnt > count {
        break;
      }
      loopCnt := loopCnt + 1;
      if status[idToBeChecked] < capacity {
        available := true;
        break;
      }
      idToBeChecked := idToBeChecked + 1;
      if idToBeChecked >= count {
        idToBeChecked := 0;
      }
    }
    if !available {
      RingCovers(capacity, status, start);
      return -1, status;
    }
    ghost var k: nat := loopCnt - 2;
    assert BusyBefore(capacity, status, Cursor(recent, count), k);
    assert FirstFree(capacity, status, recent, idToBeChecked);
    updated := status[idToBeChecked := status[idToBeChecked] + 1];
    id := idToBeChecked + 1;
  }

  /** A whole turn of the ring visits every index. */
  lemma RingCovers(capacity: int, status: seq<int>, start: nat)
    requires start < |status| && BusyBefore(capacity, status, start, |status|)
    ensures forall p :: 0 <= p < |status| ==> status[p] >= capacity
  {
    forall p | 0 <= p < |status| ensures status[p] >= capacity {
      var j := Distance(start, p, |status|);
      assert Slot(start, j, |status|) == p;
    }
  }

  /** How many steps lead from start to index p of the ring. */
  function Distance(start: nat, p: nat, n: nat): (k: nat)
    requires start < n && p < n
    ensures k < n && Slot(start, k, n) == p
  {
    if start <= p then p - start else p + n - start
  }

  /** The search as a function, for use in the specification of whole runs. */
  function Search(capacity: int, status: seq<int>, start: nat, k: nat): (i: int)
    requires start < |status| && k <= |status|
    decreases |status| - k
  {
    if k == |status| then -1
    else if status[Slot(start, k, |status|)] < capacity then Slot(start, k, |status|)
    else Search(capacity, status, start, k + 1)
  }

  function Choose(capacity: int, status: seq<int>, recent: int): int
    requires ValidCursor(recent, |status|)
  {
    if |status| == 0 then -1 else Search(capacity, status, Cursor(recent, |status|), 0)
  }

  lemma {:induction false} SearchFindsFirst(capacity: int, status: seq<int>, start: nat, k: nat)
    requires start < |status| && k <= |status| && BusyBefore(capacity, status, start, k)
    ensures var i := Search(capacity, status, start, k);
      if i == -1 then BusyBefore(capacity, status, start, |status|)
      else 0 <= i < |status| && status[i] < capacity && BusyBefore(capacity, status, start, Distance(start, i, |status|))
    decreases |status| - k
  {
    if k < |status| && status[Slot(start, k, |status|)] >= capacity {
      SearchFindsFirst(capacity, status, start, k + 1);
    }
  }

  /** The search finds the first free processor after the cursor, and that characterises it. */
  lemma ChooseIsFirstFree(capacity: int, status: seq<int>, recent: int, i: int)
    requires ValidCursor(recent, |status|)
    ensures FirstFree(capacity, status, recent, i) <==> i == Choose(capacity, status, recent)
  {
    var n := |status|;
    if n > 0 {
      var start := Cursor(recent, n);
      SearchFindsFirst(capacity, status, start, 0);
      var found := Choose(capacity, status, recent);
      if found == -1 {
        RingCovers(capacity, status, start);
      } else {
        assert FirstFree(capacity, status, recent, found) by {
          assert found == Slot(start, Distance(start, found, n), n);
        }
        if FirstFree(capacity, status, recent, i) && i != -1 {
          var k: nat :| k < n && i == Slot(start, k, n) && BusyBefore(capacity, status, start, k);
          var d := Distance(start, found, n);
          assert status[Slot(start, d, n)] < capacity && status[Slot(start, k, n)] < capacity;
          assert k == d;
        }
      }
    }
  }

  // ---------- One incoming tuple ----------

  function Initial(c: Config): Router {
    Router(seq(c.processors, _ => 0), -1, map[], map[])
  }

  /** The index bounds under which the operator can look into its list. */
  predicate WellFormed(c: Config, r: Router) {
    && |r.status| == c.processors
    && ValidCursor(r.recent, c.processors)
    && forall s :: s in r.calls ==> 1 <= r.calls[s] <= c.processors
  }

  function RouteSpeech(c: Config, r: Router, t: BinarySpeech): (Router, Fate)
    requires WellFormed(c, r)
  {
    if t.size == 0 then (r, EmptyIgnored)
    else if t.session in r.calls then (r, Forwarded(r.calls[t.session]))
    else
      var i := Choose(c.capacity, r.status, r.recent);
      if !(0 <= i < c.processors) then (r, Refused)
      else
        (Router(r.status[i := r.status[i] + 1], i + 1, r.calls[t.session := i + 1], r.done), Forwarded(i + 1))
  }

  predicate Completed(c: Config, done: map<string, bool>, session: string) {
    var first, second := Key(session, 1) in done, Key(session, 2) in done;
    (c.eocsNeeded == 2 && first && second) || (c.eocsNeeded == 1 && (first || second))
  }

  function RouteEndOfCall(c: Config, r: Router, t: BinarySpeech): (Router, Fate)
    requires WellFormed(c, r)
  {
    if t.session !in r.calls then (r, UnknownCall)
    else
      var id := r.calls[t.session];
      var done := r.done[Key(t.session, t.channel) := true];
      if !Completed(c, done, t.session) then (r.(done := done), Forwarded(id))
      else
        (Router(r.status[id - 1 := r.status[id - 1] - 1], r.recent, r.calls - {t.session},
                done - {Key(t.session, 1), Key(t.session, 2)}), Forwarded(id))
  }

  function Route(c: Config, r: Router, t: BinarySpeech): (Router, Fate)
    requires WellFormed(c, r)
  {
    if t.endOfCall then RouteEndOfCall(c, r, t) else RouteSpeech(c, r, t)
  }

  /** The operator itself; `sent` is what it has submitted, each tuple with its URL context path. */
  class VoiceCallDataRouter {
    const config: Config
    var speechProcessorStatusList: seq<int>
    var recentlyChosenSpeechProcessorId: int
    var vgwSessionIdToSpeechProcessorMap: map<string, int>
    var vgwSessionVgwVoiceChannelNumberCompletedMap: map<string, bool>
    var sent: seq<(BinarySpeech, int)>

    function State(): Router
      reads this
    {
      Router(speechProcessorStatusList, recentlyChosenSpeechProcessorId,
             vgwSessionIdToSpeechProcessorMap, vgwSessionVgwVoiceChannelNumberCompletedMap)
    }

    ghost predicate Valid()
      reads this
    {
      WellFormed(config, State())
    }

    constructor (c: Config)
      ensures Valid() && config == c && State() == Initial(c) && sent == []
    {
      config := c;
      recentlyChosenSpeechProcessorId := -1;
      vgwSessionIdToSpeechProcessorMap := map[];
      vgwSessionVgwVoiceChannelNumberCompletedMap := map[];
      sent := [];
      new;
      speechProcessorStatusList := PrepareIdleProcessors(c.processors);
      assert speechProcessorStatusList == Initial(c).status;
    }

    method OnTuple(t: BinarySpeech) returns (fate: Fate)
      requires Valid()
      modifies this
      ensures Valid() && (State(), fate) == Route(config, old(State()), t)
      ensures sent == old(sent) + if fate.Forwarded? then [(t, fate.processor)] else []
    {
      if !t.endOfCall {
        fate := OnSpeech(t);
      } else {
        fate := OnEndOfCall(t);
      }
    }

    /** A fragment: a new call is given a processor if there is a place. */
    method OnSpeech(t: BinarySpeech) returns (fate: Fate)
      requires Valid() && !t.endOfCall
      modifies this
      ensures Valid() && (State(), fate) == RouteSpeech(config, old(State()), t)
      ensures sent == old(sent) + if fate.Forwarded? then [(t, fate.processor)] else []
    {
      if t.size <= 0 {
        return EmptyIgnored;
      }
      if t.session !in vgwSessionIdToSpeechProcessorMap {
        var id, list := GetSpeechProcessorIdForNewCallProcessing(
          config.capacity, speechProcessorStatusList, config.processors, recentlyChosenSpeechProcessorId);
        ChooseIsFirstFree(config.capacity, speechProcessorStatusList, recentlyChosenSpeechProcessorId,
                          if id == -1 then -1 else id - 1);
        speechProcessorStatusList := list;
        if id == -1 {
          return Refused;
        }
        vgwSessionIdToSpeechProcessorMap := vgwSessionIdToSpeechProcessorMap[t.session := id];
        recentlyChosenSpeechProcessorId := id;
      }
      fate := Forwarded(vgwSessionIdToSpeechProcessorMap[t.session]);
      sent := sent + [(t, fate.processor)];
    }

    /** A signal: the place of the call is freed once enough of them have arrived. */
    method OnEndOfCall(t: BinarySpeech) returns (fate: Fate)
      requires Valid() && t.endOfCall
      modifies this
      ensures Valid() && (State(), fate) == RouteEndOfCall(config, old(State()), t)
      ensures sent == old(sent) + if fate.Forwarded? then [(t, fate.processor)] else []
    {
      if t.session !in vgwSessionIdToSpeechProcessorMap {
        return UnknownCall;
      }
      var key := Key(t.session, t.channel);
      var id := vgwSessionIdToSpeechProcessorMap[t.session];
      fate := Forwarded(id);
      sent := sent + [(t, id)];
      vgwSessionVgwVoiceChannelNumberCompletedMap := vgwSessionVgwVoiceChannelNumberCompletedMap[key := true];
      var key1, key2 := Key(t.session, 1), Key(t.session, 2);
      var key1Exists := key1 in vgwSessionVgwVoiceChannelNumberCompletedMap;
      var key2Exists := key2 in vgwSessionVgwVoiceChannelNumberCompletedMap;
      ghost var done := vgwSessionVgwVoiceChannelNumberCompletedMap;
      hide Key;
      if config.eocsNeeded == 2 && key1Exists && key2Exists {
        speechProcessorStatusList := speechProcessorStatusList[id - 1 := speechProcessorStatusList[id - 1] - 1];
        vgwSessionIdToSpeechProcessorMap := vgwSessionIdToSpeechProcessorMap - {t.session};
        vgwSessionVgwVoiceChannelNumberCompletedMap := vgwSessionVgwVoiceChannelNumberCompletedMap - {key1};
        vgwSessionVgwVoiceChannelNumberCompletedMap := vgwSessionVgwVoiceChannelNumberCompletedMap - {key2};
        assert vgwSessionVgwVoiceChannelNumberCompletedMap == done - {key1, key2};
      } else if config.eocsNeeded == 1 && (key1Exists || key2Exists) {
        speechProcessorStatusList := speechProcessorStatusList[id - 1 := speechProcessorStatusList[id - 1] - 1];
        vgwSessionIdToSpeechProcessorMap := vgwSessionIdToSpeechProcessorMap - {t.session};
        if key1Exists {
          vgwSessionVgwVoiceChannelNumberCompletedMap := vgwSessionVgwVoiceChannelNumberCompletedMap - {key1};
        }
        if key2Exists {
          vgwSessionVgwVoiceChannelNumberCompletedMap := vgwSessionVgwVoiceChannelNumberCompletedMap - {key2};
        }
        assert vgwSessionVgwVoiceChannelNumberCompletedMap == done - {key1, key2};
      }
    }
  }
}
