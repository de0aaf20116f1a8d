/** IAMAccessTokenGenerator: requesting and refreshing access tokens, and the removal of interim response headers. */
module TokenLoop {
  import opened Wrappers

  // ---------- Interim responses ----------

  /** A header line as the code distinguishes them: getStatusCode accepts it, it is a bare line end, or neither. */
  datatype Line = Status(code: nat) | Blank | Field(text: string)

  /** Return value 0, return value 1, or the exception of an index beyond the list. */
  datatype Outcome = Skipped | Invalid | OutOfRange

  predicate Interim(line: Line) {
    line.Status? && 100 <= line.code < 200
  }

  /** Index of the first bare line end, the length if there is none. */
  function FirstBlank(headers: seq<Line>): (x: nat)
    ensures x <= |headers|
  {
    if headers == [] || headers[0] == Blank then 0 else 1 + FirstBlank(headers[1..])
  }

  lemma {:induction false} FirstBlankFound(headers: seq<Line>)
    ensures forall i :: 0 <= i < FirstBlank(headers) ==> headers[i] != Blank
    ensures FirstBlank(headers) < |headers| ==> headers[FirstBlank(headers)] == Blank
  {
    if headers != [] && headers[0] != Blank {
      FirstBlankFound(headers[1..]);
      assert forall i :: 0 < i < |headers| ==> headers[i] == headers[1..][i - 1];
    }
  }

  /** What remains of the headers. */
  function Strip(headers: seq<Line>): (Outcome, seq<Line>)
    decreases |headers|
  {
    if headers == [] then (OutOfRange, headers)
    else if !headers[0].Status? then (Invalid, headers)
    else if !Interim(headers[0]) then (Skipped, headers)
    else
      var x := FirstBlank(headers);
      if x == |headers| then (Invalid, headers) else Strip(headers[x + 1..])
  }

  lemma FirstBlankIs(headers: seq<Line>, x: nat)
    requires x <= |headers| && (forall i :: 0 <= i < x ==> headers[i] != Blank) && (x < |headers| ==> headers[x] == Blank)
    ensures x == FirstBlank(headers)
  {
    FirstBlankFound(headers);
    hide FirstBlank;
  }

  /** The list and the status are passed by reference. */
  method SkipContinuationHeaders(headers: seq<Line>, status: nat) returns (outcome: Outcome, rest: seq<Line>, code: nat)
    ensures (outcome, rest) == Strip(headers)
    ensures outcome == Skipped ==> rest != [] && rest[0] == Status(code)
  {
    rest, code := headers, status;
    var finished := false;
    while !finished
      invariant Strip(rest) == Strip(headers)
      invariant finished ==> rest != [] && rest[0] == Status(code) && !Interim(rest[0])
      decreases |rest|, !finished
    {
      if rest == [] {
        return OutOfRange, rest, code;
      }
      if rest[0].Status? {
        code := rest[0].code;
        if code >= 100 && code < 200 {
          var x := 0;
          while x < |rest|
            invariant 0 <= x <= |rest| && forall i :: 0 <= i < x ==> rest[i] != Blank
          {
            if rest[x] == Blank {
              break;
            }
            x := x + 1;
          }
          FirstBlankIs(rest, x);
          if x == |rest| {
            return Invalid, rest, code;
          } else {
            rest := rest[x + 1..];
          }
        } else {
          finished := true;
        }
      } else {
        return Invalid, rest, code;
      }
    }
    outcome := Skipped;
  }

  /** An interim response: its status line, header fields and the bare line end, which is its last line. */
  predicate InterimBlock(block: seq<Line>) {
    |block| >= 2 && Interim(block[0]) && FirstBlank(block) == |block| - 1
  }

  function Joined(blocks: seq<seq<Line>>): seq<Line> {
    if blocks == [] then [] else blocks[0] + Joined(blocks[1..])
  }

  predicate AllInterim(blocks: seq<seq<Line>>) {
    forall i :: 0 <= i < |blocks| ==> InterimBlock(blocks[i])
  }

  lemma StripOne(block: seq<Line>, rest: seq<Line>)
    requires InterimBlock(block)
    ensures Strip(block + rest) == Strip(rest)
  {
    var all := block + rest;
    FirstBlankFound(block);
    FirstBlankIs(all, |block| - 1);
    hide FirstBlank;
    assert all[|block|..] == rest;
  }

  /** Exactly the leading interim responses are removed, however many there are ... */
  lemma {:induction false} StripsInterimBlocks(blocks: seq<seq<Line>>, rest: seq<Line>)
    requires AllInterim(blocks)
    ensures Strip(Joined(blocks) + rest) == Strip(rest)
    ensures rest != [] && rest[0].Status? && !Interim(rest[0]) ==> Strip(Joined(blocks) + rest) == (Skipped, rest)
    decreases |blocks|
  {
    if blocks == [] {
      assert Joined(blocks) + rest == rest;
    } else {
      assert Joined(blocks) + rest == blocks[0] + (Joined(blocks[1..]) + rest);
      StripOne(blocks[0], Joined(blocks[1..]) + rest);
      StripsInterimBlocks(blocks[1..], rest);
    }
  }

  lemma LeadingBlock(headers: seq<Line>)
    requires headers != [] && Interim(headers[0]) && FirstBlank(headers) < |headers|
    ensures InterimBlock(headers[..FirstBlank(headers) + 1])
    ensures headers == headers[..FirstBlank(headers) + 1] + headers[FirstBlank(headers) + 1..]
  {
    hide FirstBlank;
    FirstBlankFound(headers);
    FirstBlankIs(headers[..FirstBlank(headers) + 1], FirstBlank(headers));
  }

  lemma JoinedMore(block: seq<Line>, blocks: seq<seq<Line>>)
    ensures Joined([block] + blocks) == block + Joined(blocks)
    ensures InterimBlock(block) && AllInterim(blocks) ==> AllInterim([block] + blocks)
  {
    assert ([block] + blocks)[1..] == blocks;
  }

  lemma Reassociate(a: seq<Line>, b: seq<Line>, c: seq<Line>)
    ensures a + (b + c) == (a + b) + c
  {
  }

  /** ... and nothing else: what was removed was a sequence of interim responses, ... */
  lemma {:induction false} OnlyInterimStripped(headers: seq<Line>) returns (blocks: seq<seq<Line>>)
    ensures AllInterim(blocks) && headers == Joined(blocks) + Strip(headers).1
    decreases |headers|
  {
    if headers != [] && Interim(headers[0]) && FirstBlank(headers) < |headers| {
      var block, rest := headers[..FirstBlank(headers) + 1], headers[FirstBlank(headers) + 1..];
      LeadingBlock(headers);
      assert Strip(headers) == Strip(rest);
      hide *;
      var tail := OnlyInterimStripped(rest);
      JoinedMore(block, tail);
      Reassociate(block, Joined(tail), Strip(rest).1);
      blocks := [block] + tail;
    } else {
      blocks := [];
      assert Strip(headers).1 == headers;
      hide *;
      JoinedNothing(headers);
    }
  }

  /** ... and what remains is a final response exactly if the outcome is success. */
  lemma {:induction false} SkippedIffFinal(headers: seq<Line>)
    ensures Strip(headers).0 == Skipped <==>
            Strip(headers).1 != [] && Strip(headers).1[0].Status? && !Interim(Strip(headers).1[0])
    decreases |headers|
  {
    if headers != [] && Interim(headers[0]) && FirstBlank(headers) < |headers| {
      SkippedIffFinal(headers[FirstBlank(headers) + 1..]);
    }
  }

  lemma JoinedNothing(headers: seq<Line>)
    ensures Joined([]) + headers == headers && AllInterim([])
  {
  }

  // ---------- The request loop ----------

  /** The fields of the response body that the loop looks at. */
  datatype Token = Token(access: string, refresh: string)

  /** What httpPost yields: a connection error, or headers and a body. */
  datatype Reply = NoConnection | Response(headers: seq<Line>, body: Token)

  datatype Request = InitialRequest(apiKey: string) | RefreshRequest(refreshToken: string)

  /** History: requests with the API key in force, grants, and denials by status or by an empty token. */
  datatype Entry = Sent(request: Request, apiKey: string) | Granted(token: Token, apiKey: string) | Denied

  datatype Memory = Memory(previousApiKey: string, refreshToken: string)

  /** A new API key invalidates the refresh token. */
  function Usable(m: Memory, apiKey: string): string {
    if apiKey != m.previousApiKey then "" else m.refreshToken
  }

  function RequestFor(m: Memory, apiKey: string): Request {
    if Usable(m, apiKey) == "" then InitialRequest(apiKey) else RefreshRequest(Usable(m, apiKey))
  }

  /** The response is final: the inner loop ends with it. */
  predicate Conclusive(r: Reply) {
    r.Response? && r.headers != [] && Strip(r.headers).0 == Skipped
  }

  predicate Grants(r: Reply)
    requires Conclusive(r)
  {
    OnlyFinal(r.headers);
    200 <= Strip(r.headers).1[0].code <= 299 && r.body.access != ""
  }

  lemma {:induction false} OnlyFinal(headers: seq<Line>)
    requires Strip(headers).0 == Skipped
    ensures Strip(headers).1 != [] && Strip(headers).1[0].Status?
    decreases |headers|
  {
    if Interim(headers[0]) {
      OnlyFinal(headers[FirstBlank(headers) + 1..]);
    }
  }

  /** The stripping leaves an empty list, on which the original's index fails. */
  predicate Aborts(r: Reply) {
    r.Response? && r.headers != [] && Strip(r.headers).0 == OutOfRange
  }

  /** One round of the inner loop: the memory and the history after the reply. */
  function AfterReply(m: Memory, apiKey: string, r: Reply): (Memory, seq<Entry>) {
    if !Conclusive(r) then (m, [])
    else if Grants(r) then (Memory(apiKey, r.body.refresh), [Granted(r.body, apiKey)])
    else (m.(refreshToken := ""), [Denied])
  }

  /** The inner loop; it ends without a conclusive reply when a shutdown is requested. */
  function Rounds(m: Memory, request: Request, apiKey: string, replies: seq<Reply>): (Memory, seq<Entry>)
    decreases |replies|
  {
    if replies == [] then (m, [])
    else if Aborts(replies[0]) then (m, [Sent(request, apiKey)])
    else
      var (m1, log) := AfterReply(m, apiKey, replies[0]);
      if Conclusive(replies[0]) then (m1, [Sent(request, apiKey)] + log)
      else
        var (m2, more) := Rounds(m, request, apiKey, replies[1..]);
        (m2, [Sent(request, apiKey)] + more)
  }

  /** One pass of the outer loop. */
  function Pass(m: Memory, apiKey: string, replies: seq<Reply>): (Memory, seq<Entry>) {
    if apiKey == "" then (m, [])
    else Rounds(m.(refreshToken := Usable(m, apiKey)), RequestFor(m, apiKey), apiKey, replies)
  }

  class IAMAccessTokenGenerator {
    var previousApiKey: string
    var refreshToken: string
    var log: seq<Entry>

    function State(): Memory
      reads this
    {
      Memory(previousApiKey, refreshToken)
    }

    constructor ()
      ensures State() == Memory("", "") && log == []
    {
      previousApiKey, refreshToken, log := "", "", [];
    }

    /** One round of the inner loop after the request was sent. */
    method TakeReply(apiKey: string, reply: Reply) returns (httpOperationSuccess: bool, aborted: bool)
      modifies this
      ensures State() == AfterReply(old(State()), apiKey, reply).0
      ensures log == old(log) + AfterReply(old(State()), apiKey, reply).1
      ensures httpOperationSuccess == Conclusive(reply) && aborted == Aborts(reply)
    {
      httpOperationSuccess, aborted := false, false;
      if reply.NoConnection? || |reply.headers| < 1 {
        return;
      }
      var outcome, headers, statusCode := SkipContinuationHeaders(reply.headers, 0);
      if outcome != Skipped {
        aborted := outcome == OutOfRange;
        return;
      }
      httpOperationSuccess := true;
      if statusCode < 200 || statusCode > 299 {
        refreshToken := "";
        log := log + [Denied];
        return;
      }
      if reply.body.access == "" {
        refreshToken := "";
        log := log + [Denied];
        return;
      }
      refreshToken := reply.body.refresh;
      previousApiKey := apiKey;
      log := log + [Granted(reply.body, apiKey)];
    }

    /** The API key that is read, and the replies until the operation succeeds or the job shuts down. */
    method OuterPass(apiKey: string, replies: seq<Reply>)
      modifies this
      ensures State() == Pass(old(State()), apiKey, replies).0
      ensures log == old(log) + Pass(old(State()), apiKey, replies).1
    {
      if apiKey == "" {
        return;
      }
      if apiKey != previousApiKey && refreshToken != "" {
        refreshToken := "";
      }
      var request := if refreshToken == "" then InitialRequest(apiKey) else RefreshRequest(refreshToken);
      ghost var m, before := State(), log;
      assert m == old(State()).(refreshToken := Usable(old(State()), apiKey)) && request == RequestFor(old(State()), apiKey);
      ghost var all := Rounds(m, request, apiKey, replies);
      var k := 0;
      var httpOperationSuccess, aborted := false, false;
      assert replies[0..] == replies;
      while k < |replies| && !httpOperationSuccess && !aborted
        invariant 0 <= k <= |replies|
        invariant if httpOperationSuccess || aborted then State() == all.0 && log == before + all.1
                  else State() == m && all.0 == Rounds(m, request, apiKey, replies[k..]).0
                       && before + all.1 == log + Rounds(m, request, apiKey, replies[k..]).1
        decreases |replies| - k
      {
        hide Conclusive, Aborts, AfterReply;
        assert replies[k..][0] == replies[k] && replies[k..][1..] == replies[k + 1..];
        Regroup(log, [Sent(request, apiKey)], AfterReply(m, apiKey, replies[k]).1);
        Regroup(log, [Sent(request, apiKey)], Rounds(m, request, apiKey, replies[k + 1..]).1);
        InconclusiveKeeps(m, apiKey, replies[k]);
        log := log + [Sent(request, apiKey)];
        httpOperationSuccess, aborted := TakeReply(apiKey, replies[k]);
        k := k + 1;
      }
    }
  }

  lemma Regroup(a: seq<Entry>, b: seq<Entry>, c: seq<Entry>)
    ensures a + (b + c) == a + b + c
    ensures a + b + [] == a + b
  {
  }

  /** A reply without a final response changes nothing. */
  lemma InconclusiveKeeps(m: Memory, apiKey: string, r: Reply)
    ensures !Conclusive(r) ==> AfterReply(m, apiKey, r) == (m, [])
    ensures Aborts(r) ==> !Conclusive(r)
  {
  }

  // ---------- All runs ----------

  /** The latest grant or denial. */
  function Verdict(log: seq<Entry>): Option<Entry> {
    if log == [] then None
    else if log[|log| - 1].Sent? then Verdict(log[..|log| - 1])
    else Some(log[|log| - 1])
  }

  /** A refresh token is kept only if the latest response granted it, and then with the API key it was granted for. */
  predicate Remembers(m: Memory, log: seq<Entry>) {
    m.refreshToken != "" ==>
      Verdict(log).Some? && Verdict(log).value.Granted?
      && Verdict(log).value.apiKey == m.previousApiKey && Verdict(log).value.token.refresh == m.refreshToken
  }

  /** Request i is justified by what the log said before it was sent. */
  predicate Justified(log: seq<Entry>, i: nat)
    requires i < |log| && log[i].Sent?
  {
    match log[i].request
    case InitialRequest(key) => key == log[i].apiKey && key != ""
    case RefreshRequest(token) =>
      && token != "" && Verdict(log[..i]).Some? && Verdict(log[..i]).value.Granted?
      && Verdict(log[..i]).value.token.refresh == token && Verdict(log[..i]).value.apiKey == log[i].apiKey
  }

  ghost predicate AllJustified(log: seq<Entry>) {
    forall i :: 0 <= i < |log| && log[i].Sent? ==> Justified(log, i)
  }

  /** The outer loop over the whole life of the operator. */
  function Passes(m: Memory, passes: seq<(string, seq<Reply>)>): (Memory, seq<Entry>)
    decreases |passes|
  {
    if passes == [] then (m, [])
    else
      var (m1, log) := Pass(m, passes[0].0, passes[0].1);
      var (m2, more) := Passes(m1, passes[1..]);
      (m2, log + more)
  }

  lemma VerdictOneMore(log: seq<Entry>, e: Entry)
    ensures Verdict(log + [e]) == if e.Sent? then Verdict(log) else Some(e)
  {
    assert (log + [e])[..|log|] == log;
  }

  lemma JustifiedOneMore(log: seq<Entry>, e: Entry)
    requires AllJustified(log)
    requires e.Sent? ==> Justified(log + [e], |log|)
    ensures AllJustified(log + [e])
  {
    var l := log + [e];
    forall i | 0 <= i < |l| && l[i].Sent? ensures Justified(l, i) {
      if i < |log| {
        assert l[..i] == log[..i] && Justified(log, i);
      }
    }
  }

  /** The request of a pass is justified whenever it is sent again. */
  predicate Ready(m: Memory, request: Request, apiKey: string, log: seq<Entry>) {
    && apiKey != "" && Remembers(m, log)
    && match request
       case InitialRequest(key) => key == apiKey
       case RefreshRequest(token) => token != "" && m == Memory(apiKey, token)
  }

  lemma SendJustified(m: Memory, request: Request, apiKey: string, log: seq<Entry>)
    requires AllJustified(log) && Ready(m, request, apiKey, log)
    ensures AllJustified(log + [Sent(request, apiKey)]) && Ready(m, request, apiKey, log + [Sent(request, apiKey)])
  {
    assert (log + [Sent(request, apiKey)])[..|log|] == log;
    VerdictOneMore(log, Sent(request, apiKey));
    JustifiedOneMore(log, Sent(request, apiKey));
  }

  lemma ReplyRemembered(m: Memory, apiKey: string, r: Reply, log: seq<Entry>)
    requires AllJustified(log) && Remembers(m, log)
    ensures var (m', more) := AfterReply(m, apiKey, r); AllJustified(log + more) && Remembers(m', log + more)
  {
    assert Conclusive(r) ==> r.Response?;
    hide Conclusive, Grants, Justified;
    assert log + [] == log;
    VerdictOneMore(log, Denied);
    VerdictOneMore(log, Granted(if r.Response? then r.body else Token("", ""), apiKey));
    JustifiedOneMore(log, Denied);
    JustifiedOneMore(log, Granted(if r.Response? then r.body else Token("", ""), apiKey));
  }

  lemma {:induction false} RoundsJustified(m: Memory, request: Request, apiKey: string, replies: seq<Reply>, log: seq<Entry>)
    requires AllJustified(log) && Ready(m, request, apiKey, log)
    ensures var (m', more) := Rounds(m, request, apiKey, replies); AllJustified(log + more) && Remembers(m', log + more)
    decreases |replies|
  {
    if replies == [] {
      assert log + [] == log;
    } else {
      var sent := [Sent(request, apiKey)];
      SendJustified(m, request, apiKey, log);
      ReplyRemembered(m, apiKey, replies[0], log + sent);
      InconclusiveKeeps(m, apiKey, replies[0]);
      Regroup(log, sent, AfterReply(m, apiKey, replies[0]).1);
      Regroup(log, sent, Rounds(m, request, apiKey, replies[1..]).1);
      hide AllJustified, AfterReply, Conclusive, Aborts;
      RoundsJustified(m, request, apiKey, replies[1..], log + sent);
    }
  }

  lemma {:induction false} PassesJustified(m: Memory, passes: seq<(string, seq<Reply>)>, log: seq<Entry>)
    requires AllJustified(log) && Remembers(m, log)
    ensures var (m', more) := Passes(m, passes); AllJustified(log + more) && Remembers(m', log + more)
    decreases |passes|
  {
    if passes == [] {
      assert log + [] == log;
    } else {
      var (apiKey, replies) := passes[0];
      var (m1, first) := Pass(m, apiKey, replies);
      if apiKey != "" {
        RoundsJustified(m.(refreshToken := Usable(m, apiKey)), RequestFor(m, apiKey), apiKey, replies, log);
      } else {
        assert log + [] == log;
      }
      hide AllJustified, Rounds;
      PassesJustified(m1, passes[1..], log + first);
      Regroup(log, first, Passes(m1, passes[1..]).1);
    }
  }

  /** Over all runs: a refresh request carries only the token of the latest response, which was successful and for the
      same API key; so after a denial, or a grant without a refresh token, or for another key, the next request is an
      initial one. */
  lemma RefreshOnlyLatestGrant(passes: seq<(string, seq<Reply>)>, i: nat)
    requires var log := Passes(Memory("", ""), passes).1; i < |log| && log[i].Sent?
    ensures Justified(Passes(Memory("", ""), passes).1, i)
  {
    var log := Passes(Memory("", ""), passes).1;
    PassesJustified(Memory("", ""), passes, []);
    assert [] + log == log;
  }

  lemma InitialAfterDenial(passes: seq<(string, seq<Reply>)>, i: nat)
    requires var log := Passes(Memory("", ""), passes).1; i < |log| && log[i].Sent? && Verdict(log[..i]) == Some(Denied)
    ensures Passes(Memory("", ""), passes).1[i].request.InitialRequest?
  {
    RefreshOnlyLatestGrant(passes, i);
  }

  // ---------- When a refresh request is sent ----------

  /** The replies contain a final response before anything that aborts the pass. */
  predicate Decided(replies: seq<Reply>) {
    replies != [] && !Aborts(replies[0]) && (Conclusive(replies[0]) || Decided(replies[1..]))
  }

  /** The API keys of the passes since the latest one that brought a grant or a denial. */
  function LaterKeys(passes: seq<(string, seq<Reply>)>): seq<string> {
    if passes == [] then []
    else
      var (apiKey, replies) := passes[|passes| - 1];
      if apiKey == "" then LaterKeys(passes[..|passes| - 1])
      else if Decided(replies) then []
      else LaterKeys(passes[..|passes| - 1]) + [apiKey]
  }

  /** The latest response was a grant for this API key, with a refresh token, and no other key was in force since. */
  predicate StillGranted(log: seq<Entry>, later: seq<string>, apiKey: string) {
    match Verdict(log)
    case Some(Granted(token, key)) => key == apiKey && token.refresh != "" && forall other :: other in later ==> other == key
    case _ => false
  }

  /** The memory is the latest grant, unless another key came after it. */
  predicate Recalls(m: Memory, log: seq<Entry>, later: seq<string>) {
    match Verdict(log)
    case Some(Granted(token, key)) =>
      && m.previousApiKey == key
      && m.refreshToken == if forall other :: other in later ==> other == key then token.refresh else ""
    case _ => m.refreshToken == ""
  }

  lemma RecallsRequest(m: Memory, log: seq<Entry>, later: seq<string>, apiKey: string)
    requires Recalls(m, log, later) && apiKey != ""
    ensures RequestFor(m, apiKey) ==
      if StillGranted(log, later, apiKey) then RefreshRequest(Verdict(log).value.token.refresh) else InitialRequest(apiKey)
  {
    hide Verdict;
  }

  /** What the rounds of a pass log: the same request each time, and at the end the verdict if there is one. */
  lemma {:induction false} RoundsLog(m: Memory, request: Request, apiKey: string, replies: seq<Reply>)
    ensures var (m', log) := Rounds(m, request, apiKey, replies);
      && (forall i :: 0 <= i < |log| && log[i].Sent? ==> log[i] == Sent(request, apiKey))
      && (replies != [] ==> log != [] && log[0].Sent?)
      && (if Decided(replies) then
            && Verdict(log).Some? && log != [] && !log[|log| - 1].Sent?
            && (forall i :: 0 <= i < |log| - 1 ==> log[i].Sent?)
            && match Verdict(log).value
               case Granted(token, key) => key == apiKey && m' == Memory(apiKey, token.refresh)
               case _ => m' == m.(refreshToken := "")
          else m' == m && forall i :: 0 <= i < |log| ==> log[i].Sent?)
    decreases |replies|
  {
    if replies != [] {
      var (m', log) := Rounds(m, request, apiKey, replies);
      RoundsLog(m, request, apiKey, replies[1..]);
      InconclusiveKeeps(m, apiKey, replies[0]);
      hide Conclusive, Aborts, Grants;
      if !Aborts(replies[0]) && !Conclusive(replies[0]) {
        var more := Rounds(m, request, apiKey, replies[1..]).1;
        assert log == [Sent(request, apiKey)] + more;
        VerdictAppend([Sent(request, apiKey)], more);
      } else if Conclusive(replies[0]) {
        assert Verdict(log) == Some(log[1]);
      }
    }
  }

  lemma {:induction false} VerdictAppend(a: seq<Entry>, b: seq<Entry>)
    ensures Verdict(a + b) == if Verdict(b).Some? then Verdict(b) else Verdict(a)
    decreases |b|
  {
    if b == [] {
      assert a + b == a;
    } else {
      assert (a + b)[..|a + b| - 1] == a + b[..|b| - 1] && (a + b)[|a + b| - 1] == b[|b| - 1];
      VerdictAppend(a, b[..|b| - 1]);
    }
  }

  lemma {:induction false} OnlySent(log: seq<Entry>)
    requires forall i :: 0 <= i < |log| ==> log[i].Sent?
    ensures Verdict(log) == None
  {
    if log != [] {
      OnlySent(log[..|log| - 1]);
    }
  }

  lemma LaterOneMore(passes: seq<(string, seq<Reply>)>, apiKey: string, replies: seq<Reply>)
    ensures LaterKeys(passes + [(apiKey, replies)]) ==
      if apiKey == "" then LaterKeys(passes) else if Decided(replies) then [] else LaterKeys(passes) + [apiKey]
  {
    assert (passes + [(apiKey, replies)])[..|passes|] == passes;
    hide Decided;
  }

  lemma OneMoreKey(later: seq<string>, apiKey: string, key: string)
    ensures (forall other :: other in later + [apiKey] ==> other == key) <==>
      (forall other :: other in later ==> other == key) && apiKey == key
  {
    assert apiKey in later + [apiKey];
    assert forall other :: other in later ==> other in later + [apiKey];
  }

  /** One pass keeps the account of the memory. */
  lemma PassRecalls(m: Memory, log: seq<Entry>, later: seq<string>, apiKey: string, replies: seq<Reply>)
    requires Recalls(m, log, later)
    ensures var (m', more) := Pass(m, apiKey, replies);
      Recalls(m', log + more, if apiKey == "" then later else if Decided(replies) then [] else later + [apiKey])
  {
    if apiKey == "" {
      assert log + [] == log;
    } else {
      var m0, request := m.(refreshToken := Usable(m, apiKey)), RequestFor(m, apiKey);
      var (m', more) := Rounds(m0, request, apiKey, replies);
      RoundsLog(m0, request, apiKey, replies);
      VerdictAppend(log, more);
      if !Decided(replies) {
        OnlySent(more);
        hide Rounds, Decided, Verdict;
        OneMoreKey(later, apiKey, m.previousApiKey);
      } else {
        hide Rounds, Decided, Verdict;
      }
    }
  }

  lemma {:induction false} PassesAppend(m: Memory, passes: seq<(string, seq<Reply>)>, p: (string, seq<Reply>))
    ensures var (m1, before) := Passes(m, passes); var (m2, more) := Pass(m1, p.0, p.1);
      Passes(m, passes + [p]) == (m2, before + more)
    decreases |passes|
  {
    hide Pass;
    if passes == [] {
      assert passes + [p] == [p] && [p][1..] == [];
      assert Passes(Pass(m, p.0, p.1).0, []) == (Pass(m, p.0, p.1).0, []);
      assert Pass(m, p.0, p.1).1 + [] == Pass(m, p.0, p.1).1 && [] + Pass(m, p.0, p.1).1 == Pass(m, p.0, p.1).1;
    } else {
      assert (passes + [p])[0] == passes[0] && (passes + [p])[1..] == passes[1..] + [p];
      var (m1, first) := Pass(m, passes[0].0, passes[0].1);
      PassesAppend(m1, passes[1..], p);
      var (m2, middle) := Passes(m1, passes[1..]);
      Regroup(first, middle, Pass(m2, p.0, p.1).1);
    }
  }

  lemma {:induction false} PassesRecall(passes: seq<(string, seq<Reply>)>)
    ensures Recalls(Passes(Memory("", ""), passes).0, Passes(Memory("", ""), passes).1, LaterKeys(passes))
    decreases |passes|
  {
    if passes != [] {
      var front := passes[..|passes| - 1];
      var (apiKey, replies) := passes[|passes| - 1];
      assert passes == front + [(apiKey, replies)];
      hide Recalls, Pass, Passes, LaterKeys, Decided;
      PassesRecall(front);
      PassesAppend(Memory("", ""), front, (apiKey, replies));
      LaterOneMore(front, apiKey, replies);
      var (m, log) := Passes(Memory("", ""), front);
      PassRecalls(m, log, LaterKeys(front), apiKey, replies);
    }
  }

  /** Over all runs, whichever pass comes next: it sends a request as soon as it has a key and a reply is awaited, and its
      requests are refresh requests with the granted token if and only if the latest response was a grant for its key,
      with a refresh token, and no pass since then had another key; otherwise they are initial requests. */
  lemma RefreshIffStillGranted(passes: seq<(string, seq<Reply>)>, apiKey: string, replies: seq<Reply>)
    ensures var before := Passes(Memory("", ""), passes).1;
      var log := Passes(Memory("", ""), passes + [(apiKey, replies)]).1;
      && before <= log
      && (log != before ==> apiKey != "")
      && (apiKey != "" && replies != [] ==> |log| > |before| && log[|before|].Sent?)
      && forall i :: |before| <= i < |log| && log[i].Sent? ==>
           log[i].request == if StillGranted(before, LaterKeys(passes), apiKey)
                             then RefreshRequest(Verdict(before).value.token.refresh) else InitialRequest(apiKey)
  {
    hide Passes, Recalls, StillGranted, LaterKeys, Rounds, RequestFor, Decided, Verdict;
    PassesRecall(passes);
    PassesAppend(Memory("", ""), passes, (apiKey, replies));
    var (m, before) := Passes(Memory("", ""), passes);
    if apiKey != "" {
      RecallsRequest(m, before, LaterKeys(passes), apiKey);
      RoundsLog(m.(refreshToken := Usable(m, apiKey)), RequestFor(m, apiKey), apiKey, replies);
    }
  }

  // ---------- The status codes ----------

  /** A response whose first status line is final is a grant exactly for a code from 200 to 299 with an access token. */
  lemma FinalStatusDecides(m: Memory, apiKey: string, code: nat, fields: seq<Line>, body: Token)
    requires code < 100 || code > 199
    ensures AfterReply(m, apiKey, Response([Status(code)] + fields, body)) ==
      if 200 <= code <= 299 && body.access != "" then (Memory(apiKey, body.refresh), [Granted(body, apiKey)])
      else (Memory(m.previousApiKey, ""), [Denied])
  {
    assert ([Status(code)] + fields)[0] == Status(code);
  }

  /** A response with a code from 100 to 199 is passed over up to its bare line end, whatever follows it. */
  lemma InterimStatusPasses(code: nat, fields: seq<Line>, rest: seq<Line>)
    requires 100 <= code <= 199 && Blank !in fields
    ensures Strip([Status(code)] + fields + [Blank] + rest) == Strip(rest)
  {
    var block := [Status(code)] + fields + [Blank];
    FirstBlankIs(block, |fields| + 1);
    StripOne(block, rest);
    hide FirstBlank;
    assert [Status(code)] + fields + [Blank] + rest == block + rest;
  }
}
