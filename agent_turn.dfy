/** One agent turn: ask the model, parse its answer, record the assistant
    message, run the requested tools in order (or park those that need
    approval) and record one tool message per run. The tool registry, the
    approval test and the JSON codec are supplied by the caller. */
module AgentTurn {
  import opened Wrappers
  import opened Values
  import opened Text
  import opened Protocol
  import opened Client
  import opened ToolBase

  /** `ThoughtResult`. */
  datatype Thought = Thought(subject: string, description: string)

  /** `ToolCallRequest`. */
  datatype ToolCallRequest = ToolCallRequest(callId: string, name: string, args: Value)

  /** `ToolCallResponse`; `result` and `error` are None when not set. */
  datatype ToolCallResponse = ToolCallResponse(
    callId: string,
    success: bool,
    result: Option<string>,
    error: Option<string>,
    toolResult: Option<ToolResult>)

  /** `AgentTurnResult`; the creation time is not modelled. */
  datatype AgentTurnResult = AgentTurnResult(
    textContent: string,
    thoughts: seq<Thought>,
    toolCalls: seq<ToolCallRequest>,
    toolResponses: seq<ToolCallResponse>,
    durationMs: Option<int>,
    tokenUsage: Option<TokenUsage>,
    finishReason: string)

  /** `has_tool_calls`. */
  predicate HasToolCalls(r: AgentTurnResult) {
    |r.toolCalls| > 0
  }

  /** `any(resp.success for resp in responses)`. */
  predicate AnySuccess(rs: seq<ToolCallResponse>) {
    rs != [] && (rs[0].success || AnySuccess(rs[1..]))
  }

  /** `has_successful_tool_calls`. */
  predicate HasSuccessfulToolCalls(r: AgentTurnResult) {
    AnySuccess(r.toolResponses)
  }

  /** A turn has a successful call exactly when some response succeeded. */
  lemma {:induction false} AnySuccessIff(rs: seq<ToolCallResponse>)
    ensures AnySuccess(rs) <==> exists i :: 0 <= i < |rs| && rs[i].success
  {
    if rs != [] {
      AnySuccessIff(rs[1..]);
      if AnySuccess(rs[1..]) {
        var i :| 0 <= i < |rs| - 1 && rs[1..][i].success;
        assert rs[i + 1].success;
      }
      if !rs[0].success && exists i :: 0 <= i < |rs| && rs[i].success {
        var i :| 0 <= i < |rs| && rs[i].success;
        assert rs[1..][i - 1].success;
      }
    }
  }

  /** The parts of `get_summary`, one per present field. */
  function SummaryParts(r: AgentTurnResult): seq<string> {
    (if r.textContent != "" then ["文本响应: " + NatToString(|r.textContent|) + " 字符"] else [])
    + (if r.thoughts != [] then ["推理内容: " + NatToString(|r.thoughts|) + " 条"] else [])
    + (if r.toolCalls != [] then ["工具调用: " + NatToString(|r.toolCalls|) + " 个"] else [])
    + (if r.tokenUsage.Some? then ["Token: " + IntToString(r.tokenUsage.value.totalTokens)] else [])
  }

  /** `get_summary`. */
  function GetSummary(r: AgentTurnResult): string {
    var parts := SummaryParts(r);
    if parts == [] then "空响应" else Join(parts, ", ")
  }

  /** The summary is "空响应" exactly when text, thoughts, calls and usage
      are all absent. */
  lemma GetSummaryEmpty(r: AgentTurnResult)
    ensures GetSummary(r) == "空响应" <==>
      r.textContent == "" && r.thoughts == [] && r.toolCalls == [] && r.tokenUsage == None
  {
    var parts := SummaryParts(r);
    if parts != [] {
      assert parts[0][0] in {'文', '推', '工', 'T'};
      JoinHead(parts, ", ");
      assert GetSummary(r)[0] != '空';
    }
  }

  /** A join of parts whose first part is non-empty starts with that
      part's first character. */
  lemma JoinHead(parts: seq<string>, sep: string)
    requires parts != [] && parts[0] != ""
    ensures Join(parts, sep) != "" && Join(parts, sep)[0] == parts[0][0]
  {
  }

  /** `from_openai_tool_call`'s argument decoding: an empty argument text
      is the empty dict. */
  function ParseArgs(arguments: string, codec: Codec): Result<Value> {
    if arguments == "" then Ok(Dict(map[])) else codec.loads(arguments)
  }

  /** The requests parsed from the answer's tool calls: those whose
      arguments decode, in order. */
  function ParseCalls(calls: seq<ToolCall>, codec: Codec): (r: seq<ToolCallRequest>)
    ensures |r| <= |calls|
  {
    if calls == [] then []
    else
      var c := calls[0];
      var args := ParseArgs(c.arguments, codec);
      (if args.Ok? then [ToolCallRequest(c.id, c.name, args.value)] else []) + ParseCalls(calls[1..], codec)
  }

  /** Parsing distributes over concatenation: the order of the calls is
      kept and each is decoded on its own. */
  lemma {:induction false} ParseCallsAppend(a: seq<ToolCall>, b: seq<ToolCall>, codec: Codec)
    ensures ParseCalls(a + b, codec) == ParseCalls(a, codec) + ParseCalls(b, codec)
  {
    if a == [] {
      assert a + b == b;
    } else {
      assert (a + b)[0] == a[0] && (a + b)[1..] == a[1..] + b;
      ParseCallsAppend(a[1..], b, codec);
    }
  }

  /** A call whose arguments do not decode is dropped; one whose arguments
      decode becomes one request with its id, name and arguments. */
  lemma ParseCallsSingle(c: ToolCall, codec: Codec)
    ensures var args := ParseArgs(c.arguments, codec);
      ParseCalls([c], codec) == if args.Ok? then [ToolCallRequest(c.id, c.name, args.value)] else []
  {
    assert [c][1..] == [];
  }

  /** When every call's arguments decode, every call becomes a request, in
      order. */
  lemma {:induction false} ParseCallsAllOk(calls: seq<ToolCall>, codec: Codec)
    requires forall i :: 0 <= i < |calls| ==> ParseArgs(calls[i].arguments, codec).Ok?
    ensures |ParseCalls(calls, codec)| == |calls|
    ensures forall i :: 0 <= i < |calls| ==>
      ParseCalls(calls, codec)[i].callId == calls[i].id && ParseCalls(calls, codec)[i].name == calls[i].name
  {
    if calls != [] {
      ParseCallsAllOk(calls[1..], codec);
      var rest := ParseCalls(calls[1..], codec);
      assert forall i :: 1 <= i < |calls| ==> ParseCalls(calls, codec)[i] == rest[i - 1];
    }
  }

  /** `_parse_llm_response`. `reasoning` is the answer's reasoning content
      when it carries one (a `ChatResponse` never does). */
  function ParseLlmResponse(response: ChatResponse, reasoning: Option<string>, codec: Codec): (r: AgentTurnResult)
    ensures r.textContent == response.content && r.toolResponses == [] && r.durationMs == None
    ensures |r.thoughts| == (if reasoning.Some? && reasoning.value != "" then 1 else 0)
    ensures r.toolCalls == ParseCalls(response.toolCalls, codec)
    ensures r.tokenUsage == Some(response.tokenUsage) && r.finishReason == response.finishReason
  {
    var thoughts := if reasoning.Some? && reasoning.value != "" then [Thought("推理", reasoning.value)] else [];
    AgentTurnResult(response.content, thoughts, ParseCalls(response.toolCalls, codec), [], None,
                    Some(response.tokenUsage), response.finishReason)
  }

  /** The text of a response: the result when it succeeded, the error
      otherwise, as `str` prints it. */
  function ResultText(r: ToolCallResponse): string {
    if r.success then r.result.GetOr("None") else r.error.GetOr("None")
  }

  /** `_execute_tool_call` given what the registry returned for the call
      (None when the tool is unknown, disabled or failed). */
  function ExecuteToolCall(call: ToolCallRequest, outcome: Option<ToolResult>): (r: ToolCallResponse)
    ensures r.callId == call.callId
    ensures r.success <==> outcome.Some?
    ensures r.success ==> ResultText(r) == outcome.value.output
    ensures !r.success ==> ResultText(r) == "工具 " + call.name + " 执行失败或返回空结果"
  {
    if outcome.Some? then ToolCallResponse(call.callId, true, Some(outcome.value.output), None, outcome)
    else ToolCallResponse(call.callId, false, None, Some("工具 " + call.name + " 执行失败或返回空结果"), None)
  }

  /** An entry of `approval_pending`. */
  datatype PendingCall = PendingCall(submissionId: string, toolName: string, arguments: Value, callId: string)

  /** What a turn needs from around it: the session id, the submission
      being served, the approval test and the tool registry's
      `execute_tool`. */
  datatype TurnEnv = TurnEnv(
    sessionId: string,
    submissionId: string,
    needsApproval: (string, Value) -> bool,
    execute: (string, Value, ToolContext) -> Option<ToolResult>)

  /** The source's `_needs_approval`: no call needs approval. */
  function NoApproval(name: string, args: Value): bool {
    false
  }

  /** The context a tool runs in. */
  function CallContext(sessionId: string, messageId: string, callId: string): ToolContext {
    ToolContext(sessionId, messageId, "AgentTurn", Some(callId), None)
  }

  /** What the call loop has produced so far: the history, the responses
      and the pending table. */
  datatype CallsState = CallsState(history: seq<Message>, responses: seq<ToolCallResponse>, pending: map<string, PendingCall>)

  /** One iteration of `_handle_tool_calls`. */
  function CallStep(s: CallsState, call: ToolCallRequest, env: TurnEnv): CallsState {
    if env.needsApproval(call.name, call.args) then
      s.(pending := s.pending[call.callId := PendingCall(env.submissionId, call.name, call.args, call.callId)])
    else
      var resp := ExecuteToolCall(call, env.execute(call.name, call.args, CallContext(env.sessionId, env.submissionId, call.callId)));
      s.(history := s.history + [ToolMessage(call.callId, ResultText(resp))], responses := s.responses + [resp])
  }

  /** The state after the first `n` calls. */
  function HandledUpTo(s: CallsState, calls: seq<ToolCallRequest>, n: nat, env: TurnEnv): CallsState
    requires n <= |calls|
  {
    if n == 0 then s else CallStep(HandledUpTo(s, calls, n - 1, env), calls[n - 1], env)
  }

  /** The tool messages recording a list of responses, in order. */
  function MessagesFor(rs: seq<ToolCallResponse>): (ms: seq<Message>)
    ensures |ms| == |rs|
    ensures forall i :: 0 <= i < |rs| ==> ms[i] == ToolMessage(rs[i].callId, ResultText(rs[i]))
  {
    seq(|rs|, i requires 0 <= i < |rs| => ToolMessage(rs[i].callId, ResultText(rs[i])))
  }

  /** The call loop only appends: one tool message per response, with the
      response's call id and text, in the same order. */
  lemma {:induction false} HandledAppends(s: CallsState, calls: seq<ToolCallRequest>, n: nat, env: TurnEnv)
    requires n <= |calls| && s.responses == []
    ensures HandledUpTo(s, calls, n, env).history == s.history + MessagesFor(HandledUpTo(s, calls, n, env).responses)
  {
    if n > 0 {
      HandledAppends(s, calls, n - 1, env);
      AppendsStep(s.history, HandledUpTo(s, calls, n - 1, env), calls[n - 1], env);
    }
  }

  /** One call keeps the history equal to the old history and one tool
      message per response. */
  lemma AppendsStep(history: seq<Message>, t: CallsState, call: ToolCallRequest, env: TurnEnv)
    requires t.history == history + MessagesFor(t.responses)
    ensures CallStep(t, call, env).history == history + MessagesFor(CallStep(t, call, env).responses)
  {
    if !env.needsApproval(call.name, call.args) {
      var resp := ExecuteToolCall(call, env.execute(call.name, call.args, CallContext(env.sessionId, env.submissionId, call.callId)));
      MessagesForSnoc(t.responses, resp);
    }
  }

  lemma MessagesForSnoc(rs: seq<ToolCallResponse>, r: ToolCallResponse)
    ensures MessagesFor(rs + [r]) == MessagesFor(rs) + [ToolMessage(r.callId, ResultText(r))]
  {
    assert forall i :: 0 <= i < |rs| ==> (rs + [r])[i] == rs[i];
  }

  /** Exactly the calls that need approval are parked, each under its call
      id. */
  lemma {:induction false} HandledPending(s: CallsState, calls: seq<ToolCallRequest>, n: nat, env: TurnEnv)
    requires n <= |calls|
    ensures HandledUpTo(s, calls, n, env).pending.Keys ==
      s.pending.Keys + set i | 0 <= i < n && env.needsApproval(calls[i].name, calls[i].args) :: calls[i].callId
  {
    if n > 0 {
      HandledPending(s, calls, n - 1, env);
    }
  }

  /** The responses answer the first `n` calls one to one, in order. */
  predicate SameIds(rs: seq<ToolCallResponse>, calls: seq<ToolCallRequest>, n: nat) {
    n <= |calls| && |rs| == n && forall i :: 0 <= i < n ==> rs[i].callId == calls[i].callId
  }

  /** Running the next call, which needs no approval, adds one response
      answering it. */
  lemma RunStep(s: CallsState, calls: seq<ToolCallRequest>, n: nat, env: TurnEnv)
    requires 0 < n <= |calls| && !env.needsApproval(calls[n - 1].name, calls[n - 1].args)
    requires SameIds(HandledUpTo(s, calls, n - 1, env).responses, calls, n - 1)
    ensures SameIds(HandledUpTo(s, calls, n, env).responses, calls, n)
  {
    var call := calls[n - 1];
    var resp := ExecuteToolCall(call, env.execute(call.name, call.args, CallContext(env.sessionId, env.submissionId, call.callId)));
    assert HandledUpTo(s, calls, n, env).responses == HandledUpTo(s, calls, n - 1, env).responses + [resp];
  }

  /** None of the first `n` calls needs approval. */
  predicate NoneNeedApproval(calls: seq<ToolCallRequest>, n: nat, env: TurnEnv)
    requires n <= |calls|
  {
    n == 0 || (!env.needsApproval(calls[n - 1].name, calls[n - 1].args) && NoneNeedApproval(calls, n - 1, env))
  }

  /** With no call needing approval, each call yields one response, in call
      order. */
  lemma {:induction false} HandledAllRun(s: CallsState, calls: seq<ToolCallRequest>, n: nat, env: TurnEnv)
    requires n <= |calls| && s.responses == []
    requires NoneNeedApproval(calls, n, env)
    ensures SameIds(HandledUpTo(s, calls, n, env).responses, calls, n)
  {
    if n > 0 {
      HandledAllRun(s, calls, n - 1, env);
      RunStep(s, calls, n, env);
    }
  }

  /** The assistant message of a turn: its text, and the parsed calls with
      their arguments encoded again, when there are any. */
  function AssistantMessage(r: AgentTurnResult, codec: Codec): Message {
    var calls := seq(|r.toolCalls|, i requires 0 <= i < |r.toolCalls| =>
                   ToolCall(r.toolCalls[i].callId, "function", r.toolCalls[i].name, codec.dumps(r.toolCalls[i].args)));
    Message("assistant", r.textContent, if calls != [] then Some(calls) else None, None)
  }

  /** The history a successful turn starts its tool calls from: the old
      history, then the assistant message when the turn has text or calls. */
  function WithAssistant(history: seq<Message>, r: AgentTurnResult, codec: Codec): seq<Message> {
    if r.textContent != "" || HasToolCalls(r) then history + [AssistantMessage(r, codec)] else history
  }

  /** The assistant message of a turn comes right after the old history and
      before every tool message of the turn. */
  lemma AssistantFirst(history: seq<Message>, r: AgentTurnResult, codec: Codec, env: TurnEnv)
    requires r.textContent != "" || HasToolCalls(r)
    ensures var t := HandledUpTo(CallsState(WithAssistant(history, r, codec), [], map[]), r.toolCalls, |r.toolCalls|, env);
      |t.history| > |history| && t.history[|history|] == AssistantMessage(r, codec)
      && forall k :: |history| < k < |t.history| ==> t.history[k].role == "tool"
  {
    var s := CallsState(WithAssistant(history, r, codec), [], map[]);
    HandledAppends(s, r.toolCalls, |r.toolCalls|, env);
  }

  /** The prefix of the text of a failed turn. */
  const TurnFailedPrefix := "执行出错: "

  /** `AgentTurn`: a model client, a session id, and the calls waiting for
      approval. */
  class AgentTurn {
    const client: ModelClient
    const sessionId: string
    var approvalPending: map<string, PendingCall>

    constructor (client: ModelClient, sessionId: string)
      ensures this.client == client && this.sessionId == sessionId && approvalPending == map[]
    {
      this.client := client;
      this.sessionId := sessionId;
      approvalPending := map[];
    }

    /** `execute_turn`: `complete` is the chat-completion service and
        `durationMs` the time the turn took. A failed request gives a result
        that carries only the error text and leaves the history alone;
        otherwise the assistant message and the tool messages are appended
        and the calls needing approval are parked. */
    method ExecuteTurn(submissionId: string, complete: seq<Value> -> Result<ChatResponse>, codec: Codec,
                       needsApproval: (string, Value) -> bool,
                       execute: (string, Value, ToolContext) -> Option<ToolResult>, durationMs: int)
      returns (result: AgentTurnResult)
      modifies this, client
      ensures var answer := complete(BuildRequest(old(client.history)));
        answer.Err? ==>
          result == AgentTurnResult(TurnFailedPrefix + RequestFailedPrefix + answer.error, [], [], [], Some(durationMs), None, "")
          && client.history == old(client.history) && approvalPending == old(approvalPending)
      ensures var answer := complete(BuildRequest(old(client.history)));
        answer.Ok? ==>
          var parsed := ParseLlmResponse(answer.value, None, codec);
          var env := TurnEnv(sessionId, submissionId, needsApproval, execute);
          var t := HandledUpTo(CallsState(WithAssistant(old(client.history), parsed, codec), [], old(approvalPending)),
                               parsed.toolCalls, |parsed.toolCalls|, env);
          client.history == t.history && approvalPending == t.pending
          && result == parsed.(toolResponses := t.responses, durationMs := Some(durationMs))
    {
      var chat := client.ChatCompletion(false, complete, (request: seq<Value>) => Err("no stream"));
      if chat.Err? {
        return AgentTurnResult(TurnFailedPrefix + chat.error, [], [], [], Some(durationMs), None, "");
      }
      result := ParseLlmResponse(chat.value, None, codec);
      if result.textContent != "" || HasToolCalls(result) {
        var message := AssistantMessage(result, codec);
        client.AddAssistantMessage(message.content, message.toolCalls);
      }
      var env := TurnEnv(sessionId, submissionId, needsApproval, execute);
      var responses := HandleToolCalls(result.toolCalls, env);
      result := result.(toolResponses := responses, durationMs := Some(durationMs));
    }

    /** `_handle_tool_calls`: each call in order is parked when it needs
        approval, and otherwise run, answered and recorded. */
    method HandleToolCalls(calls: seq<ToolCallRequest>, env: TurnEnv) returns (responses: seq<ToolCallResponse>)
      requires env.sessionId == sessionId
      modifies this, client
      ensures var t := HandledUpTo(CallsState(old(client.history), [], old(approvalPending)), calls, |calls|, env);
        client.history == t.history && approvalPending == t.pending && responses == t.responses
    {
      ghost var s0 := CallsState(client.history, [], approvalPending);
      responses := [];
      var i := 0;
      while i < |calls|
        invariant 0 <= i <= |calls|
        invariant HandledUpTo(s0, calls, i, env) == CallsState(client.history, responses, approvalPending)
      {
        var call := calls[i];
        if env.needsApproval(call.name, call.args) {
          RequestApproval(env.submissionId, call);
        } else {
          var response := ExecuteToolCall(call, env.execute(call.name, call.args, CallContext(sessionId, env.submissionId, call.callId)));
          responses := responses + [response];
          client.AddToolMessage(call.callId, ResultText(response));
        }
        i := i + 1;
      }
    }

    /** `_request_approval`: parks the call under its id. */
    method RequestApproval(submissionId: string, call: ToolCallRequest)
      modifies this
      ensures approvalPending == old(approvalPending)[call.callId := PendingCall(submissionId, call.name, call.args, call.callId)]
    {
      approvalPending := approvalPending[call.callId := PendingCall(submissionId, call.name, call.args, call.callId)];
    }

    /** `handle_approval_response`: an id that is not pending is answered
        False and changes nothing. A pending call is run when approved and
        refused otherwise; either way exactly one tool message is appended
        and the entry is removed. `execute` is the tool registry. */
    method HandleApprovalResponse(callId: string, approved: bool,
                                  execute: (string, Value, ToolContext) -> Option<ToolResult>)
      returns (r: bool)
      modifies this, client
      ensures r <==> callId in old(approvalPending)
      ensures !r ==> approvalPending == old(approvalPending) && client.history == old(client.history)
      ensures r ==> (approvalPending == old(approvalPending) - {callId}
        && client.history == old(client.history) + [ToolMessage(callId, ApprovalText(old(approvalPending)[callId], callId, approved, sessionId, execute))])
    {
      if callId !in approvalPending {
        return false;
      }
      var pending := approvalPending[callId];
      if approved {
        var call := ToolCallRequest(callId, pending.toolName, pending.arguments);
        var response := ExecuteToolCall(call, execute(call.name, call.args, CallContext(sessionId, pending.submissionId, callId)));
        client.AddToolMessage(callId, ResultText(response));
      } else {
        client.AddToolMessage(callId, "用户拒绝执行工具调用: " + pending.toolName);
      }
      approvalPending := approvalPending - {callId};
      return true;
    }
  }

  /** The tool message text of an answered approval: the tool's result text
      when approved, the refusal naming the tool otherwise. */
  function ApprovalText(p: PendingCall, callId: string, approved: bool, sessionId: string,
                        execute: (string, Value, ToolContext) -> Option<ToolResult>): (t: string)
    ensures !approved ==> t == "用户拒绝执行工具调用: " + p.toolName
    ensures approved && execute(p.toolName, p.arguments, CallContext(sessionId, p.submissionId, callId)).None? ==>
      t == "工具 " + p.toolName + " 执行失败或返回空结果"
    ensures approved && execute(p.toolName, p.arguments, CallContext(sessionId, p.submissionId, callId)).Some? ==>
      t == execute(p.toolName, p.arguments, CallContext(sessionId, p.submissionId, callId)).value.output
  {
    if approved then
      var call := ToolCallRequest(callId, p.toolName, p.arguments);
      ResultText(ExecuteToolCall(call, execute(call.name, call.args, CallContext(sessionId, p.submissionId, callId))))
    else "用户拒绝执行工具调用: " + p.toolName
  }
}
