/** The agent-side turn: offer the enabled tools to the model, parse its
    reply, run the requested tool calls when a context is given, and render
    the outcome as conversation text. The model call and the tool runs are
    supplied by the caller. */
module Turn {
  import opened Wrappers
  import opened Values
  import opened Text
  import opened ToolBase
  import Registry

  /** `ThoughtResult`. */
  datatype ThoughtResult = ThoughtResult(subject: string, description: string)

  /** `ToolCallRequest`; `args` is what `json.loads` gave. */
  datatype ToolCallRequest = ToolCallRequest(callId: string, name: string, args: Value)

  /** `ToolCallResponse`; `result` and `error` are None when not set. */
  datatype ToolCallResponse = ToolCallResponse(callId: string, success: bool, result: Option<string>,
                                               error: Option<string>, toolResult: Option<ToolResult>)

  /** `TurnResult`; the creation time is not modelled. */
  datatype TurnResult = TurnResult(textContent: string, thoughts: seq<ThoughtResult>,
                                   toolCalls: seq<ToolCallRequest>, toolResponses: seq<ToolCallResponse>,
                                   durationMs: Option<int>)

  /** `has_tool_calls`. */
  predicate HasToolCalls(r: TurnResult) {
    |r.toolCalls| > 0
  }

  /** `has_successful_tool_calls`. */
  predicate HasSuccessfulToolCalls(r: TurnResult) {
    exists i :: 0 <= i < |r.toolResponses| && r.toolResponses[i].success
  }

  /** An f-string's rendering of an optional text: Python prints None as
      "None". */
  function Shown(o: Option<string>): string {
    if o.Some? then o.value else "None"
  }

  /** The line `get_tool_results_text` writes for one response. */
  function ResultLine(resp: ToolCallResponse): (line: string)
    ensures resp.success ==> StartsWith(line, "工具执行成功: ")
    ensures !resp.success ==> StartsWith(line, "工具执行失败: ")
  {
    var (tag, body) := if resp.success then ("工具执行成功: ", Shown(resp.result)) else ("工具执行失败: ", Shown(resp.error));
    assert (tag + body)[..|tag|] == tag;
    tag + body
  }

  /** The lines of `get_tool_results_text`, one per response in order. */
  function ResultLines(rs: seq<ToolCallResponse>): (lines: seq<string>)
    ensures |lines| == |rs| && forall i :: 0 <= i < |rs| ==> lines[i] == ResultLine(rs[i])
  {
    seq(|rs|, i requires 0 <= i < |rs| => ResultLine(rs[i]))
  }

  /** `get_tool_results_text`: the loop collecting one line per response. */
  method GetToolResultsText(r: TurnResult) returns (text: string)
    ensures r.toolResponses == [] ==> text == ""
    ensures r.toolResponses != [] ==> text == Join(ResultLines(r.toolResponses), "\n")
  {
    if r.toolResponses == [] {
      return "";
    }
    var results: seq<string> := [];
    for i := 0 to |r.toolResponses|
      invariant results == ResultLines(r.toolResponses[..i])
    {
      results := results + [ResultLine(r.toolResponses[i])];
    }
    assert r.toolResponses[..|r.toolResponses|] == r.toolResponses;
    text := Join(results, "\n");
  }

  /** With responses, the text opens with the first response's line, so it
      is never empty; it tells success from failure by its prefix. */
  lemma ResultsTextHead(rs: seq<ToolCallResponse>)
    requires rs != []
    ensures StartsWith(Join(ResultLines(rs), "\n"), ResultLine(rs[0]))
    ensures Join(ResultLines(rs), "\n") != ""
  {
    JoinStartsWith(ResultLines(rs), "\n");
    assert |ResultLine(rs[0])| > 0;
  }

  /** What the registry's `execute_tool` gave for a call: a result, None, or
      an exception carrying its message. */
  type CallOutcome = Result<Option<ToolResult>>

  /** `execute_tool_call`. */
  function ExecuteToolCall(call: ToolCallRequest, outcome: CallOutcome): (r: ToolCallResponse)
    ensures r.callId == call.callId
    ensures r.success <==> outcome.Ok? && outcome.value.Some?
    ensures r.success ==> r.result == Some(outcome.value.value.output) && r.toolResult == outcome.value
    ensures !r.success ==> r.error.Some? && r.result.None?
    ensures outcome == Ok(None) ==> r.error == Some("工具 " + call.name + " 执行失败或返回空结果")
    ensures outcome.Err? ==> r.error == Some(outcome.error)
  {
    match outcome
    case Ok(Some(tr)) => ToolCallResponse(call.callId, true, Some(tr.output), None, Some(tr))
    case Ok(None) => ToolCallResponse(call.callId, false, None, Some("工具 " + call.name + " 执行失败或返回空结果"), None)
    case Err(e) => ToolCallResponse(call.callId, false, None, Some(e), None)
  }

  /** `execute_tool_calls`: every call is run, in order, and a failure does
      not stop the later ones. */
  method ExecuteToolCalls(calls: seq<ToolCallRequest>, run: ToolCallRequest -> CallOutcome)
    returns (responses: seq<ToolCallResponse>)
    ensures |responses| == |calls|
    ensures forall i :: 0 <= i < |calls| ==> responses[i] == ExecuteToolCall(calls[i], run(calls[i]))
  {
    responses := [];
    for i := 0 to |calls|
      invariant |responses| == i
      invariant forall j :: 0 <= j < i ==> responses[j] == ExecuteToolCall(calls[j], run(calls[j]))
    {
      var response := ExecuteToolCall(calls[i], run(calls[i]));
      responses := responses + [response];
    }
  }

  /** One tool call of the model's reply, with its arguments still text. */
  datatype RawCall = RawCall(id: string, name: string, arguments: string)

  /** The first choice's message: its content, its reasoning content, and
      its tool calls. */
  datatype LlmMessage = LlmMessage(content: Option<string>, reasoning: Option<string>, toolCalls: seq<RawCall>)

  datatype LlmResponse = LlmResponse(choices: seq<LlmMessage>)

  /** `ToolCallRequest.from_openai_tool_call`: empty arguments are `{}`,
      anything else goes through `json.loads`, whose error is raised. */
  function FromOpenAiToolCall(c: RawCall, codec: Codec): (r: Result<ToolCallRequest>)
    ensures r.Ok? ==> r.value.callId == c.id && r.value.name == c.name
    ensures c.arguments == "" ==> r == Ok(ToolCallRequest(c.id, c.name, Dict(map[])))
  {
    if c.arguments == "" then Ok(ToolCallRequest(c.id, c.name, Dict(map[])))
    else
      match codec.loads(c.arguments)
      case Ok(v) => Ok(ToolCallRequest(c.id, c.name, v))
      case Err(e) => Err(e)
  }

  /** The calls kept by the parsing loop: those that convert, in order. */
  function ParsedCalls(calls: seq<RawCall>, codec: Codec): (r: seq<ToolCallRequest>)
    ensures |r| <= |calls|
  {
    if calls == [] then []
    else
      var last := calls[|calls| - 1];
      ParsedCalls(calls[..|calls| - 1], codec)
        + (match FromOpenAiToolCall(last, codec) case Ok(t) => [t] case Err(_) => [])
  }

  /** Parsing distributes over concatenation: calls are kept or dropped
      one by one, in order. */
  lemma {:induction false} ParsedCallsAppend(a: seq<RawCall>, b: seq<RawCall>, codec: Codec)
    ensures ParsedCalls(a + b, codec) == ParsedCalls(a, codec) + ParsedCalls(b, codec)
    decreases |b|
  {
    if b == [] {
      assert a + b == a;
    } else {
      var n := |b| - 1;
      assert (a + b)[..|a + b| - 1] == a + b[..n];
      ParsedCallsAppend(a, b[..n], codec);
    }
  }

  /** A single call is kept exactly when its arguments convert. */
  lemma ParsedCallsSingle(c: RawCall, codec: Codec)
    ensures ParsedCalls([c], codec) == match FromOpenAiToolCall(c, codec) case Ok(t) => [t] case Err(_) => []
  {
    assert [c][..0] == [];
  }

  /** When every call converts, none is lost and each keeps its place. */
  lemma {:induction false} ParsedCallsAllOk(calls: seq<RawCall>, codec: Codec)
    requires forall i :: 0 <= i < |calls| ==> FromOpenAiToolCall(calls[i], codec).Ok?
    ensures |ParsedCalls(calls, codec)| == |calls|
    ensures forall i :: 0 <= i < |calls| ==> Ok(ParsedCalls(calls, codec)[i]) == FromOpenAiToolCall(calls[i], codec)
  {
    if calls != [] {
      var n := |calls| - 1;
      ParsedCallsAllOk(calls[..n], codec);
    }
  }

  /** `_parse_openai_response`: no response or no choice gives an empty
      result; otherwise the first choice's text, one thought for a reasoning
      content, and the calls that convert, in order. */
  method ParseOpenAiResponse(response: Option<LlmResponse>, codec: Codec) returns (r: TurnResult)
    ensures r == ParsedResponse(response, codec)
  {
    r := TurnResult("", [], [], [], None);
    if response.None? || response.value.choices == [] {
      return;
    }
    var message := response.value.choices[0];
    if message.content.Some? && message.content.value != "" {
      r := r.(textContent := message.content.value);
    }
    if message.reasoning.Some? && message.reasoning.value != "" {
      r := r.(thoughts := r.thoughts + [ThoughtResult("推理", message.reasoning.value)]);
    }
    for i := 0 to |message.toolCalls|
      invariant r.toolCalls == ParsedCalls(message.toolCalls[..i], codec)
      invariant r.textContent == (if message.content.Some? then message.content.value else "")
      invariant r.thoughts == ReasoningThoughts(message.reasoning) && r.toolResponses == [] && r.durationMs == None
    {
      assert message.toolCalls[..i + 1][..i] == message.toolCalls[..i];
      var request := FromOpenAiToolCall(message.toolCalls[i], codec);
      if request.Ok? {
        r := r.(toolCalls := r.toolCalls + [request.value]);
      }
    }
    assert message.toolCalls[..|message.toolCalls|] == message.toolCalls;
  }

  /** The single thought a non-empty reasoning content gives. */
  function ReasoningThoughts(reasoning: Option<string>): (r: seq<ThoughtResult>)
    ensures |r| <= 1
    ensures r != [] <==> reasoning.Some? && reasoning.value != ""
  {
    if reasoning.Some? && reasoning.value != "" then [ThoughtResult("推理", reasoning.value)] else []
  }

  /** What `_parse_openai_response` returns. */
  function ParsedResponse(response: Option<LlmResponse>, codec: Codec): TurnResult {
    if response.None? || response.value.choices == [] then TurnResult("", [], [], [], None)
    else
      var m := response.value.choices[0];
      TurnResult(if m.content.Some? then m.content.value else "", ReasoningThoughts(m.reasoning),
                 ParsedCalls(m.toolCalls, codec), [], None)
  }

  /** The entry `_build_tool_definitions` writes for one registered tool. */
  function Definition(t: Registry.ToolInfo): Value {
    Dict(map["type" := Str("function"),
             "function" := Dict(map["name" := Str(t.name), "description" := Str(t.description),
                                    "parameters" := Dict(t.parameters)])])
  }

  function Definitions(ts: seq<Registry.ToolInfo>): (r: seq<Value>)
    ensures |r| == |ts| && forall i :: 0 <= i < |ts| ==> r[i] == Definition(ts[i])
  {
    seq(|ts|, i requires 0 <= i < |ts| => Definition(ts[i]))
  }

  /** `_build_tool_definitions`: one "function" entry per dict of
      `get_tools_dict(enabled_only=True)`, in that order. */
  method BuildToolDefinitions(registry: Registry.ToolRegistry) returns (defs: seq<Value>)
    ensures defs == Definitions(Registry.ListTools(registry.tools, true))
  {
    var available := registry.GetToolsDict(true);
    ghost var listed := Registry.ListTools(registry.tools, true);
    defs := [];
    for i := 0 to |available|
      invariant defs == Definitions(listed[..i])
    {
      var tool := available[i];
      var entry := Dict(map["type" := Str("function"),
                            "function" := Dict(map["name" := tool["name"], "description" := tool["description"],
                                                   "parameters" := tool["parameters"]])]);
      assert entry == Definition(listed[i]);
      assert listed[..i + 1] == listed[..i] + [listed[i]];
      defs := defs + [entry];
    }
    assert listed[..|available|] == listed;
  }

  /** The definitions cover exactly the enabled tools, one each, in
      ascending id order. */
  lemma DefinitionsCoverEnabled(ts: seq<Registry.ToolInfo>)
    requires Registry.UniqueIds(ts)
    ensures var listed := Registry.ListTools(ts, true);
      Registry.Ascending(listed) &&
      (forall t :: t in listed <==> t in ts && t.enabled) &&
      |Definitions(listed)| == |listed| &&
      forall i :: 0 <= i < |listed| ==> Definitions(listed)[i] == Definition(listed[i])
  {
    Registry.ListToolsSpec(ts, true);
  }

  /** The text of an action line: `ToolCallRequest.__str__`. */
  function CallText(c: ToolCallRequest, codec: Codec): string {
    "ToolCall(" + c.name + ", " + codec.repr(c.args) + ")"
  }

  /** The observation line for a response. */
  function Observation(resp: ToolCallResponse): string {
    if resp.success then "观察: " + Shown(resp.result) else "观察: 执行失败 - " + Shown(resp.error)
  }

  /** The action and observation parts of calls `from..`: each call's action
      line, followed by the observation at the same index when there is
      one. */
  function CallParts(calls: seq<ToolCallRequest>, responses: seq<ToolCallResponse>, from: nat, codec: Codec)
    : (r: seq<string>)
    requires from <= |calls|
    ensures |r| == (|calls| - from) + (if |responses| <= from then 0
                                        else if |responses| < |calls| then |responses| - from else |calls| - from)
    decreases |calls| - from
  {
    if from == |calls| then []
    else
      ["行动: " + CallText(calls[from], codec)]
      + (if from < |responses| then [Observation(responses[from])] else [])
      + CallParts(calls, responses, from + 1, codec)
  }

  /** One "思考: " line per thought, in order. */
  function ThoughtLines(ts: seq<ThoughtResult>): (r: seq<string>)
    ensures |r| == |ts| && forall i :: 0 <= i < |ts| ==> r[i] == "思考: " + ts[i].description
  {
    seq(|ts|, i requires 0 <= i < |ts| => "思考: " + ts[i].description)
  }

  /** The parts `format_result_for_conversation` joins: the thoughts, the
      calls with their observations, then the text. */
  function ConversationParts(r: TurnResult, codec: Codec): seq<string> {
    ThoughtLines(r.thoughts)
    + CallParts(r.toolCalls, r.toolResponses, 0, codec)
    + (if r.textContent != "" then [r.textContent] else [])
  }

  /** Nothing is rendered exactly when the result has no thought, no call
      and no text; with responses for every call, each call contributes two
      parts. */
  lemma ConversationPartsSpec(r: TurnResult, codec: Codec)
    ensures ConversationParts(r, codec) == [] <==> r.thoughts == [] && r.toolCalls == [] && r.textContent == ""
    ensures |ConversationParts(r, codec)| ==
      |r.thoughts| + |r.toolCalls| + (if |r.toolResponses| < |r.toolCalls| then |r.toolResponses| else |r.toolCalls|)
      + (if r.textContent != "" then 1 else 0)
  {
  }

  /** The first call's action line comes right after the thoughts, and its
      observation right after it when there is a response. */
  lemma ActionThenObservation(r: TurnResult, codec: Codec)
    requires r.toolCalls != []
    ensures var parts := ConversationParts(r, codec);
      parts[|r.thoughts|] == "行动: " + CallText(r.toolCalls[0], codec) &&
      (r.toolResponses != [] ==> parts[|r.thoughts| + 1] == Observation(r.toolResponses[0]))
  {
  }

  /** `format_result_for_conversation`: the loops collecting the parts, and
      the fallback when there is none. */
  method FormatResultForConversation(r: TurnResult, codec: Codec) returns (text: string)
    ensures ConversationParts(r, codec) == [] ==> text == "无响应内容"
    ensures ConversationParts(r, codec) != [] ==> text == Join(ConversationParts(r, codec), "\n\n")
  {
    var parts: seq<string> := [];
    for i := 0 to |r.thoughts|
      invariant |parts| == i && forall k :: 0 <= k < i ==> parts[k] == "思考: " + r.thoughts[k].description
    {
      parts := parts + ["思考: " + r.thoughts[i].description];
    }
    assert parts == ThoughtLines(r.thoughts);
    ghost var thoughtParts := parts;
    assert CallParts(r.toolCalls, r.toolResponses, |r.toolCalls|, codec) == [];
    if |r.toolCalls| > 0 {
      for i := 0 to |r.toolCalls|
        invariant parts + CallParts(r.toolCalls, r.toolResponses, i, codec)
               == thoughtParts + CallParts(r.toolCalls, r.toolResponses, 0, codec)
      {
        var step := ["行动: " + CallText(r.toolCalls[i], codec)];
        if i < |r.toolResponses| {
          step := step + [Observation(r.toolResponses[i])];
        }
        assert CallParts(r.toolCalls, r.toolResponses, i, codec)
            == step + CallParts(r.toolCalls, r.toolResponses, i + 1, codec);
        parts := parts + step;
      }
    }
    if r.textContent != "" {
      parts := parts + [r.textContent];
    }
    assert parts == ConversationParts(r, codec);
    text := if parts != [] then Join(parts, "\n\n") else "无响应内容";
  }

  /** The text `execute` returns when the model call gives None: logging the
      reply reads its `choices` first, which raises an AttributeError. */
  const NO_RESPONSE_ERROR := "执行出错: 'NoneType' object has no attribute 'choices'"

  /** `Turn.execute`, given what the model call returns for the messages and
      the tools offered (None when no tool is enabled), how each tool call
      ends, and the elapsed milliseconds. */
  function TurnOutcome(reply: Result<Option<LlmResponse>>, context: Option<ToolContext>,
                       run: ToolCallRequest -> CallOutcome, codec: Codec, elapsedMs: int): TurnResult
  {
    match reply
    case Err(e) => TurnResult("执行出错: " + e, [], [], [], Some(elapsedMs))
    case Ok(response) => ReplyOutcome(response, context, run, codec, elapsedMs)
  }

  /** `execute` once the model call has returned: None fails when its
      `choices` are read; a reply is parsed and its calls run when a context
      is given. */
  function ReplyOutcome(response: Option<LlmResponse>, context: Option<ToolContext>,
                        run: ToolCallRequest -> CallOutcome, codec: Codec, elapsedMs: int): TurnResult
  {
    if response.None? then TurnResult(NO_RESPONSE_ERROR, [], [], [], Some(elapsedMs))
    else
      var parsed := ParsedResponse(response, codec);
      var responses := if |parsed.toolCalls| > 0 && context.Some?
        then seq(|parsed.toolCalls|, i requires 0 <= i < |parsed.toolCalls| =>
                   ExecuteToolCall(parsed.toolCalls[i], run(parsed.toolCalls[i])))
        else [];
      parsed.(toolResponses := responses, durationMs := Some(elapsedMs))
  }

  /** A failed model call, or one that gives None, becomes an error text
      with no calls; without a context no tool runs; with one, every parsed
      call gets exactly one response, with its id, in order. */
  lemma TurnOutcomeSpec(reply: Result<Option<LlmResponse>>, context: Option<ToolContext>,
                        run: ToolCallRequest -> CallOutcome, codec: Codec, elapsedMs: int)
    ensures var r := TurnOutcome(reply, context, run, codec, elapsedMs);
      (reply.Err? ==> StartsWith(r.textContent, "执行出错: ") && r.toolCalls == [] && r.toolResponses == []) &&
      (reply == Ok(None) ==> r.textContent == NO_RESPONSE_ERROR && r.toolCalls == [] && r.toolResponses == []) &&
      (context.None? ==> r.toolResponses == []) &&
      (reply.Ok? && context.Some? ==>
         |r.toolResponses| == |r.toolCalls| &&
         forall i :: 0 <= i < |r.toolCalls| ==> r.toolResponses[i].callId == r.toolCalls[i].callId)
  {
    var r := TurnOutcome(reply, context, run, codec, elapsedMs);
    if reply.Err? {
      assert r.textContent[..|"执行出错: "|] == "执行出错: ";
    }
  }

  /** The agent's model call: the messages and the tool definitions offered
      (None when there are none) to the model's reply, or the error it
      raised. */
  type Llm = (seq<Value>, Option<seq<Value>>) -> Result<Option<LlmResponse>>

  /** `Turn.execute`: build the definitions, call the model, parse its
      reply and run the calls when a context is given. */
  method Execute(registry: Registry.ToolRegistry, messages: seq<Value>, context: Option<ToolContext>, llm: Llm,
                 run: ToolCallRequest -> CallOutcome, codec: Codec, elapsedMs: int) returns (r: TurnResult)
    ensures var defs := Definitions(Registry.ListTools(registry.tools, true));
      r == TurnOutcome(llm(messages, if defs == [] then None else Some(defs)), context, run, codec, elapsedMs)
  {
    var tools := BuildToolDefinitions(registry);
    var reply := llm(messages, if tools == [] then None else Some(tools));
    if reply.Err? {
      return TurnResult("执行出错: " + reply.error, [], [], [], Some(elapsedMs));
    }
    if reply.value.None? {
      return TurnResult(NO_RESPONSE_ERROR, [], [], [], Some(elapsedMs));
    }
    r := ParseOpenAiResponse(reply.value, codec);
    if |r.toolCalls| > 0 && context.Some? {
      var responses := ExecuteToolCalls(r.toolCalls, run);
      r := r.(toolResponses := responses);
    }
    r := r.(durationMs := Some(elapsedMs));
  }
}
