/** The model client: the conversation history it keeps, the request it
    builds from that history, and the accumulation of a streamed answer.
    The chat-completion service is a function from the request to its
    answer (an error carries the transport's message). */
module Client {
  import opened Wrappers
  import opened Values
  import opened Protocol

  /** A tool call as the service returns it: id, type, function name and
      argument text. */
  datatype ToolCall = ToolCall(id: string, callType: string, name: string, arguments: string)

  /** `Message`: an entry of the conversation history. */
  datatype Message = Message(role: string, content: string, toolCalls: Option<seq<ToolCall>>, toolCallId: Option<string>)

  /** The message `add_tool_message` appends: role "tool", the text and the
      id of the call it answers. */
  function ToolMessage(callId: string, text: string): Message {
    Message("tool", text, None, Some(callId))
  }

  /** `ChatResponse`. */
  datatype ChatResponse = ChatResponse(content: string, toolCalls: seq<ToolCall>, tokenUsage: TokenUsage, finishReason: string)

  /** The dict form of a tool call. */
  function ToolCallValue(tc: ToolCall): Value {
    Dict(map["id" := Str(tc.id), "type" := Str(tc.callType),
             "function" := Dict(map["name" := Str(tc.name), "arguments" := Str(tc.arguments)])])
  }

  /** Reading a tool call back from its dict form. */
  function ToolCallOf(v: Value): Option<ToolCall> {
    if v.Dict? && "id" in v.entries && v.entries["id"].Str? && "type" in v.entries && v.entries["type"].Str?
       && "function" in v.entries && v.entries["function"].Dict?
    then
      var f := v.entries["function"].entries;
      if "name" in f && f["name"].Str? && "arguments" in f && f["arguments"].Str? then
        Some(ToolCall(v.entries["id"].s, v.entries["type"].s, f["name"].s, f["arguments"].s))
      else None
    else None
  }

  /** The list form of a sequence of tool calls, in order. */
  function ToolCallsValue(tcs: seq<ToolCall>): (v: Value)
    ensures v.List? && |v.items| == |tcs|
    ensures forall i :: 0 <= i < |tcs| ==> ToolCallOf(v.items[i]) == Some(tcs[i])
  {
    if tcs == [] then List([]) else List([ToolCallValue(tcs[0])] + ToolCallsValue(tcs[1..]).items)
  }

  /** Python truthiness of the optional fields of a message. */
  predicate HasCalls(m: Message) { m.toolCalls.Some? && m.toolCalls.value != [] }
  predicate HasCallId(m: Message) { m.toolCallId.Some? && m.toolCallId.value != "" }

  /** The request dict of one history message, as `chat_completion` builds
      it: role and content, then "tool_calls" and "tool_call_id" only when
      those fields are truthy. */
  function RequestDict(m: Message): Value {
    var base := map["role" := Str(m.role), "content" := Str(m.content)];
    var withCalls := if HasCalls(m) then base["tool_calls" := ToolCallsValue(m.toolCalls.value)] else base;
    Dict(if HasCallId(m) then withCalls["tool_call_id" := Str(m.toolCallId.value)] else withCalls)
  }

  /** The request dict carries role and content always, and the two
      optional keys exactly when the message's fields are truthy. */
  lemma RequestDictKeys(m: Message)
    ensures RequestDict(m).entries.Keys ==
      {"role", "content"} + (if HasCalls(m) then {"tool_calls"} else {})
      + (if HasCallId(m) then {"tool_call_id"} else {})
    ensures RequestDict(m).entries["role"] == Str(m.role)
    ensures RequestDict(m).entries["content"] == Str(m.content)
  {
  }

  /** Reading a message back from its request dict. */
  function MessageOfRequest(v: Value): Option<Message> {
    if v.Dict? && "role" in v.entries && v.entries["role"].Str? && "content" in v.entries
       && v.entries["content"].Str?
    then
      var e := v.entries;
      var calls: Option<seq<ToolCall>> :=
        if "tool_calls" in e && e["tool_calls"].List? && forall i :: 0 <= i < |e["tool_calls"].items| ==> ToolCallOf(e["tool_calls"].items[i]).Some?
        then Some(seq(|e["tool_calls"].items|, i requires 0 <= i < |e["tool_calls"].items| && ToolCallOf(e["tool_calls"].items[i]).Some? =>
                    ToolCallOf(e["tool_calls"].items[i]).value))
        else None;
      var id := if "tool_call_id" in e && e["tool_call_id"].Str? then Some(e["tool_call_id"].s) else None;
      Some(Message(e["role"].s, e["content"].s, calls, id))
    else None
  }

  /** The request keeps a message intact except that an empty call list or
      an empty call id is dropped. */
  lemma RequestRoundTrip(m: Message)
    ensures MessageOfRequest(RequestDict(m)) ==
      Some(m.(toolCalls := if HasCalls(m) then m.toolCalls else None,
              toolCallId := if HasCallId(m) then m.toolCallId else None))
  {
    var e := RequestDict(m).entries;
    if HasCalls(m) {
      var items := e["tool_calls"].items;
      var back := seq(|items|, i requires 0 <= i < |items| && ToolCallOf(items[i]).Some? => ToolCallOf(items[i]).value);
      assert back == m.toolCalls.value;
    }
  }

  /** The request of `chat_completion`: one dict per history message, in
      history order. */
  function BuildRequest(history: seq<Message>): (r: seq<Value>)
    ensures |r| == |history|
    ensures forall i :: 0 <= i < |history| ==> r[i] == RequestDict(history[i])
  {
    if history == [] then [] else [RequestDict(history[0])] + BuildRequest(history[1..])
  }

  /** Appending a message to the history appends its dict to the request. */
  lemma BuildRequestAppend(history: seq<Message>, m: Message)
    ensures BuildRequest(history + [m]) == BuildRequest(history) + [RequestDict(m)]
  {
    assert |BuildRequest(history + [m])| == |history| + 1;
    assert forall i :: 0 <= i < |history| ==> (history + [m])[i] == history[i];
  }

  /** The prefix of the message of a failed request. */
  const RequestFailedPrefix := "模型请求失败: "

  /** A tool of the schema the client offers: its name, description,
      declared parameters and required parameters. */
  datatype ToolSchema = ToolSchema(name: string, description: string, parameters: seq<string>, required: seq<string>)

  /** `get_tools_schema`. */
  function ToolsSchema(): (r: seq<ToolSchema>)
    ensures |r| == 4
    ensures forall i :: 0 <= i < |r| ==> forall p :: p in r[i].required ==> p in r[i].parameters
    ensures forall i, j :: 0 <= i < j < |r| ==> r[i].name != r[j].name
  {
    [ToolSchema("execute_command", "执行shell命令", ["command", "cwd"], ["command"]),
     ToolSchema("read_file", "读取文件内容", ["file_path"], ["file_path"]),
     ToolSchema("write_file", "写入文件内容", ["file_path", "content"], ["file_path", "content"]),
     ToolSchema("apply_patch", "应用代码补丁", ["file_path", "patch"], ["file_path", "patch"])]
  }

  /** A tool-call fragment of a streamed chunk. */
  datatype ToolCallDelta = ToolCallDelta(id: Option<string>, callType: string, name: string, arguments: string)

  /** The delta of one choice of a streamed chunk. */
  datatype Delta = Delta(content: Option<string>, toolCalls: Option<seq<ToolCallDelta>>)

  /** A streamed chunk: the deltas of its choices (only the first is read). */
  datatype Chunk = Chunk(choices: seq<Delta>)

  /** The text a chunk adds. */
  function ChunkText(c: Chunk): string {
    if c.choices != [] && c.choices[0].content.Some? then c.choices[0].content.value else ""
  }

  /** The tool calls kept from a list of fragments: those with a non-empty
      id, in order. */
  function KeptCalls(ds: seq<ToolCallDelta>): (r: seq<ToolCall>)
    ensures |r| <= |ds|
  {
    if ds == [] then []
    else
      var d := ds[|ds| - 1];
      KeptCalls(ds[..|ds| - 1]) + (if d.id.Some? && d.id.value != "" then [ToolCall(d.id.value, d.callType, d.name, d.arguments)] else [])
  }

  /** When every fragment carries an id, every fragment becomes a call, in
      order. */
  lemma {:induction false} KeptCallsAll(ds: seq<ToolCallDelta>)
    requires forall i :: 0 <= i < |ds| ==> ds[i].id.Some? && ds[i].id.value != ""
    ensures |KeptCalls(ds)| == |ds|
    ensures forall i :: 0 <= i < |ds| ==> KeptCalls(ds)[i].id == ds[i].id.value
  {
    if ds != [] {
      KeptCallsAll(ds[..|ds| - 1]);
    }
  }

  /** A fragment without an id contributes nothing. */
  lemma KeptCallsSkip(ds: seq<ToolCallDelta>, d: ToolCallDelta)
    requires d.id == None || d.id == Some("")
    ensures KeptCalls(ds + [d]) == KeptCalls(ds)
  {
    assert (ds + [d])[..|ds|] == ds;
  }

  /** Every kept call has a non-empty id. */
  lemma {:induction false} KeptCallIds(ds: seq<ToolCallDelta>)
    ensures forall i :: 0 <= i < |KeptCalls(ds)| ==> KeptCalls(ds)[i].id != ""
  {
    if ds != [] {
      KeptCallIds(ds[..|ds| - 1]);
    }
  }

  /** One more fragment extends the kept calls by at most that fragment. */
  lemma KeptCallsStep(ds: seq<ToolCallDelta>, j: nat)
    requires j < |ds|
    ensures KeptCalls(ds[..j + 1]) == KeptCalls(ds[..j])
      + (if ds[j].id.Some? && ds[j].id.value != "" then [ToolCall(ds[j].id.value, ds[j].callType, ds[j].name, ds[j].arguments)] else [])
  {
    assert ds[..j + 1][..j] == ds[..j];
  }

  /** The tool calls a chunk adds. */
  function ChunkCalls(c: Chunk): seq<ToolCall> {
    if c.choices != [] && c.choices[0].toolCalls.Some? then KeptCalls(c.choices[0].toolCalls.value) else []
  }

  /** What the first `n` chunks of a stream add up to, one piece per chunk
      appended in order. */
  function Accumulated<T>(cs: seq<Chunk>, n: nat, piece: Chunk -> seq<T>): seq<T>
    requires n <= |cs|
  {
    if n == 0 then [] else Accumulated(cs, n - 1, piece) + piece(cs[n - 1])
  }

  /** The text accumulated from a stream of chunks. */
  function StreamedText(cs: seq<Chunk>): string {
    Accumulated(cs, |cs|, ChunkText)
  }

  /** The tool calls accumulated from a stream of chunks. */
  function StreamedCalls(cs: seq<Chunk>): seq<ToolCall> {
    Accumulated(cs, |cs|, ChunkCalls)
  }

  /** Chunks appended after the first `n` do not change what those add up to. */
  lemma {:induction false} AccumulatedPrefix<T>(a: seq<Chunk>, b: seq<Chunk>, n: nat, piece: Chunk -> seq<T>)
    requires n <= |a|
    ensures Accumulated(a + b, n, piece) == Accumulated(a, n, piece)
  {
    if n > 0 {
      AccumulatedPrefix(a, b, n - 1, piece);
      assert (a + b)[n - 1] == a[n - 1];
    }
  }

  /** The first `|a| + k` chunks of `a + b` add up to all of `a` followed by
      the first `k` of `b`. */
  lemma {:induction false} AccumulatedAppend<T>(a: seq<Chunk>, b: seq<Chunk>, k: nat, piece: Chunk -> seq<T>)
    requires k <= |b|
    ensures Accumulated(a + b, |a| + k, piece) == Accumulated(a, |a|, piece) + Accumulated(b, k, piece)
  {
    if k == 0 {
      AccumulatedPrefix(a, b, |a|, piece);
    } else {
      AccumulatedAppend(a, b, k - 1, piece);
      assert (a + b)[|a| + k - 1] == b[k - 1];
    }
  }

  /** The text of a stream is the concatenation of the texts of its parts:
      deltas are concatenated in order. */
  lemma StreamedTextAppend(a: seq<Chunk>, b: seq<Chunk>)
    ensures StreamedText(a + b) == StreamedText(a) + StreamedText(b)
  {
    AccumulatedAppend(a, b, |b|, ChunkText);
  }

  /** The calls of a stream are those of its parts, in order. */
  lemma StreamedCallsAppend(a: seq<Chunk>, b: seq<Chunk>)
    ensures StreamedCalls(a + b) == StreamedCalls(a) + StreamedCalls(b)
  {
    AccumulatedAppend(a, b, |b|, ChunkCalls);
  }

  /** Every call kept from the first `n` chunks has a non-empty id. */
  lemma {:induction false} AccumulatedCallIds(cs: seq<Chunk>, n: nat)
    requires n <= |cs|
    ensures forall i :: 0 <= i < |Accumulated(cs, n, ChunkCalls)| ==> Accumulated(cs, n, ChunkCalls)[i].id != ""
  {
    if n > 0 {
      AccumulatedCallIds(cs, n - 1);
      var c := cs[n - 1];
      if c.choices != [] && c.choices[0].toolCalls.Some? {
        KeptCallIds(c.choices[0].toolCalls.value);
      }
    }
  }

  /** Every call kept from a stream has a non-empty id. */
  lemma StreamedCallIds(cs: seq<Chunk>)
    ensures forall i :: 0 <= i < |StreamedCalls(cs)| ==> StreamedCalls(cs)[i].id != ""
  {
    AccumulatedCallIds(cs, |cs|);
  }

  /** `ModelClient`. */
  class ModelClient {
    var history: seq<Message>

    constructor ()
      ensures history == []
    {
      history := [];
    }

    /** `add_system_message`. */
    method AddSystemMessage(content: string)
      modifies this
      ensures history == old(history) + [Message("system", content, None, None)]
    {
      history := history + [Message("system", content, None, None)];
    }

    /** `add_user_message`. */
    method AddUserMessage(content: string)
      modifies this
      ensures history == old(history) + [Message("user", content, None, None)]
    {
      history := history + [Message("user", content, None, None)];
    }

    /** `add_assistant_message`: the tool calls are stored as given. */
    method AddAssistantMessage(content: string, toolCalls: Option<seq<ToolCall>>)
      modifies this
      ensures history == old(history) + [Message("assistant", content, toolCalls, None)]
    {
      history := history + [Message("assistant", content, toolCalls, None)];
    }

    /** `add_tool_message`: the id is kept as `tool_call_id`, with no calls. */
    method AddToolMessage(toolCallId: string, content: string)
      modifies this
      ensures history == old(history) + [ToolMessage(toolCallId, content)]
    {
      history := history + [Message("tool", content, None, Some(toolCallId))];
    }

    /** `clear_history`. */
    method ClearHistory()
      modifies this
      ensures history == []
    {
      history := [];
    }

    /** `chat_completion`: sends the request built from the history to the
        whole-answer service, or to the streaming one whose chunks are then
        accumulated; a failure of either surfaces with the fixed prefix. */
    method ChatCompletion(stream: bool, whole: seq<Value> -> Result<ChatResponse>,
                          streamed: seq<Value> -> Result<seq<Chunk>>)
      returns (r: Result<ChatResponse>)
      ensures var request := BuildRequest(history);
        if stream then
          (streamed(request).Err? ==> r == Err(RequestFailedPrefix + streamed(request).error))
          && (streamed(request).Ok? ==> r == Ok(StreamedResponse(streamed(request).value)))
        else
          (whole(request).Err? ==> r == Err(RequestFailedPrefix + whole(request).error))
          && (whole(request).Ok? ==> r == whole(request))
    {
      var request := BuildRequest(history);
      if stream {
        var chunks := streamed(request);
        if chunks.Err? {
          return Err(RequestFailedPrefix + chunks.error);
        }
        var response := StreamCompletion(chunks.value);
        return Ok(response);
      }
      var answer := whole(request);
      if answer.Err? {
        return Err(RequestFailedPrefix + answer.error);
      }
      return answer;
    }
  }

  /** The answer assembled from a stream: its text and calls, zero usage
      and finish reason "stop". */
  function StreamedResponse(cs: seq<Chunk>): (r: ChatResponse)
    ensures IsZero(r.tokenUsage) && r.finishReason == "stop"
  {
    ChatResponse(StreamedText(cs), StreamedCalls(cs), ZeroUsage(), "stop")
  }

  /** `_stream_completion` over the chunks the service sends: appends each
      chunk's text, and each of its tool-call fragments that carries an id. */
  method StreamCompletion(chunks: seq<Chunk>) returns (r: ChatResponse)
    ensures r == StreamedResponse(chunks)
  {
    var content := "";
    var toolCalls: seq<ToolCall> := [];
    var i := 0;
    while i < |chunks|
      invariant 0 <= i <= |chunks|
      invariant content == Accumulated(chunks, i, ChunkText)
      invariant toolCalls == Accumulated(chunks, i, ChunkCalls)
    {
      var chunk := chunks[i];
      ghost var text0, calls0 := content, toolCalls;
      if chunk.choices != [] {
        var delta := chunk.choices[0];
        if delta.content.Some? && delta.content.value != "" {
          content := content + delta.content.value;
        }
        if delta.toolCalls.Some? && delta.toolCalls.value != [] {
          toolCalls := AppendKeptCalls(toolCalls, delta.toolCalls.value);
        }
      }
      assert content == text0 + ChunkText(chunk) && toolCalls == calls0 + ChunkCalls(chunk);
      i := i + 1;
    }
    return ChatResponse(content, toolCalls, ZeroUsage(), "stop");
  }

  /** The inner loop of `_stream_completion`: appends each fragment that
      carries an id, in order. */
  method AppendKeptCalls(toolCalls: seq<ToolCall>, ds: seq<ToolCallDelta>) returns (r: seq<ToolCall>)
    ensures r == toolCalls + KeptCalls(ds)
  {
    r := toolCalls;
    var j := 0;
    while j < |ds|
      invariant 0 <= j <= |ds|
      invariant r == toolCalls + KeptCalls(ds[..j])
    {
      var tc := ds[j];
      KeptCallsStep(ds, j);
      if tc.id.Some? && tc.id.value != "" {
        r := r + [ToolCall(tc.id.value, tc.callType, tc.name, tc.arguments)];
      }
      j := j + 1;
    }
    assert ds[..j] == ds;
  }
}
