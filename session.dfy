/** The session: the approval classifier, the handling of a response's tool
    calls, the bounded reason-and-act loop of a user-input submission, the
    answer to an execution approval, the dispatch of submissions and the
    session's token counters. The chat service, the tool executor, the JSON
    functions and the clock are parameters (`SessionEnv`). */
module Session {
  import opened Wrappers
  import opened Values
  import opened Text
  import opened Protocol
  import opened Client

  /** Python's name for the type of a value, as its error messages print it. */
  function TypeName(v: Value): string {
    match v
    case Null => "NoneType"
    case Bool(_) => "bool"
    case Int(_) => "int"
    case Str(_) => "str"
    case List(_) => "list"
    case Dict(_) => "dict"
  }

  /** `args.get(key, default)`: only a dict has `get`. */
  function DictGet(args: Value, key: string, default: Value): (r: Result<Value>)
    ensures r.Ok? <==> args.Dict?
  {
    if !args.Dict? then Err("'" + TypeName(args) + "' object has no attribute 'get'")
    else if key in args.entries then Ok(args.entries[key])
    else Ok(default)
  }

  /** `item in container` for a text item: a substring of a string, an
      element of a list, a key of a dict; other values are not iterable. */
  function MemberOf(item: string, container: Value): (r: Result<bool>)
    ensures r.Ok? <==> container.Str? || container.List? || container.Dict?
  {
    match container
    case Str(s) => Ok(Contains(s, item))
    case List(xs) => Ok(Str(item) in xs)
    case Dict(m) => Ok(item in m)
    case _ => Err("argument of type '" + TypeName(container) + "' is not iterable")
  }

  /** `any(item in container for item in items)`. */
  function AnyMember(items: seq<string>, container: Value): (r: Result<bool>)
    requires |items| > 0
    ensures r.Ok? <==> container.Str? || container.List? || container.Dict?
    ensures r.Ok? ==> (r.value <==> exists i :: 0 <= i < |items| && MemberOf(items[i], container) == Ok(true))
  {
    var first := MemberOf(items[0], container);
    if first.Err? then Err(first.error)
    else if first.value || |items| == 1 then first
    else
      var rest := AnyMember(items[1..], container);
      assert forall i :: 1 <= i < |items| ==> items[i] == items[1..][i - 1];
      rest
  }

  const DangerousCommands: seq<string> := ["rm", "del", "format", "sudo", "chmod"]
  const SystemPaths: seq<string> := ["/etc", "/sys", "/proc", "C:\\Windows"]

  /** `_needs_approval`: the configured policy text is read as an
      `AskForApproval` first, so a value outside it is an error. */
  function NeedsApproval(policy: string, name: string, args: Value): (r: Result<bool>)
    ensures ParseApproval(policy).Err? ==> r == Err(ParseApproval(policy).error)
    ensures policy == "never" || policy == "on_failure" ==> r == Ok(false)
    ensures policy == "unless_trusted" ==> r == Ok(name != "read_file")
    ensures policy == "on_request" && name != "execute_command" && name != "write_file" ==> r == Ok(false)
  {
    var parsed := ParseApproval(policy);
    if parsed.Err? then Err(parsed.error)
    else match parsed.value
      case Never => Ok(false)
      case OnRequest =>
        if name == "execute_command" then
          var command := DictGet(args, "command", Str(""));
          if command.Err? then Err(command.error)
          else if !command.value.Str? then Err("'" + TypeName(command.value) + "' object has no attribute 'lower'")
          else AnyMember(DangerousCommands, Str(Lower(command.value.s)))
        else if name == "write_file" then
          var path := DictGet(args, "file_path", Str(""));
          if path.Err? then Err(path.error) else AnyMember(SystemPaths, path.value)
        else Ok(false)
      case UnlessTrusted => Ok(name != "read_file")
      case OnFailure => Ok(false)
  }

  /** Under "on_request" a command needs approval exactly when its lower-cased
      text contains one of the dangerous words; no command counts as "". */
  lemma OnRequestCommand(entries: map<string, Value>, command: string)
    requires "command" in entries ==> entries["command"] == Str(command)
    requires "command" !in entries ==> command == ""
    ensures NeedsApproval("on_request", "execute_command", Dict(entries))
      == Ok(exists i :: 0 <= i < |DangerousCommands| && Contains(Lower(command), DangerousCommands[i]))
  {
  }

  /** Under "on_request" a file write needs approval exactly when its path
      text contains one of the system directories. */
  lemma OnRequestWrite(entries: map<string, Value>, path: string)
    requires "file_path" in entries ==> entries["file_path"] == Str(path)
    requires "file_path" !in entries ==> path == ""
    ensures NeedsApproval("on_request", "write_file", Dict(entries))
      == Ok(exists i :: 0 <= i < |SystemPaths| && Contains(path, SystemPaths[i]))
  {
  }

  /** The configuration also accepts "always", which is no `AskForApproval`:
      under it every classification fails. */
  lemma AlwaysPolicyFails(name: string, args: Value)
    ensures NeedsApproval("always", name, args).Err?
  {
  }

  /** `str(value)`. */
  function StrOf(v: Value, codec: Codec): string {
    match v
    case Null => "None"
    case Bool(b) => if b then "True" else "False"
    case Int(i) => IntToString(i)
    case Str(s) => s
    case _ => codec.repr(v)
  }

  const NoResultText := "工具执行完成，无返回值"
  const ToolFailedPrefix := "工具执行失败: "

  /** `_execute_tool_safely`: the text of what the executor's `execute_tool`
      returned, or of the exception it raised (`outcome`). */
  function SafeResultText(name: string, args: Value, outcome: Result<Value>, codec: Codec): (t: string)
    ensures outcome.Err? ==> t == ToolFailedPrefix + name + "(" + codec.repr(args) + ") - " + outcome.error
    ensures outcome == Ok(Null) ==> t == NoResultText
    ensures outcome.Ok? && (outcome.value.Dict? || outcome.value.List?) ==> t == codec.pretty(outcome.value)
    ensures outcome.Ok? && outcome.value.Str? ==> t == outcome.value.s
  {
    if outcome.Err? then ToolFailedPrefix + name + "(" + codec.repr(args) + ") - " + outcome.error
    else if outcome.value.Null? then NoResultText
    else if outcome.value.Dict? || outcome.value.List? then codec.pretty(outcome.value)
    else StrOf(outcome.value, codec)
  }

  /** What a session's handlers take from outside: the configured approval
      policy text and working directory, the chat service, the JSON and
      `repr` functions, `run` the tool executor's `execute_tool` (an error
      carries the message of the exception it raises), `executorError` the
      message when the tool executor cannot be imported or made, `pathText`
      the text of `Path(s)`, and `now` the time stamped on events. */
  datatype SessionEnv = SessionEnv(
    policy: string,
    cwd: string,
    complete: seq<Value> -> Result<ChatResponse>,
    codec: Codec,
    run: (string, Value) -> Result<Value>,
    executorError: Option<string>,
    pathText: string -> string,
    now: string)

  /** `_request_approval`'s event message: for a command, the command and the
      working directory it would run in; for any other tool, its name and
      arguments. */
  function ApprovalRequest(callId: string, name: string, args: Value, env: SessionEnv): (r: Result<EventMsg>)
    ensures name != "execute_command" ==>
      r == Ok(EventMsg("approval_request", map["call_id" := Str(callId), "tool_name" := Str(name),
                                               "arguments" := args, "reason" := Str("需要用户批准执行 " + name)]))
    ensures name == "execute_command" ==>
      (r.Ok? <==> args.Dict? && ("cwd" in args.entries ==> args.entries["cwd"].Str?))
    ensures name == "execute_command" && r.Ok? ==>
      r.value.msgType == "exec_approval_request" && "command" in r.value.data
      && r.value.data["command"] == List([if "command" in args.entries then args.entries["command"] else Str("")])
  {
    if name == "execute_command" then
      var command := DictGet(args, "command", Str(""));
      if command.Err? then Err(command.error)
      else if "cwd" in args.entries && !args.entries["cwd"].Str? then
        Err("expected str, bytes or os.PathLike object, not " + TypeName(args.entries["cwd"]))
      else
        var dir := if "cwd" in args.entries then env.pathText(args.entries["cwd"].s) else env.cwd;
        Ok(ExecApprovalRequest(callId, [command.value], dir, Some("需要用户批准执行命令")))
    else
      Ok(EventMsg("approval_request", map["call_id" := Str(callId), "tool_name" := Str(name),
                                          "arguments" := args, "reason" := Str("需要用户批准执行 " + name)]))
  }

  /** The record the session keeps for a call waiting for approval. */
  datatype PendingCall = PendingCall(submissionId: string, toolName: string, arguments: Value, callId: string)

  const ParseFailedPrefix := "参数解析失败: "
  const CallFailedPrefix := "工具调用处理失败: "

  /** How one call of a response is dealt with: answered at once with a
      text, or parked with its parsed arguments and the approval request
      (or the error raised while making it). */
  datatype CallOutcome = Answered(text: string) | Parked(args: Value, request: Result<EventMsg>)

  /** The outcome of one call: unparsable arguments and a failing
      classification are answered with an error text; a call needing
      approval is parked; any other call is run. */
  function Outcome(call: ToolCall, env: SessionEnv): CallOutcome {
    var parsed := env.codec.loads(call.arguments);
    if parsed.Err? then Answered(ParseFailedPrefix + parsed.error)
    else
      var args := parsed.value;
      var needs := NeedsApproval(env.policy, call.name, args);
      if needs.Err? then Answered(CallFailedPrefix + needs.error)
      else if needs.value then Parked(args, ApprovalRequest(call.id, call.name, args, env))
      else Answered(SafeResultText(call.name, args, env.run(call.name, args), env.codec))
  }

  /** A call is parked exactly when its arguments parse and it needs
      approval; unparsable arguments are answered with the parse error, and
      a call needing no approval with the tool's result text. */
  lemma OutcomeCases(call: ToolCall, env: SessionEnv)
    ensures var parsed := env.codec.loads(call.arguments);
      var o := Outcome(call, env);
      (parsed.Err? ==> o == Answered(ParseFailedPrefix + parsed.error))
      && (o.Parked? <==> parsed.Ok? && NeedsApproval(env.policy, call.name, parsed.value) == Ok(true))
      && (o.Parked? ==> o.args == parsed.value)
      && (parsed.Ok? && NeedsApproval(env.policy, call.name, parsed.value) == Ok(false) ==>
            o == Answered(SafeResultText(call.name, parsed.value, env.run(call.name, parsed.value), env.codec)))
  {
  }

  /** The outcomes of a batch of calls, one per call. */
  function Outcomes(calls: seq<ToolCall>, env: SessionEnv): (os: seq<CallOutcome>)
    ensures |os| == |calls|
    ensures forall i :: 0 <= i < |calls| ==> os[i] == Outcome(calls[i], env)
  {
    seq(|calls|, i requires 0 <= i < |calls| => Outcome(calls[i], env))
  }

  /** A parked call whose approval request went out. */
  predicate Sent(o: CallOutcome) {
    o.Parked? && o.request.Ok?
  }

  /** The tool messages a call adds to the history: its answer, or for a
      parked call the error raised while requesting approval, if any. */
  function Replies(call: ToolCall, o: CallOutcome): (ms: seq<Message>)
    ensures |ms| == (if Sent(o) then 0 else 1)
    ensures forall k :: 0 <= k < |ms| ==> ms[k].role == "tool" && ms[k].toolCallId == Some(call.id)
  {
    match o
    case Answered(text) => [ToolMessage(call.id, text)]
    case Parked(_, request) => if request.Err? then [ToolMessage(call.id, CallFailedPrefix + request.error)] else []
  }

  /** The events a call emits: the approval request of a parked call. */
  function Requests(submissionId: string, o: CallOutcome, now: string): (es: seq<Event>)
    ensures |es| == (if Sent(o) then 1 else 0)
    ensures forall k :: 0 <= k < |es| ==> es[k] == Event(submissionId, o.request.value, now)
  {
    if Sent(o) then [Event(submissionId, o.request.value, now)] else []
  }

  /** What the session changes while it handles tool calls. */
  datatype ToolsState = ToolsState(history: seq<Message>, pending: map<string, PendingCall>, events: seq<Event>)

  /** One iteration of `_handle_tool_calls`, given the call's outcome. */
  function CallStep(s: ToolsState, submissionId: string, call: ToolCall, o: CallOutcome, now: string): ToolsState {
    var pending := if o.Parked? then s.pending[call.id := PendingCall(submissionId, call.name, o.args, call.id)] else s.pending;
    ToolsState(s.history + Replies(call, o), pending, s.events + Requests(submissionId, o, now))
  }

  /** The state after the first `n` calls. */
  function ToolsUpTo(s: ToolsState, submissionId: string, calls: seq<ToolCall>, os: seq<CallOutcome>, n: nat, now: string)
    : ToolsState
    requires n <= |calls| == |os|
  {
    if n == 0 then s else CallStep(ToolsUpTo(s, submissionId, calls, os, n - 1, now), submissionId, calls[n - 1], os[n - 1], now)
  }

  /** The tool messages of the first `n` calls, in call order. */
  function RepliesUpTo(calls: seq<ToolCall>, os: seq<CallOutcome>, n: nat): seq<Message>
    requires n <= |calls| == |os|
  {
    if n == 0 then [] else RepliesUpTo(calls, os, n - 1) + Replies(calls[n - 1], os[n - 1])
  }

  /** The approval requests of the first `n` calls, in call order. */
  function RequestsUpTo(submissionId: string, os: seq<CallOutcome>, n: nat, now: string): seq<Event>
    requires n <= |os|
  {
    if n == 0 then [] else RequestsUpTo(submissionId, os, n - 1, now) + Requests(submissionId, os[n - 1], now)
  }

  /** Handling calls only appends to the history: each call's tool
      messages, in call order. */
  lemma {:induction false} ToolsHistory(s: ToolsState, submissionId: string, calls: seq<ToolCall>, os: seq<CallOutcome>,
                                        n: nat, now: string)
    requires n <= |calls| == |os|
    ensures ToolsUpTo(s, submissionId, calls, os, n, now).history == s.history + RepliesUpTo(calls, os, n)
  {
    if n > 0 {
      ToolsHistory(s, submissionId, calls, os, n - 1, now);
      calc {
        ToolsUpTo(s, submissionId, calls, os, n, now).history;
        ToolsUpTo(s, submissionId, calls, os, n - 1, now).history + Replies(calls[n - 1], os[n - 1]);
        s.history + (RepliesUpTo(calls, os, n - 1) + Replies(calls[n - 1], os[n - 1]));
      }
    }
  }

  /** Handling calls only appends to the events: each parked call's
      approval request, in call order. */
  lemma {:induction false} ToolsEvents(s: ToolsState, submissionId: string, calls: seq<ToolCall>, os: seq<CallOutcome>,
                                       n: nat, now: string)
    requires n <= |calls| == |os|
    ensures ToolsUpTo(s, submissionId, calls, os, n, now).events == s.events + RequestsUpTo(submissionId, os, n, now)
  {
    if n > 0 {
      ToolsEvents(s, submissionId, calls, os, n - 1, now);
      calc {
        ToolsUpTo(s, submissionId, calls, os, n, now).events;
        ToolsUpTo(s, submissionId, calls, os, n - 1, now).events + Requests(submissionId, os[n - 1], now);
        s.events + (RequestsUpTo(submissionId, os, n - 1, now) + Requests(submissionId, os[n - 1], now));
      }
    }
  }

  /** Exactly the calls needing approval are parked, each under its id. */
  lemma {:induction false} ToolsPending(s: ToolsState, submissionId: string, calls: seq<ToolCall>, os: seq<CallOutcome>,
                                        n: nat, now: string)
    requires n <= |calls| == |os|
    ensures ToolsUpTo(s, submissionId, calls, os, n, now).pending.Keys ==
      s.pending.Keys + set i | 0 <= i < n && os[i].Parked? :: calls[i].id
  {
    if n > 0 {
      ToolsPending(s, submissionId, calls, os, n - 1, now);
    }
  }

  /** Every call that is not parked with its request sent adds exactly one
      tool message; a parked call whose request went out adds none. */
  lemma {:induction false} RepliesCount(calls: seq<ToolCall>, os: seq<CallOutcome>, n: nat)
    requires n <= |calls| == |os|
    ensures |RepliesUpTo(calls, os, n)| == |set i | 0 <= i < n && !Sent(os[i])|
  {
    if n > 0 {
      RepliesCount(calls, os, n - 1);
      var before := set i | 0 <= i < n - 1 && !Sent(os[i]);
      var after := set i | 0 <= i < n && !Sent(os[i]);
      if Sent(os[n - 1]) {
        assert after == before;
      } else {
        assert after == before + {n - 1};
      }
    }
  }

  /** Every message the calls add is a tool message. */
  lemma {:induction false} RepliesAreTool(calls: seq<ToolCall>, os: seq<CallOutcome>, n: nat)
    requires n <= |calls| == |os|
    ensures forall k :: 0 <= k < |RepliesUpTo(calls, os, n)| ==> RepliesUpTo(calls, os, n)[k].role == "tool"
  {
    if n > 0 {
      RepliesAreTool(calls, os, n - 1);
      var r0: seq<Message> := RepliesUpTo(calls, os, n - 1);
      var r1: seq<Message> := Replies(calls[n - 1], os[n - 1]);
      forall k | 0 <= k < |r0 + r1|
        ensures (r0 + r1)[k].role == "tool"
      {
        if k >= |r0| {
          assert (r0 + r1)[k] == r1[k - |r0|];
        }
      }
    }
  }

  /** The answered approval requests a batch of calls emits are requests,
      never a completion. */
  predicate NoCompletion(es: seq<Event>) {
    forall k :: 0 <= k < |es| ==> es[k].msg.msgType != "task_complete"
  }

  /** The event a parked call sends is an approval request. */
  lemma SentIsRequest(call: ToolCall, env: SessionEnv)
    ensures var o := Outcome(call, env);
      Sent(o) ==> o.request.value.msgType == "approval_request" || o.request.value.msgType == "exec_approval_request"
  {
  }

  lemma NoCompletionAppend(a: seq<Event>, b: seq<Event>)
    requires NoCompletion(a) && NoCompletion(b)
    ensures NoCompletion(a + b)
  {
    forall k | 0 <= k < |a + b|
      ensures (a + b)[k].msg.msgType != "task_complete"
    {
      if k >= |a| {
        assert (a + b)[k] == b[k - |a|];
      }
    }
  }

  lemma {:induction false} RequestsNoCompletion(submissionId: string, calls: seq<ToolCall>, env: SessionEnv, n: nat, now: string)
    requires n <= |calls|
    ensures NoCompletion(RequestsUpTo(submissionId, Outcomes(calls, env), n, now))
  {
    if n > 0 {
      RequestsNoCompletion(submissionId, calls, env, n - 1, now);
      SentIsRequest(calls[n - 1], env);
      var os := Outcomes(calls, env);
      NoCompletionAppend(RequestsUpTo(submissionId, os, n - 1, now), Requests(submissionId, os[n - 1], now));
    }
  }

  /** `_update_token_usage`: input, output and total counts are added; the
      cached count is kept. */
  function AddUsage(total: TokenUsage, u: TokenUsage): (r: TokenUsage)
    ensures r.inputTokens == total.inputTokens + u.inputTokens
    ensures r.outputTokens == total.outputTokens + u.outputTokens
    ensures r.totalTokens == total.totalTokens + u.totalTokens
    ensures r.cachedInputTokens == total.cachedInputTokens
  {
    TokenUsage(total.inputTokens + u.inputTokens, total.outputTokens + u.outputTokens,
               total.totalTokens + u.totalTokens, total.cachedInputTokens)
  }

  /** Adding usages in turn is adding their sum, and adding nothing changes
      nothing. */
  lemma AddUsageLaws(total: TokenUsage, u: TokenUsage, v: TokenUsage)
    ensures AddUsage(AddUsage(total, u), v) == AddUsage(total, AddUsage(u, v).(cachedInputTokens := total.cachedInputTokens))
    ensures AddUsage(total, ZeroUsage()) == total
  {
  }

  const AIFailedPrefix := "AI响应失败: "

  /** `chat_completion` on the history, as the session calls it (no stream). */
  function Answer(history: seq<Message>, env: SessionEnv): (r: Result<ChatResponse>)
    ensures env.complete(BuildRequest(history)).Ok? ==> r == env.complete(BuildRequest(history))
    ensures env.complete(BuildRequest(history)).Err? ==> r == Err(RequestFailedPrefix + env.complete(BuildRequest(history)).error)
  {
    var answer := env.complete(BuildRequest(history));
    if answer.Err? then Err(RequestFailedPrefix + answer.error) else answer
  }

  /** The state of `_handle_user_input`'s loop: what the tool handling
      changes, the session's usage counters, the turn counter, the last
      agent message and whether the loop broke off. */
  datatype LoopState = LoopState(tools: ToolsState, usage: TokenUsage, turn: nat, last: Option<string>, stopped: bool)

  function Emit(s: ToolsState, id: string, m: EventMsg, now: string): ToolsState {
    s.(events := s.events + [Event(id, m, now)])
  }

  /** The assistant message the session records for an answer. */
  function AnswerMessage(resp: ChatResponse): Message {
    Message("assistant", resp.content, Some(resp.toolCalls), None)
  }

  /** One pass of the loop: ask for an answer and record it; stop on a
      failure or an answer without calls, otherwise handle the calls and
      count the turn. */
  function LoopStep(s: LoopState, submissionId: string, env: SessionEnv): (r: LoopState)
    ensures r.stopped ==> r.turn == s.turn
    ensures !r.stopped ==> r.turn == s.turn + 1
    ensures !r.stopped <==> Answer(s.tools.history, env).Ok? && Answer(s.tools.history, env).value.toolCalls != []
                            && env.executorError.None?
  {
    var answer := Answer(s.tools.history, env);
    if answer.Err? then
      s.(tools := Emit(s.tools, submissionId, ErrorMsg(AIFailedPrefix + answer.error), env.now), stopped := true)
    else
      var resp := answer.value;
      var recorded := s.tools.(history := s.tools.history + [AnswerMessage(resp)]);
      var told := if resp.content != "" then Emit(recorded, submissionId, AgentMessage(resp.content), env.now) else recorded;
      var last := if resp.content != "" then Some(resp.content) else s.last;
      var usage := AddUsage(s.usage, resp.tokenUsage);
      if resp.toolCalls == [] then LoopState(told, usage, s.turn, last, true)
      else if env.executorError.Some? then
        LoopState(Emit(told, submissionId, ErrorMsg(AIFailedPrefix + env.executorError.value), env.now), usage, s.turn, last, true)
      else LoopState(ToolsUpTo(told, submissionId, resp.toolCalls, Outcomes(resp.toolCalls, env), |resp.toolCalls|, env.now),
                     usage, s.turn + 1, last, false)
  }

  /** The loop: passes until it breaks off or the turn counter reaches
      `maxTurns`. */
  function ReactLoop(s: LoopState, submissionId: string, env: SessionEnv, maxTurns: int): (r: LoopState)
    decreases maxTurns - s.turn, if s.stopped then 0 else 1
  {
    if s.stopped || s.turn >= maxTurns then s
    else ReactLoop(LoopStep(s, submissionId, env), submissionId, env, maxTurns)
  }

  /** The loop ends at the bound exactly when it did not break off, never
      goes past the bound, and counts one turn per pass whose calls were
      handled. */
  lemma {:induction false} ReactLoopEnds(s: LoopState, submissionId: string, env: SessionEnv, maxTurns: int)
    requires !s.stopped
    ensures var r := ReactLoop(s, submissionId, env, maxTurns);
      (r.stopped <==> r.turn < maxTurns) && s.turn <= r.turn && (s.turn <= maxTurns ==> r.turn <= maxTurns)
    decreases maxTurns - s.turn
  {
    if s.turn < maxTurns {
      var t := LoopStep(s, submissionId, env);
      if !t.stopped {
        ReactLoopEnds(t, submissionId, env, maxTurns);
      }
    }
  }

  /** The loop emits no completion. */
  lemma {:induction false} ReactLoopNoCompletion(s: LoopState, submissionId: string, env: SessionEnv, maxTurns: int)
    requires NoCompletion(s.tools.events)
    ensures NoCompletion(ReactLoop(s, submissionId, env, maxTurns).tools.events)
    decreases maxTurns - s.turn, if s.stopped then 0 else 1
  {
    if !s.stopped && s.turn < maxTurns {
      var r := LoopStep(s, submissionId, env);
      StepNoCompletion(s, submissionId, env);
      ReactLoopNoCompletion(r, submissionId, env, maxTurns);
    }
  }

  lemma StepNoCompletion(s: LoopState, submissionId: string, env: SessionEnv)
    requires NoCompletion(s.tools.events)
    ensures NoCompletion(LoopStep(s, submissionId, env).tools.events)
  {
    var answer := Answer(s.tools.history, env);
    if answer.Ok? && answer.value.toolCalls != [] && env.executorError.None? {
      var resp := answer.value;
      var recorded := s.tools.(history := s.tools.history + [AnswerMessage(resp)]);
      var told := if resp.content != "" then Emit(recorded, submissionId, AgentMessage(resp.content), env.now) else recorded;
      var os := Outcomes(resp.toolCalls, env);
      ToolsEvents(told, submissionId, resp.toolCalls, os, |resp.toolCalls|, env.now);
      RequestsNoCompletion(submissionId, resp.toolCalls, env, |resp.toolCalls|, env.now);
      NoCompletionAppend(told.events, RequestsUpTo(submissionId, os, |resp.toolCalls|, env.now));
    }
  }

  /** The error text when the loop reaches its bound. */
  function MaxTurnsText(maxTurns: int): string {
    "任务执行达到最大轮次限制 (" + IntToString(maxTurns) + ")，可能存在循环"
  }

  const DefaultCompletion := "任务已完成"

  /** The items' text a user input carries, when it has items. */
  function InputText(op: Op): Option<string> {
    if op.items.Some? && op.items.value != [] then Some(JoinSpace(ItemTexts(op.items.value))) else None
  }

  /** The start of `_handle_user_input`: the task-started event, then the
      user's text as a history entry and an event. */
  function Opened(s: ToolsState, sub: Submission, now: string): ToolsState {
    var started := Emit(s, sub.id, TaskStarted(None), now);
    var text := InputText(sub.op);
    if text.Some? then Emit(started.(history := started.history + [Message("user", text.value, None, None)]), sub.id, UserMessage(text.value), now)
    else started
  }

  /** The end of `_handle_user_input`: the bound's error when it was reached,
      then the completion with the last agent message or the default text. */
  function Closed(l: LoopState, submissionId: string, maxTurns: int, now: string): ToolsState {
    var warned := if l.turn >= maxTurns then Emit(l.tools, submissionId, ErrorMsg(MaxTurnsText(maxTurns)), now) else l.tools;
    Emit(warned, submissionId, TaskComplete(Some(if l.last.Some? then l.last.value else DefaultCompletion)), now)
  }

  /** `_handle_user_input` as a whole. */
  function UserInputRun(s: ToolsState, usage: TokenUsage, sub: Submission, env: SessionEnv, maxTurns: int): LoopState {
    var l := ReactLoop(LoopState(Opened(s, sub, env.now), usage, 0, None, false), sub.id, env, maxTurns);
    l.(tools := Closed(l, sub.id, maxTurns, env.now))
  }

  /** Every user input ends with exactly one completion, its last event. */
  lemma CompletesOnce(s: ToolsState, usage: TokenUsage, sub: Submission, env: SessionEnv, maxTurns: int)
    requires NoCompletion(s.events)
    ensures var es := UserInputRun(s, usage, sub, env, maxTurns).tools.events;
      |es| > 0 && es[|es| - 1].msg.msgType == "task_complete" && NoCompletion(es[..|es| - 1])
  {
    var o := Opened(s, sub, env.now);
    assert NoCompletion(o.events);
    var l := ReactLoop(LoopState(o, usage, 0, None, false), sub.id, env, maxTurns);
    ReactLoopNoCompletion(LoopState(o, usage, 0, None, false), sub.id, env, maxTurns);
    var es := UserInputRun(s, usage, sub, env, maxTurns).tools.events;
    assert es[..|es| - 1] == (if l.turn >= maxTurns then l.tools.events + [Event(sub.id, ErrorMsg(MaxTurnsText(maxTurns)), env.now)] else l.tools.events);
  }

  /** The user input's events after the loop's: the bound's error exactly
      when the loop ran to the bound rather than breaking off, then the
      completion. */
  lemma MaxTurnsWarning(s: ToolsState, usage: TokenUsage, sub: Submission, env: SessionEnv, maxTurns: int)
    ensures var r := UserInputRun(s, usage, sub, env, maxTurns);
      var l := ReactLoop(LoopState(Opened(s, sub, env.now), usage, 0, None, false), sub.id, env, maxTurns);
      r.tools.events == l.tools.events + (if l.turn >= maxTurns then [Event(sub.id, ErrorMsg(MaxTurnsText(maxTurns)), env.now)] else [])
                        + [Event(sub.id, TaskComplete(Some(if l.last.Some? then l.last.value else DefaultCompletion)), env.now)]
      && (l.turn >= maxTurns <==> !l.stopped)
  {
    var l0 := LoopState(Opened(s, sub, env.now), usage, 0, None, false);
    ReactLoopEnds(l0, sub.id, env, maxTurns);
  }

  const ApprovalMissingText := "未找到待批准的工具调用"
  const RejectedPrefix := "用户拒绝执行工具调用: "
  const ApprovedFailedPrefix := "批准后执行失败: "

  /** `_handle_exec_approval`, given the call id it looks up: an id that is
      missing, empty or not pending gives only an error event. Otherwise an
      approval runs the call and records its result, a refusal records the
      refusal naming the tool, and the entry is removed. */
  function ExecApprovalStep(s: ToolsState, sub: Submission, callId: Option<string>, env: SessionEnv): ToolsState {
    if callId.None? || callId.value == "" || callId.value !in s.pending then
      Emit(s, sub.id, ErrorMsg(ApprovalMissingText), env.now)
    else
      var id := callId.value;
      var p := s.pending[id];
      var decision := sub.op.decision;
      var answered :=
        if decision == Some("approved") || decision == Some("approved_for_session") then
          if env.executorError.Some? then
            s.(history := s.history + [ToolMessage(id, ApprovedFailedPrefix + env.executorError.value)])
          else
            var text := SafeResultText(p.toolName, p.arguments, env.run(p.toolName, p.arguments), env.codec);
            Emit(s.(history := s.history + [ToolMessage(id, text)]), sub.id,
                 EventMsg("approval_complete", map["call_id" := Str(id), "decision" := Str(decision.value),
                                                   "result" := Str("已执行")]), env.now)
        else
          Emit(s.(history := s.history + [ToolMessage(id, RejectedPrefix + p.toolName)]), sub.id,
               EventMsg("approval_rejected", map["call_id" := Str(id), "tool_name" := Str(p.toolName),
                                                 "reason" := Str("用户拒绝")]), env.now);
      answered.(pending := s.pending - {id})
  }

  /** The call id `_handle_exec_approval` reads, as written: the attribute
      `call_id`, which `Op` does not declare, so the lookup gives None. */
  function AsWrittenCallId(op: Op): Option<string> {
    None
  }

  /** As written, every answer to an approval is reported as not found, and
      a pending call stays pending, whatever the decision. */
  lemma ExecApprovalAsWrittenNeverFound(s: ToolsState, sub: Submission, env: SessionEnv, callId: string)
    requires callId in s.pending && callId != ""
    ensures ExecApprovalStep(s, sub, AsWrittenCallId(sub.op), env) == Emit(s, sub.id, ErrorMsg(ApprovalMissingText), env.now)
    ensures callId in ExecApprovalStep(s, sub, AsWrittenCallId(sub.op), env).pending
    ensures callId !in ExecApprovalStep(s, sub, Some(callId), env).pending
  {
  }

  /** Answering a pending call removes it and appends exactly one tool message
      answering it: the tool's result on approval, the refusal otherwise; an
      id that is not pending changes nothing but the events. */
  lemma ExecApprovalResolves(s: ToolsState, sub: Submission, callId: string, env: SessionEnv)
    ensures var r := ExecApprovalStep(s, sub, Some(callId), env);
      if callId != "" && callId in s.pending then
        var p := s.pending[callId];
        var approved := sub.op.decision == Some("approved") || sub.op.decision == Some("approved_for_session");
        r.pending == s.pending - {callId}
        && |r.history| == |s.history| + 1 && r.history[..|s.history|] == s.history
        && r.history[|s.history|].role == "tool" && r.history[|s.history|].toolCallId == Some(callId)
        && (!approved ==> r.history[|s.history|].content == RejectedPrefix + p.toolName)
        && (approved && env.executorError.None? ==>
              r.history[|s.history|].content == SafeResultText(p.toolName, p.arguments, env.run(p.toolName, p.arguments), env.codec))
      else
        r == Emit(s, sub.id, ErrorMsg(ApprovalMissingText), env.now)
  {
  }

  const UnknownOpPrefix := "未知操作类型: "

  /** `Session`: its model client, the calls waiting for approval, the token
      counters, the events it has emitted, in order, and the current task. */
  class Session {
    const client: ModelClient
    var approvalPending: map<string, PendingCall>
    var totalUsage: TokenUsage
    var events: seq<Event>
    var currentTaskId: Option<string>

    /** What the tool handling reads and changes. */
    ghost function Tools(): ToolsState
      reads this, client
    {
      ToolsState(client.history, approvalPending, events)
    }

    /** A new session: a fresh model client whose history holds the system
        prompt, nothing pending, zero usage and no events. */
    constructor (systemPrompt: string)
      ensures fresh(client) && client.history == [Message("system", systemPrompt, None, None)]
      ensures approvalPending == map[] && totalUsage == ZeroUsage() && events == [] && currentTaskId == None
    {
      var c := new ModelClient();
      client := c;
      approvalPending := map[];
      totalUsage := ZeroUsage();
      events := [];
      currentTaskId := None;
      new;
      c.AddSystemMessage(systemPrompt);
    }

    /** `_update_token_usage`. */
    method UpdateTokenUsage(usage: TokenUsage)
      modifies this
      ensures totalUsage == AddUsage(old(totalUsage), usage)
      ensures approvalPending == old(approvalPending) && events == old(events) && currentTaskId == old(currentTaskId)
    {
      totalUsage := AddUsage(totalUsage, usage);
    }

    /** `_handle_tool_calls`: when the tool executor cannot be made the
        error is raised before any call; otherwise each call in order is
        answered, or parked with its approval request. */
    method HandleToolCalls(submissionId: string, calls: seq<ToolCall>, env: SessionEnv) returns (r: Result<()>)
      modifies this, client
      ensures env.executorError.Some? ==> r == Err(env.executorError.value) && Tools() == old(Tools())
      ensures env.executorError.None? ==>
        r == Ok(()) && Tools() == ToolsUpTo(old(Tools()), submissionId, calls, Outcomes(calls, env), |calls|, env.now)
      ensures totalUsage == old(totalUsage) && currentTaskId == old(currentTaskId)
    {
      if env.executorError.Some? {
        return Err(env.executorError.value);
      }
      ghost var s0 := Tools();
      for i := 0 to |calls|
        invariant Tools() == ToolsUpTo(s0, submissionId, calls, Outcomes(calls, env), i, env.now)
        invariant totalUsage == old(totalUsage) && currentTaskId == old(currentTaskId)
      {
        HandleCall(submissionId, calls[i], env);
      }
      return Ok(());
    }

    /** One iteration of `_handle_tool_calls`: the call is answered, or
        parked and its approval requested (`_request_approval`). */
    method HandleCall(submissionId: string, call: ToolCall, env: SessionEnv)
      modifies this, client
      ensures Tools() == CallStep(old(Tools()), submissionId, call, Outcome(call, env), env.now)
      ensures totalUsage == old(totalUsage) && currentTaskId == old(currentTaskId)
    {
      var outcome := Outcome(call, env);
      match outcome
      case Answered(text) =>
        client.AddToolMessage(call.id, text);
      case Parked(args, request) =>
        approvalPending := approvalPending[call.id := PendingCall(submissionId, call.name, args, call.id)];
        if request.Err? {
          client.AddToolMessage(call.id, CallFailedPrefix + request.error);
        } else {
          events := events + [Event(submissionId, request.value, env.now)];
        }
    }

    /** One pass of `_handle_user_input`'s loop at turn `turn`; `stop` says
        whether the loop breaks off, `lastAfter` is the last agent message. */
    method ReactTurn(submissionId: string, env: SessionEnv, turn: nat, last: Option<string>)
      returns (stop: bool, lastAfter: Option<string>)
      modifies this, client
      ensures var r := LoopStep(LoopState(old(Tools()), old(totalUsage), turn, last, false), submissionId, env);
        Tools() == r.tools && totalUsage == r.usage && lastAfter == r.last && stop == r.stopped
      ensures currentTaskId == old(currentTaskId)
    {
      var answer := client.ChatCompletion(false, env.complete, (request: seq<Value>) => Err("no stream"));
      if answer.Err? {
        events := events + [Event(submissionId, ErrorMsg(AIFailedPrefix + answer.error), env.now)];
        return true, last;
      }
      var response := answer.value;
      UpdateTokenUsage(response.tokenUsage);
      client.AddAssistantMessage(response.content, Some(response.toolCalls));
      lastAfter := last;
      if response.content != "" {
        lastAfter := Some(response.content);
        events := events + [Event(submissionId, AgentMessage(response.content), env.now)];
      }
      if response.toolCalls == [] {
        return true, lastAfter;
      }
      var handled := HandleToolCalls(submissionId, response.toolCalls, env);
      if handled.Err? {
        events := events + [Event(submissionId, ErrorMsg(AIFailedPrefix + handled.error), env.now)];
        return true, lastAfter;
      }
      return false, lastAfter;
    }

    /** `_handle_user_input`: the task-started event and the user's text,
        the loop of at most `maxTurns` counted turns, the bound's error when
        it was reached and the completion. */
    method HandleUserInput(sub: Submission, env: SessionEnv, maxTurns: int)
      modifies this, client
      ensures var r := UserInputRun(old(Tools()), old(totalUsage), sub, env, maxTurns);
        Tools() == r.tools && totalUsage == r.usage
      ensures currentTaskId == old(currentTaskId)
    {
      OpenInput(sub, env);
      var turn, last := RunLoop(sub.id, env, maxTurns);
      if turn >= maxTurns {
        events := events + [Event(sub.id, ErrorMsg(MaxTurnsText(maxTurns)), env.now)];
      }
      events := events + [Event(sub.id, TaskComplete(Some(last.GetOr(DefaultCompletion))), env.now)];
    }

    /** The start of `_handle_user_input`. */
    method OpenInput(sub: Submission, env: SessionEnv)
      modifies this, client
      ensures Tools() == Opened(old(Tools()), sub, env.now)
      ensures totalUsage == old(totalUsage) && currentTaskId == old(currentTaskId)
    {
      events := events + [Event(sub.id, TaskStarted(None), env.now)];
      if sub.op.items.Some? && sub.op.items.value != [] {
        var userText := JoinSpace(ItemTexts(sub.op.items.value));
        client.AddUserMessage(userText);
        events := events + [Event(sub.id, UserMessage(userText), env.now)];
      }
    }

    /** The loop of `_handle_user_input`, from turn 0 with no agent message. */
    method RunLoop(submissionId: string, env: SessionEnv, maxTurns: int) returns (turn: nat, last: Option<string>)
      modifies this, client
      ensures var l := ReactLoop(LoopState(old(Tools()), old(totalUsage), 0, None, false), submissionId, env, maxTurns);
        Tools() == l.tools && totalUsage == l.usage && turn == l.turn && last == l.last
      ensures currentTaskId == old(currentTaskId)
    {
      turn, last := 0, None;
      ghost var final := ReactLoop(LoopState(Tools(), totalUsage, 0, None, false), submissionId, env, maxTurns);
      ghost var broke := false;
      while turn < maxTurns
        invariant ReactLoop(LoopState(Tools(), totalUsage, turn, last, false), submissionId, env, maxTurns) == final
        invariant currentTaskId == old(currentTaskId)
        decreases maxTurns - turn
      {
        var stop;
        stop, last := ReactTurn(submissionId, env, turn, last);
        if stop {
          broke := true;
          break;
        }
        turn := turn + 1;
      }
      assert final == LoopState(Tools(), totalUsage, turn, last, broke);
    }

    /** `_handle_exec_approval`, looking up the call id the answer names. */
    method HandleExecApproval(sub: Submission, callId: Option<string>, env: SessionEnv)
      modifies this, client
      ensures Tools() == ExecApprovalStep(old(Tools()), sub, callId, env)
      ensures totalUsage == old(totalUsage) && currentTaskId == old(currentTaskId)
    {
      if callId.None? || callId.value == "" || callId.value !in approvalPending {
        events := events + [Event(sub.id, ErrorMsg(ApprovalMissingText), env.now)];
        return;
      }
      var id := callId.value;
      var pending := approvalPending[id];
      var decision := sub.op.decision;
      if decision == Some("approved") || decision == Some("approved_for_session") {
        if env.executorError.Some? {
          client.AddToolMessage(id, ApprovedFailedPrefix + env.executorError.value);
        } else {
          var result := SafeResultText(pending.toolName, pending.arguments, env.run(pending.toolName, pending.arguments), env.codec);
          client.AddToolMessage(id, result);
          events := events + [Event(sub.id, EventMsg("approval_complete", map["call_id" := Str(id), "decision" := Str(decision.value),
                                                                               "result" := Str("已执行")]), env.now)];
        }
      } else {
        client.AddToolMessage(id, RejectedPrefix + pending.toolName);
        events := events + [Event(sub.id, EventMsg("approval_rejected", map["call_id" := Str(id), "tool_name" := Str(pending.toolName),
                                                                             "reason" := Str("用户拒绝")]), env.now)];
      }
      approvalPending := approvalPending - {id};
    }

    /** `_handle_interrupt`: the current task is dropped and an abort event
        emitted. */
    method HandleInterrupt(sub: Submission, env: SessionEnv)
      modifies this
      ensures currentTaskId == None
      ensures events == old(events) + [Event(sub.id, EventMsg("turn_aborted", map["reason" := Str("interrupted")]), env.now)]
      ensures approvalPending == old(approvalPending) && totalUsage == old(totalUsage)
    {
      currentTaskId := None;
      events := events + [Event(sub.id, EventMsg("turn_aborted", map["reason" := Str("interrupted")]), env.now)];
    }

    /** `_handle_submission`: dispatch on the operation's type; an unknown
        type gives only an error event. `approvalCallId` is the call id an
        execution approval answers. */
    method HandleSubmission(sub: Submission, approvalCallId: Option<string>, env: SessionEnv, maxTurns: int)
      modifies this, client
      ensures sub.op.opType == "user_input" ==>
        var r := UserInputRun(old(Tools()), old(totalUsage), sub, env, maxTurns);
        Tools() == r.tools && totalUsage == r.usage && currentTaskId == old(currentTaskId)
      ensures sub.op.opType == "interrupt" ==>
        Tools() == Emit(old(Tools()), sub.id, EventMsg("turn_aborted", map["reason" := Str("interrupted")]), env.now)
        && currentTaskId == None && totalUsage == old(totalUsage)
      ensures sub.op.opType == "exec_approval" ==>
        Tools() == ExecApprovalStep(old(Tools()), sub, approvalCallId, env)
        && currentTaskId == old(currentTaskId) && totalUsage == old(totalUsage)
      ensures sub.op.opType !in {"user_input", "interrupt", "exec_approval"} ==>
        Tools() == Emit(old(Tools()), sub.id, ErrorMsg(UnknownOpPrefix + sub.op.opType), env.now)
        && currentTaskId == old(currentTaskId) && totalUsage == old(totalUsage)
    {
      if sub.op.opType == "user_input" {
        HandleUserInput(sub, env, maxTurns);
      } else if sub.op.opType == "interrupt" {
        HandleInterrupt(sub, env);
      } else if sub.op.opType == "exec_approval" {
        HandleExecApproval(sub, approvalCallId, env);
      } else {
        events := events + [Event(sub.id, ErrorMsg(UnknownOpPrefix + sub.op.opType), env.now)];
      }
    }
  }
}
