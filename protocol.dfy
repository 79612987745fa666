/** The operation and event types exchanged with a session: approval and
    sandbox policies, submitted operations, token usage, event messages and
    their JSON form. Paths are strings; a timestamp is its ISO text. */
module Protocol {
  import opened Wrappers
  import opened Values

  /** `AskForApproval`. */
  datatype AskForApproval = UnlessTrusted | OnFailure | OnRequest | Never

  function ApprovalValue(a: AskForApproval): string {
    match a
    case UnlessTrusted => "unless_trusted"
    case OnFailure => "on_failure"
    case OnRequest => "on_request"
    case Never => "never"
  }

  /** `AskForApproval(s)`: the member with that value; any other string is
      a ValueError. */
  function ParseApproval(s: string): (r: Result<AskForApproval>)
    ensures r.Ok? ==> ApprovalValue(r.value) == s
  {
    if s == "unless_trusted" then Ok(UnlessTrusted)
    else if s == "on_failure" then Ok(OnFailure)
    else if s == "on_request" then Ok(OnRequest)
    else if s == "never" then Ok(Never)
    else Err("'" + s + "' is not a valid AskForApproval")
  }

  /** Every policy parses back from its value. */
  lemma ApprovalRoundTrip(a: AskForApproval)
    ensures ParseApproval(ApprovalValue(a)) == Ok(a)
  {
  }

  /** `SandboxPolicy`. */
  datatype SandboxPolicy = DangerFullAccess | ReadOnly | WorkspaceWrite

  function SandboxValue(p: SandboxPolicy): string {
    match p
    case DangerFullAccess => "danger_full_access"
    case ReadOnly => "read_only"
    case WorkspaceWrite => "workspace_write"
  }

  /** `SandboxPolicy(s)`. */
  function ParseSandbox(s: string): (r: Result<SandboxPolicy>)
    ensures r.Ok? ==> SandboxValue(r.value) == s
  {
    if s == "danger_full_access" then Ok(DangerFullAccess)
    else if s == "read_only" then Ok(ReadOnly)
    else if s == "workspace_write" then Ok(WorkspaceWrite)
    else Err("'" + s + "' is not a valid SandboxPolicy")
  }

  lemma SandboxRoundTrip(p: SandboxPolicy)
    ensures ParseSandbox(SandboxValue(p)) == Ok(p)
  {
  }

  /** `InputItem`. */
  datatype InputItem = InputItem(itemType: string, text: Option<string>, imageUrl: Option<string>, path: Option<string>)

  /** `Op`. */
  datatype Op = Op(
    opType: string,
    items: Option<seq<InputItem>>,
    cwd: Option<string>,
    approvalPolicy: Option<AskForApproval>,
    sandboxPolicy: Option<SandboxPolicy>,
    model: Option<string>,
    id: Option<string>,
    decision: Option<string>)

  /** `Op.user_input`: one text item; the working directory defaults to the
      process's, `processCwd`. */
  function UserInputOp(text: string, cwd: Option<string>, processCwd: string): (op: Op)
    ensures op.opType == "user_input"
    ensures op.items == Some([InputItem("text", Some(text), None, None)])
    ensures op.cwd == Some(if cwd.Some? then cwd.value else processCwd)
    ensures op.id == None && op.decision == None
  {
    Op("user_input", Some([InputItem("text", Some(text), None, None)]),
       Some(if cwd.Some? then cwd.value else processCwd), None, None, None, None, None)
  }

  /** `Op.interrupt`. */
  function InterruptOp(): (op: Op)
    ensures op.opType == "interrupt" && op.items == None
  {
    Op("interrupt", None, None, None, None, None, None, None)
  }

  /** `Op.exec_approval`. */
  function ExecApprovalOp(submissionId: string, decision: string): (op: Op)
    ensures op.opType == "exec_approval" && op.items == None
    ensures op.id == Some(submissionId) && op.decision == Some(decision)
  {
    Op("exec_approval", None, None, None, None, None, Some(submissionId), Some(decision))
  }

  /** The texts a session reads from an operation's items: the non-empty
      texts, in order. */
  function ItemTexts(items: seq<InputItem>): (r: seq<string>)
    ensures |r| <= |items|
    ensures forall i :: 0 <= i < |r| ==> r[i] != ""
  {
    if |items| == 0 then []
    else
      var t := items[0].text;
      (if t.Some? && t.value != "" then [t.value] else []) + ItemTexts(items[1..])
  }

  /** A user-input operation carries its text back to the session: joining
      the texts of its one item gives the text again (an empty text is
      dropped and the join of nothing is empty). */
  lemma UserInputText(text: string, cwd: Option<string>, processCwd: string)
    ensures var items := UserInputOp(text, cwd, processCwd).items.value;
      JoinSpace(ItemTexts(items)) == text
  {
    var items := [InputItem("text", Some(text), None, None)];
    assert items[1..] == [];
  }

  /** `" ".join(texts)`. */
  function JoinSpace(parts: seq<string>): string {
    if |parts| == 0 then "" else if |parts| == 1 then parts[0] else parts[0] + " " + JoinSpace(parts[1..])
  }

  /** `Submission`. */
  datatype Submission = Submission(id: string, op: Op, timestamp: string)

  /** `Submission.create`: `newId` is the fresh UUID text and `now` the
      creation time. */
  function CreateSubmission(op: Op, newId: string, now: string): (s: Submission)
    ensures s.op == op && s.id == newId
  {
    Submission(newId, op, now)
  }

  /** `TokenUsage`. */
  datatype TokenUsage = TokenUsage(inputTokens: int, outputTokens: int, totalTokens: int, cachedInputTokens: Option<int>)

  /** The all-default usage. */
  function ZeroUsage(): (u: TokenUsage)
    ensures IsZero(u)
  {
    TokenUsage(0, 0, 0, None)
  }

  /** `is_zero`: only the total is looked at. */
  predicate IsZero(u: TokenUsage) {
    u.totalTokens == 0
  }

  /** `EventMsg`. */
  datatype EventMsg = EventMsg(msgType: string, data: map<string, Value>)

  function OptStr(s: Option<string>): Value {
    if s.Some? then Str(s.value) else Null
  }

  function OptInt(i: Option<int>): Value {
    if i.Some? then Int(i.value) else Null
  }

  function TaskStarted(contextWindow: Option<int>): EventMsg {
    EventMsg("task_started", map["model_context_window" := OptInt(contextWindow)])
  }

  function TaskComplete(lastMessage: Option<string>): EventMsg {
    EventMsg("task_complete", map["last_agent_message" := OptStr(lastMessage)])
  }

  function AgentMessage(message: string): EventMsg {
    EventMsg("agent_message", map["message" := Str(message)])
  }

  function UserMessage(message: string): EventMsg {
    EventMsg("user_message", map["message" := Str(message)])
  }

  function ErrorMsg(message: string): EventMsg {
    EventMsg("error", map["message" := Str(message)])
  }

  function StrList(xs: seq<string>): (v: Value)
    ensures v.List? && |v.items| == |xs|
  {
    if |xs| == 0 then List([]) else List([Str(xs[0])] + StrList(xs[1..]).items)
  }

  function ExecCommandBegin(callId: string, command: seq<string>, cwd: string): EventMsg {
    EventMsg("exec_command_begin", map["call_id" := Str(callId), "command" := StrList(command), "cwd" := Str(cwd)])
  }

  function ExecCommandEnd(callId: string, stdout: string, stderr: string, exitCode: int): EventMsg {
    EventMsg("exec_command_end", map["call_id" := Str(callId), "stdout" := Str(stdout),
                                     "stderr" := Str(stderr), "exit_code" := Int(exitCode)])
  }

  /** The command is stored as given; callers pass a list of one value. */
  function ExecApprovalRequest(callId: string, command: seq<Value>, cwd: string, reason: Option<string>): EventMsg {
    EventMsg("exec_approval_request", map["call_id" := Str(callId), "command" := List(command),
                                          "cwd" := Str(cwd), "reason" := OptStr(reason)])
  }

  function TokenCount(u: TokenUsage): EventMsg {
    EventMsg("token_count", map["input_tokens" := Int(u.inputTokens), "output_tokens" := Int(u.outputTokens),
                                "total_tokens" := Int(u.totalTokens),
                                "cached_input_tokens" := OptInt(u.cachedInputTokens)])
  }

  /** The text an event message carries, under the key its factory uses. */
  function MessageText(m: EventMsg): Option<Value> {
    if m.msgType == "task_complete" then Get(m.data, "last_agent_message") else Get(m.data, "message")
  }

  /** The completion message keeps its text under "last_agent_message", the
      agent, user and error messages under "message". */
  lemma MessageTexts(text: string)
    ensures MessageText(TaskComplete(Some(text))) == Some(Str(text))
    ensures TaskComplete(Some(text)).data.Keys == {"last_agent_message"}
    ensures MessageText(AgentMessage(text)) == Some(Str(text))
    ensures MessageText(UserMessage(text)) == Some(Str(text))
    ensures MessageText(ErrorMsg(text)) == Some(Str(text))
  {
  }

  /** The usage `EventMsg.token_count` carries, read back from its data. */
  function UsageOf(m: EventMsg): Option<TokenUsage> {
    var d := m.data;
    if "input_tokens" in d && d["input_tokens"].Int? && "output_tokens" in d && d["output_tokens"].Int?
       && "total_tokens" in d && d["total_tokens"].Int? && "cached_input_tokens" in d
       && (d["cached_input_tokens"].Int? || d["cached_input_tokens"].Null?)
    then
      var c := d["cached_input_tokens"];
      Some(TokenUsage(d["input_tokens"].i, d["output_tokens"].i, d["total_tokens"].i,
                      if c.Int? then Some(c.i) else None))
    else None
  }

  /** `token_count` copies the four usage fields verbatim. */
  lemma TokenCountRoundTrip(u: TokenUsage)
    ensures UsageOf(TokenCount(u)) == Some(u)
    ensures TokenCount(u).data.Keys == {"input_tokens", "output_tokens", "total_tokens", "cached_input_tokens"}
  {
  }

  /** `Event`. */
  datatype Event = Event(id: string, msg: EventMsg, timestamp: string)

  /** `Event.to_json` as the JSON value it serialises: the id, the message
      as its type followed by its data (a data key "type" would override
      the type) and the timestamp. */
  function EventJson(e: Event): (v: Value)
    ensures v.Dict? && v.entries.Keys == {"id", "msg", "timestamp"}
    ensures v.entries["id"] == Str(e.id) && v.entries["timestamp"] == Str(e.timestamp)
  {
    Dict(map["id" := Str(e.id),
             "msg" := Dict(map["type" := Str(e.msg.msgType)] + e.msg.data),
             "timestamp" := Str(e.timestamp)])
  }

  /** Reading an event back from its JSON value. */
  function EventFromJson(v: Value): Option<Event> {
    if v.Dict? && "id" in v.entries && v.entries["id"].Str? && "timestamp" in v.entries
       && v.entries["timestamp"].Str? && "msg" in v.entries && v.entries["msg"].Dict?
       && "type" in v.entries["msg"].entries && v.entries["msg"].entries["type"].Str?
    then
      var m := v.entries["msg"].entries;
      Some(Event(v.entries["id"].s, EventMsg(m["type"].s, m - {"type"}), v.entries["timestamp"].s))
    else None
  }

  /** The JSON form loses nothing when the data has no "type" key; the
      message holds the type and every data key. */
  lemma EventJsonRoundTrip(e: Event)
    requires "type" !in e.msg.data
    ensures EventFromJson(EventJson(e)) == Some(e)
    ensures EventJson(e).entries["msg"].entries.Keys == {"type"} + e.msg.data.Keys
  {
    var m := map["type" := Str(e.msg.msgType)] + e.msg.data;
    assert m - {"type"} == e.msg.data;
  }

  /** A data key "type" overrides the message type in the JSON form. */
  lemma EventJsonTypeOverride(e: Event)
    requires "type" in e.msg.data
    ensures EventJson(e).entries["msg"].entries["type"] == e.msg.data["type"]
  {
  }

  /** `ReviewDecision`. */
  datatype ReviewDecision = Approved | ApprovedForSession | Denied | Abort

  function DecisionValue(d: ReviewDecision): string {
    match d
    case Approved => "approved"
    case ApprovedForSession => "approved_for_session"
    case Denied => "denied"
    case Abort => "abort"
  }
}
