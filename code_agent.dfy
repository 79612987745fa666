/** The ReAct coding agent: parsing the model's action text, rendering a
    step, building the message list, and the bounded reasoning loop of
    `process_query` with the conversation history it extends. The model,
    the two text patterns of the engine and the tool runs are supplied by
    the caller. */
module CodeAgent {
  import opened Wrappers
  import opened Values
  import opened Text

  /** `Message`; the timestamp and metadata are not modelled. */
  datatype AgentMessage = AgentMessage(role: string, content: string)

  /** `\w` restricted to ASCII: letters, digits and the underscore. */
  predicate IsWordChar(c: char) {
    'a' <= c <= 'z' || 'A' <= c <= 'Z' || '0' <= c <= '9' || c == '_'
  }

  /** The length of the run of word characters that starts `s`. */
  function WordPrefix(s: string): (n: nat)
    ensures n <= |s|
    ensures forall i :: 0 <= i < n ==> IsWordChar(s[i])
    ensures n < |s| ==> !IsWordChar(s[n])
  {
    if |s| > 0 && IsWordChar(s[0]) then 1 + WordPrefix(s[1..]) else 0
  }

  /** The position of the first ')' or line break in `s`, or -1: where the
      lazy `(.*?)\)` group stops, since `.` does not cross a line break. */
  function StopAt(s: string): (k: int)
    ensures -1 <= k < |s|
    ensures forall j :: 0 <= j < (if k == -1 then |s| else k) ==> s[j] != ')' && s[j] != '\n'
    ensures k >= 0 ==> s[k] == ')' || s[k] == '\n'
  {
    if s == [] then -1
    else if s[0] == ')' || s[0] == '\n' then 0
    else
      var k := StopAt(s[1..]);
      if k == -1 then -1 else k + 1
  }

  /** `re.match(r'(\w+)\((.*?)\)', text)`: the tool name and the text
      between the parentheses. */
  function MatchCall(text: string): (r: Option<(string, string)>)
    ensures r.Some? ==> r.value.0 != "" && forall i :: 0 <= i < |r.value.0| ==> IsWordChar(r.value.0[i])
    ensures r.Some? ==> forall i :: 0 <= i < |r.value.1| ==> r.value.1[i] != ')' && r.value.1[i] != '\n'
    ensures r.Some? ==>
      |r.value.0| + |r.value.1| + 2 <= |text| && text[..|r.value.0| + |r.value.1| + 2] == r.value.0 + "(" + r.value.1 + ")"
  {
    var n := WordPrefix(text);
    if n == 0 || n == |text| || text[n] != '(' then None
    else
      var rest := text[n + 1..];
      var k := StopAt(rest);
      if k == -1 || rest[k] != ')' then None
      else
        var name, args := text[..n], rest[..k];
        assert forall i :: 0 <= i < |args| ==> args[i] == rest[i];
        assert text[..n + k + 2] == name + "(" + args + ")";
        Some((name, args))
  }

  /** Conversely, a name of word characters, an opening parenthesis, text
      free of ')' and line breaks, and a closing parenthesis are matched
      whatever follows. */
  lemma MatchCallComplete(name: string, args: string, tail: string)
    requires name != "" && forall i :: 0 <= i < |name| ==> IsWordChar(name[i])
    requires forall i :: 0 <= i < |args| ==> args[i] != ')' && args[i] != '\n'
    ensures MatchCall(name + "(" + args + ")" + tail) == Some((name, args))
  {
    var text := name + "(" + args + ")" + tail;
    WordPrefixExact(text, |name|);
    var rest := text[|name| + 1..];
    assert rest == args + ")" + tail;
    StopAtExact(rest, |args|);
    assert text[..|name|] == name;
    assert rest[..|args|] == args;
  }

  lemma WordPrefixExact(s: string, n: nat)
    requires n < |s| && (forall i :: 0 <= i < n ==> IsWordChar(s[i])) && !IsWordChar(s[n])
    ensures WordPrefix(s) == n
  {
  }

  lemma StopAtExact(s: string, k: nat)
    requires k < |s| && s[k] == ')' && forall j :: 0 <= j < k ==> s[j] != ')' && s[j] != '\n'
    ensures StopAt(s) == k
  {
  }

  predicate IsQuote(c: char) {
    c == '"' || c == '\''
  }

  /** `s.strip('"\'')`. */
  function StripQuotes(s: string): (r: string)
    ensures r == [] || (!IsQuote(r[0]) && !IsQuote(r[|r| - 1]))
    ensures |r| <= |s|
    decreases |s|
  {
    if |s| > 0 && IsQuote(s[0]) then StripQuotes(s[1..])
    else if |s| > 0 && IsQuote(s[|s| - 1]) then StripQuotes(s[..|s| - 1])
    else s
  }

  /** One comma-separated piece: with an '=', its stripped key and its
      stripped, unquoted value, split at the first '='. */
  function ParamEntry(piece: string): (r: Option<(string, string)>)
    ensures r.Some? <==> Contains(piece, "=")
  {
    var i := Find(piece, "=");
    if i == -1 then None else Some((Strip(piece[..i]), StripQuotes(Strip(piece[i + 1..]))))
  }

  /** The parameters the pieces give, later pieces overwriting earlier ones
      with the same key. */
  function ParamsOf(pieces: seq<string>): map<string, Value> {
    if pieces == [] then map[]
    else Put(ParamsOf(pieces[..|pieces| - 1]), ParamEntry(pieces[|pieces| - 1]))
  }

  /** The parameters after one more piece: its entry, when it has one,
      overwrites the key. */
  function Put(m: map<string, Value>, entry: Option<(string, string)>): map<string, Value> {
    if entry.None? then m else m[entry.value.0 := Str(entry.value.1)]
  }

  /** A key is set exactly when some piece holding an '=' names it. */
  lemma {:induction false} ParamsKeys(pieces: seq<string>, k: string)
    ensures k in ParamsOf(pieces) <==>
      exists i :: 0 <= i < |pieces| && ParamEntry(pieces[i]).Some? && ParamEntry(pieces[i]).value.0 == k
  {
    if pieces != [] {
      var n := |pieces| - 1;
      var init := pieces[..n];
      ParamsKeys(init, k);
      assert forall i :: 0 <= i < n ==> init[i] == pieces[i];
      assert ParamsOf(pieces) == Put(ParamsOf(init), ParamEntry(pieces[n]));
    }
  }

  /** The value of a key is the one its last piece gives. */
  lemma {:induction false} ParamsLastWins(pieces: seq<string>, i: nat)
    requires i < |pieces| && ParamEntry(pieces[i]).Some?
    requires forall j :: i < j < |pieces| ==>
      ParamEntry(pieces[j]).None? || ParamEntry(pieces[j]).value.0 != ParamEntry(pieces[i]).value.0
    ensures ParamEntry(pieces[i]).value.0 in ParamsOf(pieces)
    ensures ParamsOf(pieces)[ParamEntry(pieces[i]).value.0] == Str(ParamEntry(pieces[i]).value.1)
  {
    var n := |pieces| - 1;
    var init := pieces[..n];
    var e := ParamEntry(pieces[i]).value;
    assert ParamsOf(pieces) == Put(ParamsOf(init), ParamEntry(pieces[n]));
    if i < n {
      assert init[i] == pieces[i];
      assert forall j :: i < j < |init| ==> init[j] == pieces[j];
      ParamsLastWins(init, i);
      assert e.0 in ParamsOf(init) && ParamsOf(init)[e.0] == Str(e.1);
    }
  }

  /** The parameters of the text between the parentheses: none for empty
      text, else those of its comma-separated pieces. */
  function ArgsParams(args: string): map<string, Value> {
    if args == "" then map[] else ParamsOf(Split(args, ","))
  }

  /** `_parse_action` as a value: text in braces is JSON (None when it does
      not parse); `name(k=v, ...)` gives the tool and its parameters; other
      text gives None. */
  function ActionOf(text: string, codec: Codec): Option<Value> {
    if StartsWith(text, "{") && EndsWith(text, "}") then
      var parsed := codec.loads(text);
      if parsed.Ok? then Some(parsed.value) else None
    else
      var m := MatchCall(text);
      if m.None? then None
      else Some(Dict(map["tool" := Str(m.value.0), "parameters" := Dict(ArgsParams(m.value.1))]))
  }

  /** `_parse_action`. */
  method ParseAction(text: string, codec: Codec) returns (r: Option<Value>)
    ensures r == ActionOf(text, codec)
  {
    if StartsWith(text, "{") && EndsWith(text, "}") {
      var parsed := codec.loads(text);
      return if parsed.Ok? then Some(parsed.value) else None;
    }
    var m := MatchCall(text);
    if m.None? {
      return None;
    }
    var params := ParseParams(m.value.1);
    return Some(Dict(map["tool" := Str(m.value.0), "parameters" := Dict(params)]));
  }

  /** The loop of `_parse_action` over the comma-separated pieces. */
  method ParseParams(args: string) returns (params: map<string, Value>)
    ensures params == ArgsParams(args)
  {
    params := map[];
    if args != "" {
      var pieces := Split(args, ",");
      for i := 0 to |pieces|
        invariant params == ParamsOf(pieces[..i])
      {
        assert pieces[..i + 1][..i] == pieces[..i];
        var entry := ParamEntry(pieces[i]);
        assert ParamsOf(pieces[..i + 1]) == Put(params, entry);
        if entry.Some? {
          params := params[entry.value.0 := Str(entry.value.1)];
        }
      }
      assert pieces[..|pieces|] == pieces;
    }
  }

  /** A call-form action names the tool before the parenthesis and carries
      one parameter per distinct key. */
  lemma CallActionSpec(name: string, args: string, tail: string, codec: Codec)
    requires name != "" && forall i :: 0 <= i < |name| ==> IsWordChar(name[i])
    requires forall i :: 0 <= i < |args| ==> args[i] != ')' && args[i] != '\n'
    ensures var text := name + "(" + args + ")" + tail;
      !StartsWith(text, "{") ==>
        ActionOf(text, codec) ==
          Some(Dict(map["tool" := Str(name), "parameters" := Dict(ArgsParams(args))]))
  {
    MatchCallComplete(name, args, tail);
  }

  /** What the engine's two patterns capture in a reply: the text after
      "思考:" and the text after "行动:", when they occur. */
  datatype Matches = Matches(thought: Option<string>, action: Option<string>)

  /** One reasoning step: `_parse_response`'s dict, with the observation
      `reason_and_act` adds. */
  datatype ReActStep = ReActStep(thought: string, action: Option<Value>, finalAnswer: string, observation: Option<string>)

  /** The action is present and truthy. */
  predicate Acts(s: ReActStep) {
    s.action.Some? && Truthy(s.action.value)
  }

  /** `_parse_response`: the stripped captures, and the stripped reply as the
      final answer exactly when no truthy action was parsed. */
  function ParseResponse(response: string, found: Matches, codec: Codec): (r: ReActStep)
    ensures !Acts(r) ==> r.finalAnswer == Strip(response)
    ensures Acts(r) ==> r.finalAnswer == ""
    ensures found.action.None? ==> r.action.None?
    ensures r.observation.None?
  {
    var thought := if found.thought.Some? then Strip(found.thought.value) else "";
    var action := if found.action.Some? then ActionOf(Strip(found.action.value), codec) else None;
    var acts := action.Some? && Truthy(action.value);
    ReActStep(thought, action, if acts then "" else Strip(response), None)
  }

  /** The parts `format_response` joins, in order. */
  function ResponseParts(s: ReActStep, codec: Codec): seq<string> {
    (if s.thought != "" then ["思考：" + s.thought] else [])
    + (if Acts(s) then ["行动：使用工具 " + FieldText(s.action.value, "tool", "未知", codec)] else [])
    + (if s.observation.Some? && s.observation.value != "" then ["观察：" + s.observation.value] else [])
    + (if s.finalAnswer != "" then [s.finalAnswer] else [])
  }

  /** `ResultProcessor.format_response`. */
  function FormatResponse(s: ReActStep, codec: Codec): string {
    var parts := ResponseParts(s, codec);
    if parts == [] then "无响应内容" else Join(parts, "\n\n")
  }

  /** The fallback is given exactly when no part is present, and otherwise
      the thought comes first and the final answer last. */
  lemma FormatResponseSpec(s: ReActStep, codec: Codec)
    ensures ResponseParts(s, codec) == [] <==>
      s.thought == "" && !Acts(s) && (s.observation.None? || s.observation.value == "") && s.finalAnswer == ""
    ensures ResponseParts(s, codec) == [] ==> FormatResponse(s, codec) == "无响应内容"
    ensures s.thought != "" ==> StartsWith(FormatResponse(s, codec), "思考：" + s.thought)
    ensures s.finalAnswer != "" ==> EndsWith(FormatResponse(s, codec), s.finalAnswer)
  {
    var parts := ResponseParts(s, codec);
    if s.thought != "" {
      JoinStartsWith(parts, "\n\n");
    }
    if s.finalAnswer != "" {
      JoinEndsWith(parts, "\n\n");
    }
  }

  /** A join ends with its last part. */
  lemma {:induction false} JoinEndsWith(parts: seq<string>, sep: string)
    requires parts != []
    ensures EndsWith(Join(parts, sep), parts[|parts| - 1])
  {
    if |parts| > 1 {
      JoinEndsWith(parts[1..], sep);
      var rest := Join(parts[1..], sep);
      var whole := parts[0] + sep + rest;
      assert Join(parts, sep) == whole;
      var last := parts[|parts| - 1];
      assert whole[|whole| - |last|..] == rest[|rest| - |last|..];
    }
  }

  const DefaultSystemPrompt: string := "你是一个专业的编程助手，帮助用户解决编程问题。"

  /** `_load_system_prompt`: the prompt file's text, or the built-in prompt
      when it cannot be read. */
  function LoadSystemPrompt(file: Option<string>): (r: string)
    ensures file.Some? ==> r == file.value
    ensures file.None? ==> r == DefaultSystemPrompt
  {
    if file.Some? then file.value else DefaultSystemPrompt
  }

  /** `MessageProcessor.process_user_input`. */
  function ProcessUserInput(userInput: string, history: seq<AgentMessage>, systemPrompt: string)
    : (r: seq<AgentMessage>)
    ensures history == [] ==> r == [AgentMessage("system", systemPrompt), AgentMessage("user", userInput)]
    ensures history != [] ==> r == history + [AgentMessage("user", userInput)]
  {
    (if history == [] then [AgentMessage("system", systemPrompt)] else []) + history + [AgentMessage("user", userInput)]
  }

  /** The environment of the loop: the model's reply for a turn and message
      list (an error when the call raises), the engine's patterns, what
      `_execute_action` returns for an action, and the JSON codec. */
  datatype Env = Env(llm: (nat, seq<AgentMessage>) -> Result<string>, find: string -> Matches,
                     act: Value -> string, codec: Codec)

  /** `reason_and_act`: ask the model, parse the reply, and run a truthy
      action. */
  function ReasonAndAct(messages: seq<AgentMessage>, turn: nat, env: Env): Result<ReActStep> {
    match env.llm(turn, messages)
    case Err(e) => Err(e)
    case Ok(reply) =>
      var parsed := ParseResponse(reply, env.find(reply), env.codec);
      Ok(if Acts(parsed) then parsed.(observation := Some(env.act(parsed.action.value))) else parsed)
  }

  const GiveUp: string := "抱歉，经过多轮推理仍未找到满意的答案，请尝试重新描述问题或提供更多信息。"

  /** The two messages a step with an observation adds to the list. */
  function StepMessages(s: ReActStep, codec: Codec): seq<AgentMessage>
    requires s.action.Some? && s.observation.Some?
  {
    [AgentMessage("assistant", "思考：" + s.thought + "\n行动：" + FieldText(s.action.value, "tool", "", codec)),
     AgentMessage("tool", "观察：" + s.observation.value)]
  }

  /** The reply of the loop from `turn` on: the formatted first step with a
      final answer, the give-up text after `maxTurns` turns, or the error a
      model call raised. */
  function Run(messages: seq<AgentMessage>, turn: nat, maxTurns: int, env: Env): Result<string>
    decreases if turn < maxTurns then maxTurns - turn else 0
  {
    if turn >= maxTurns then Ok(GiveUp)
    else
      match ReasonAndAct(messages, turn, env)
      case Err(e) => Err(e)
      case Ok(step) =>
        if step.finalAnswer != "" then Ok(FormatResponse(step, env.codec))
        else
          var next := if step.observation.Some? && step.observation.value != ""
                      then messages + StepMessages(step, env.codec) else messages;
          Run(next, turn + 1, maxTurns, env)
  }

  /** The loop asks the model only for turns below `maxTurns`: two models
      that agree on those turns give the same reply. */
  lemma {:induction false} RunBounded(messages: seq<AgentMessage>, turn: nat, maxTurns: int, env: Env,
                                      llm2: (nat, seq<AgentMessage>) -> Result<string>)
    requires forall t: nat, ms :: t < maxTurns ==> env.llm(t, ms) == llm2(t, ms)
    ensures Run(messages, turn, maxTurns, env) == Run(messages, turn, maxTurns, env.(llm := llm2))
    decreases if turn < maxTurns then maxTurns - turn else 0
  {
    if turn < maxTurns {
      var env2 := env.(llm := llm2);
      assert ReasonAndAct(messages, turn, env) == ReasonAndAct(messages, turn, env2);
      match ReasonAndAct(messages, turn, env)
      case Err(_) =>
      case Ok(step) =>
        if step.finalAnswer == "" {
          var next := if step.observation.Some? && step.observation.value != ""
                      then messages + StepMessages(step, env.codec) else messages;
          RunBounded(next, turn + 1, maxTurns, env, llm2);
        }
    }
  }

  /** When no reply ever carries a final answer, the loop gives up. */
  lemma {:induction false} RunGivesUp(messages: seq<AgentMessage>, turn: nat, maxTurns: int, env: Env)
    requires forall t: nat, ms :: ReasonAndAct(ms, t, env).Ok? && ReasonAndAct(ms, t, env).value.finalAnswer == ""
    ensures Run(messages, turn, maxTurns, env) == Ok(GiveUp)
    decreases if turn < maxTurns then maxTurns - turn else 0
  {
    if turn < maxTurns {
      var step := ReasonAndAct(messages, turn, env).value;
      var next := if step.observation.Some? && step.observation.value != ""
                  then messages + StepMessages(step, env.codec) else messages;
      RunGivesUp(next, turn + 1, maxTurns, env);
    }
  }

  /** A first reply whose text has no truthy action ends the loop at once
      with that text as the answer, provided it is not blank. */
  lemma FirstReplyFinal(messages: seq<AgentMessage>, maxTurns: int, env: Env, reply: string)
    requires maxTurns > 0 && env.llm(0, messages) == Ok(reply)
    requires !Acts(ParseResponse(reply, env.find(reply), env.codec)) && Strip(reply) != ""
    ensures Run(messages, 0, maxTurns, env) ==
      Ok(FormatResponse(ParseResponse(reply, env.find(reply), env.codec), env.codec))
  {
  }

  /** The reply `process_query` returns for a query, given the history
      before it. */
  function QueryResponse(query: string, history: seq<AgentMessage>, systemPrompt: string, maxTurns: int, env: Env)
    : string
  {
    match Run(ProcessUserInput(query, history, systemPrompt), 0, maxTurns, env)
    case Ok(text) => text
    case Err(e) => "处理查询时发生错误：" + e
  }

  class CodeAgent {
    var conversationHistory: seq<AgentMessage>
    const maxTurns: int
    const systemPrompt: string

    /** The agent with an empty history; `promptFile` is the system prompt
        file's text when it can be read. */
    constructor (maxTurns: int, promptFile: Option<string>)
      ensures conversationHistory == [] && this.maxTurns == maxTurns
      ensures systemPrompt == LoadSystemPrompt(promptFile)
    {
      this.maxTurns := maxTurns;
      systemPrompt := LoadSystemPrompt(promptFile);
      conversationHistory := [];
    }

    /** `process_query`: every exit appends the query and the reply to the
        history, and nothing else. */
    method ProcessQuery(query: string, env: Env) returns (response: string)
      modifies this
      ensures response == QueryResponse(query, old(conversationHistory), systemPrompt, maxTurns, env)
      ensures conversationHistory ==
        old(conversationHistory) + [AgentMessage("user", query), AgentMessage("assistant", response)]
    {
      var messages := ProcessUserInput(query, conversationHistory, systemPrompt);
      ghost var outcome := Run(messages, 0, maxTurns, env);
      var turn: nat := 0;
      while turn < maxTurns
        invariant Run(messages, turn, maxTurns, env) == outcome
        invariant conversationHistory == old(conversationHistory)
        decreases maxTurns - turn
      {
        var result := ReasonAndAct(messages, turn, env);
        if result.Err? {
          response := "处理查询时发生错误：" + result.error;
          conversationHistory := conversationHistory + [AgentMessage("user", query), AgentMessage("assistant", response)];
          return;
        }
        var step := result.value;
        if step.finalAnswer != "" {
          response := FormatResponse(step, env.codec);
          conversationHistory := conversationHistory + [AgentMessage("user", query), AgentMessage("assistant", response)];
          return;
        }
        if step.observation.Some? && step.observation.value != "" {
          messages := messages + [AgentMessage("assistant", "思考：" + step.thought + "\n行动：" + FieldText(step.action.value, "tool", "", env.codec)),
                                  AgentMessage("tool", "观察：" + step.observation.value)];
        }
        turn := turn + 1;
      }
      response := GiveUp;
      conversationHistory := conversationHistory + [AgentMessage("user", query), AgentMessage("assistant", response)];
    }

    /** `clear_history`. */
    method ClearHistory()
      modifies this
      ensures conversationHistory == []
    {
      conversationHistory := [];
    }
  }
}
