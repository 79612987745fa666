/** The simple controller's think-act-observe loop: parsing the model's
    thought into an action, formatting the recent history for the prompts,
    running a tool action through the dispatcher, and the main loop bounded
    by `max_turns`. The model calls and the dispatcher are supplied by the
    caller. */
module SimpleController {
  import opened Wrappers
  import opened Values
  import opened Text

  /** The dict `_parse_thought` returns. */
  datatype Thought = Thought(reasoning: string, actionType: Value, action: map<string, Value>)

  const Marker: string := "ACTION:"

  /** The fallback: the whole text is the reasoning and the task is
      complete. */
  function Complete(text: string): Thought {
    Thought(text, Str("complete"), map[])
  }

  /** `_parse_thought`: with "ACTION:" in the text, the piece between its
      first and second occurrence (or the end), stripped, is read as JSON
      when it starts with '{'; a JSON object gives the action, with the text
      before the first "ACTION:" as the reasoning. Everything else, a
      decoding error and a JSON value that is not an object included, gives
      the fallback. */
  function ParseThought(text: string, codec: Codec): Thought {
    if Contains(text, Marker) then
      var parts := Split(text, Marker);
      var actionPart := Strip(parts[1]);
      if StartsWith(actionPart, "{") then
        match codec.loads(actionPart)
        case Ok(Dict(m)) => Thought(Strip(parts[0]), if "type" in m then m["type"] else Str("unknown"), m)
        case _ => Complete(text)
      else Complete(text)
    else Complete(text)
  }

  /** Without the marker, or when the action part is not a JSON object, the
      text is taken as complete; otherwise the reasoning is the stripped text
      before the first marker and the type defaults to "unknown". */
  lemma ParseThoughtSpec(text: string, codec: Codec)
    ensures var r := ParseThought(text, codec);
      (r == Complete(text) || (Contains(text, Marker) && r.reasoning == Strip(text[..Find(text, Marker)]))) &&
      (!Contains(text, Marker) ==> r == Complete(text)) &&
      (r != Complete(text) ==> ("type" in r.action ==> r.actionType == r.action["type"]) &&
                               ("type" !in r.action ==> r.actionType == Str("unknown")))
  {
    if Contains(text, Marker) {
      var i := Find(text, Marker);
      assert Split(text, Marker)[0] == text[..i];
    }
  }

  /** An occurrence of the marker cannot start inside a text free of it and
      run into a marker that follows: the first one is right after the
      text. */
  lemma FirstMarker(before: string, tail: string)
    requires !Contains(before, Marker)
    ensures Find(before + Marker + tail, Marker) == |before|
  {
    var text := before + Marker + tail;
    FindSpec(before, Marker);
    assert text[|before|..|before| + |Marker|] == Marker;
    assert OccursAt(text, Marker, |before|);
    forall q | 0 <= q < |before|
      ensures !OccursAt(text, Marker, q)
    {
      if q + |Marker| <= |before| {
        assert text[q..q + |Marker|] == before[q..q + |Marker|];
        assert !OccursAt(before, Marker, q);
      } else {
        assert text[|before|] == 'A';
        assert Marker[|before| - q] != 'A';
        assert text[q..q + |Marker|][|before| - q] == text[|before|];
      }
    }
    FindSpec(text, Marker);
  }

  /** Splitting at the first marker. */
  lemma SplitAtFirst(before: string, tail: string)
    requires !Contains(before, Marker)
    ensures Split(before + Marker + tail, Marker) == [before] + Split(tail, Marker)
  {
    var text := before + Marker + tail;
    FirstMarker(before, tail);
    assert text[..|before|] == before;
    assert text[|before| + |Marker|..] == tail;
  }

  /** A text free of the marker is its own only piece. */
  lemma SplitNone(s: string)
    requires !Contains(s, Marker)
    ensures Split(s, Marker) == [s]
  {
  }

  /** The pieces a thought is parsed from: the text before the first marker
      and the piece after it. */
  lemma ParseByPieces(text: string, before: string, piece: string, codec: Codec, m: map<string, Value>)
    requires Contains(text, Marker) && |Split(text, Marker)| >= 2
    requires Split(text, Marker)[0] == before && Split(text, Marker)[1] == piece
    requires StartsWith(piece, "{") && Strip(piece) == piece && codec.loads(piece) == Ok(Dict(m))
    ensures ParseThought(text, codec) == Thought(Strip(before), if "type" in m then m["type"] else Str("unknown"), m)
  {
  }

  /** The inverse of writing a thought: a reasoning free of the marker, the
      marker, and a JSON object's text free of it (with nothing to strip)
      parse back into that reasoning and that object. */
  lemma ThoughtRoundTrip(reasoning: string, json: string, m: map<string, Value>, codec: Codec)
    requires !Contains(reasoning, Marker) && !Contains(json, Marker)
    requires StartsWith(json, "{") && Strip(json) == json && codec.loads(json) == Ok(Dict(m))
    ensures ParseThought(reasoning + Marker + json, codec) ==
      Thought(Strip(reasoning), if "type" in m then m["type"] else Str("unknown"), m)
  {
    var text := reasoning + Marker + json;
    FirstMarker(reasoning, json);
    SplitAtFirst(reasoning, json);
    SplitNone(json);
    ParseByPieces(text, reasoning, json, codec, m);
  }

  /** Only the piece up to a second marker is read as the action: whatever
      follows it is ignored. */
  lemma SecondMarkerCuts(reasoning: string, json: string, rest: string, m: map<string, Value>, codec: Codec)
    requires !Contains(reasoning, Marker) && !Contains(json, Marker)
    requires StartsWith(json, "{") && Strip(json) == json && codec.loads(json) == Ok(Dict(m))
    ensures ParseThought(reasoning + Marker + json + Marker + rest, codec) ==
      Thought(Strip(reasoning), if "type" in m then m["type"] else Str("unknown"), m)
  {
    var tail := json + Marker + rest;
    var text := reasoning + Marker + tail;
    assert reasoning + Marker + json + Marker + rest == text;
    FirstMarker(reasoning, tail);
    SplitAtFirst(reasoning, tail);
    SplitAtFirst(json, rest);
    ParseByPieces(text, reasoning, json, codec, m);
  }

  /** An entry of `context['conversation_history']`. */
  datatype Entry = ToolCallEntry(action: map<string, Value>, result: string) | ContentEntry(content: string)

  /** The line `_format_history` writes for entry number `k`. */
  function HistoryLine(k: nat, e: Entry, codec: Codec): (r: string)
    ensures StartsWith(r, NatToString(k) + ". ")
  {
    var number := NatToString(k) + ". ";
    assert (number + EntryText(e, codec))[..|number|] == number;
    number + EntryText(e, codec)
  }

  /** What follows the number: the tool and the first 100 characters of its
      result, or the first 100 characters of the generated content. */
  function EntryText(e: Entry, codec: Codec): string {
    match e
    case ToolCallEntry(action, result) =>
      "Tool: " + FieldText(Dict(action), "tool", "unknown", codec) + " -> " + Take(result, 100) + "..."
    case ContentEntry(content) =>
      "Generated: " + Take(content, 100) + "..."
  }

  /** `history[-5:]`. */
  function Recent(history: seq<Entry>): (r: seq<Entry>)
    ensures |r| == if |history| < 5 then |history| else 5
    ensures r == history[|history| - |r|..]
  {
    PySlice(history, -5, |history|)
  }

  /** The lines for the entries, numbered from 1. */
  function HistoryLines(entries: seq<Entry>, codec: Codec): (r: seq<string>)
    ensures |r| == |entries|
    ensures forall i :: 0 <= i < |entries| ==> r[i] == HistoryLine(i + 1, entries[i], codec)
  {
    seq(|entries|, i requires 0 <= i < |entries| => HistoryLine(i + 1, entries[i], codec))
  }

  /** `_format_history`. */
  function FormatHistory(history: seq<Entry>, codec: Codec): string {
    if history == [] then "(No previous actions)"
    else Join(HistoryLines(Recent(history), codec), "\n")
  }

  /** The lines show the last (at most) five entries, in order, the oldest
      of them as number 1; an older entry is never shown. */
  lemma FormatHistoryShows(history: seq<Entry>, codec: Codec, i: nat)
    requires history != [] && i < |Recent(history)|
    ensures var lines := HistoryLines(Recent(history), codec);
      |lines| <= 5 && FormatHistory(history, codec) == Join(lines, "\n") &&
      lines[i] == HistoryLine(i + 1, history[|history| - |lines| + i], codec)
  {
    var recent := Recent(history);
    var lines := HistoryLines(recent, codec);
    assert recent[i] == history[|history| - |recent| + i];
    assert lines[i] == HistoryLine(i + 1, recent[i], codec);
  }

  /** The text opens with entry number 1. */
  lemma FormatHistoryHead(history: seq<Entry>, codec: Codec)
    requires history != []
    ensures StartsWith(FormatHistory(history, codec), NatToString(1) + ". ")
  {
    var lines := HistoryLines(Recent(history), codec);
    JoinStartsWith(lines, "\n");
    var head := NatToString(1) + ". ";
    assert StartsWith(lines[0], head);
    assert Join(lines, "\n")[..|head|] == Join(lines, "\n")[..|lines[0]|][..|head|];
  }

  /** The numbered plan lines of both prompts. */
  function PlanLines(plan: seq<string>): string {
    Join(seq(|plan|, i requires 0 <= i < |plan| => NatToString(i + 1) + ". " + plan[i]), "\n")
  }

  /** `_build_user_prompt`. */
  function UserPrompt(goal: string, plan: seq<string>, history: seq<Entry>, codec: Codec): string {
    Strip("\nGOAL: " + goal + "\n\nPLAN:\n" + PlanLines(plan) + "\n\nCONVERSATION HISTORY:\n"
          + FormatHistory(history, codec)
          + "\n\nWhat should I do next? Consider the goal, plan, and previous actions.\n")
  }

  /** The user prompt of `_generate_content`. */
  function ContentPrompt(goal: string, plan: seq<string>, history: seq<Entry>, request: Value, codec: Codec): string {
    "CONTEXT:\nGoal: " + goal + "\n\nPlan Progress:\n" + PlanLines(plan) + "\n\nPrevious Actions:\n"
    + FormatHistory(history, codec) + "\n\nCONTENT REQUEST:\n" + Display(request, codec)
    + "\n\nGenerate content that aligns with the goal and builds upon previous actions."
  }

  /** The collaborators: the think call and the content call (turn number
      and user prompt to the reply's content, or the error raised, a missing
      content included), the dispatcher (tool name and parameters to its
      answer or the error raised), and the JSON codec. */
  datatype Env = Env(think: (nat, string) -> Result<string>, generate: (nat, string) -> Result<string>,
                     dispatch: (Value, Value) -> Result<string>, codec: Codec)

  /** `_execute_tool_action`: the dispatcher's answer, or an error text
      naming the tool. */
  function ExecuteToolAction(action: map<string, Value>, env: Env): (r: string)
    ensures var name := if "tool" in action then action["tool"] else Str("");
      var params := if "params" in action then action["params"] else Dict(map[]);
      (env.dispatch(name, params).Ok? ==> r == env.dispatch(name, params).value) &&
      (env.dispatch(name, params).Err? ==>
         r == "Error executing tool " + Display(name, env.codec) + ": " + env.dispatch(name, params).error)
  {
    var name := if "tool" in action then action["tool"] else Str("");
    var params := if "params" in action then action["params"] else Dict(map[]);
    match env.dispatch(name, params)
    case Ok(out) => out
    case Err(e) => "Error executing tool " + Display(name, env.codec) + ": " + e
  }

  /** `_think`: the stripped reply parsed, or None when the call raised. */
  function Think(goal: string, plan: seq<string>, history: seq<Entry>, turn: nat, env: Env): Option<Thought> {
    match env.think(turn, UserPrompt(goal, plan, history, env.codec))
    case Ok(reply) => Some(ParseThought(Strip(reply), env.codec))
    case Err(_) => None
  }

  /** `_generate_content`: the stripped reply, or an error text. */
  function GenerateContent(action: map<string, Value>, goal: string, plan: seq<string>, history: seq<Entry>,
                           turn: nat, env: Env): string
  {
    var request := if "request" in action then action["request"] else Str("");
    match env.generate(turn, ContentPrompt(goal, plan, history, request, env.codec))
    case Ok(reply) => Strip(reply)
    case Err(e) => "Error generating content: " + e
  }

  /** What one turn does: record an entry, or end the loop. */
  datatype Act = Record(entry: Entry) | Finish

  /** One turn of `_execute_main_loop`: a tool call or a content generation
      adds an entry; a failed think, "complete" and any other type end the
      loop. */
  function TurnStep(goal: string, plan: seq<string>, history: seq<Entry>, turn: nat, env: Env): Act {
    match Think(goal, plan, history, turn, env)
    case None => Finish
    case Some(t) =>
      if t.actionType == Str("tool_call") then Record(ToolCallEntry(t.action, ExecuteToolAction(t.action, env)))
      else if t.actionType == Str("content_generation") then
        Record(ContentEntry(GenerateContent(t.action, goal, plan, history, turn, env)))
      else Finish
  }

  /** Where the loop ended: the history and the number of turns it reports
      (`turn + 1` of its last turn). */
  datatype LoopEnd = LoopEnd(history: seq<Entry>, turns: nat)

  /** The loop from `turn` on, for a given turn step. */
  function Loop(step: (seq<Entry>, nat) -> Act, history: seq<Entry>, turn: nat, maxTurns: int): LoopEnd
    requires turn < maxTurns
    decreases maxTurns - turn
  {
    match step(history, turn)
    case Finish => LoopEnd(history, turn + 1)
    case Record(e) =>
      if turn + 1 < maxTurns then Loop(step, history + [e], turn + 1, maxTurns)
      else LoopEnd(history + [e], turn + 1)
  }

  /** The turn step of `_execute_main_loop` for a goal and a plan. */
  function StepOf(goal: string, plan: seq<string>, env: Env): (seq<Entry>, nat) -> Act {
    (h: seq<Entry>, t: nat) => TurnStep(goal, plan, h, t, env)
  }

  /** `_execute_main_loop` from an empty history. With no turn at all the
      final report reads the loop variable before it was ever bound, which
      raises. */
  function MainLoopOutcome(goal: string, plan: seq<string>, maxTurns: int, env: Env): Result<LoopEnd> {
    if maxTurns <= 0 then Err(UnboundTurn)
    else Ok(Loop(StepOf(goal, plan, env), [], 0, maxTurns))
  }

  const UnboundTurn: string := "cannot access local variable 'turn' where it is not associated with a value"

  /** The entry the step records at turn `turn + k` from the history before
      it. */
  predicate RecordedBy(step: (seq<Entry>, nat) -> Act, h: seq<Entry>, start: nat, turn: nat, k: nat)
    requires start + k < |h|
  {
    step(h[..start + k], turn + k) == Record(h[start + k])
  }

  /** The loop never reports more than `maxTurns` turns; every turn but a
      final stopping one adds exactly one entry, computed by the step from
      the history before it; and it stops before `maxTurns` only at a turn
      whose step ends it. */
  lemma {:induction false} LoopSpec(step: (seq<Entry>, nat) -> Act, history: seq<Entry>, turn: nat, maxTurns: int)
    requires turn < maxTurns
    ensures var r := Loop(step, history, turn, maxTurns);
      turn < r.turns <= maxTurns &&
      |history| <= |r.history| && r.history[..|history|] == history &&
      (|r.history| - |history| == r.turns - turn ||
       (|r.history| - |history| == r.turns - turn - 1 && step(r.history, r.turns - 1) == Finish)) &&
      (r.turns < maxTurns ==> |r.history| - |history| == r.turns - turn - 1) &&
      forall k: nat :: |history| + k < |r.history| ==> RecordedBy(step, r.history, |history|, turn, k)
    decreases maxTurns - turn
  {
    var r := Loop(step, history, turn, maxTurns);
    match step(history, turn)
    case Finish =>
    case Record(e) =>
      var h := history + [e];
      if turn + 1 < maxTurns {
        LoopSpec(step, h, turn + 1, maxTurns);
        assert r.history[..|h|][..|history|] == r.history[..|history|];
        forall k: nat | |history| + k < |r.history|
          ensures RecordedBy(step, r.history, |history|, turn, k)
        {
          if k == 0 {
            assert r.history[..|history|] == history;
          } else {
            assert RecordedBy(step, r.history, |h|, turn + 1, k - 1);
          }
        }
      } else {
        assert r.history[..|history|] == history;
      }
  }

  /** `_execute_main_loop`: the for loop over the turns, appending to the
      history, with the final report. A loop that runs no turn raises at
      the report, so that case is decided first. */
  method ExecuteMainLoop(goal: string, plan: seq<string>, maxTurns: int, env: Env) returns (r: Result<LoopEnd>)
    ensures r == MainLoopOutcome(goal, plan, maxTurns, env)
  {
    if maxTurns <= 0 {
      return Err(UnboundTurn);
    }
    ghost var step := StepOf(goal, plan, env);
    ghost var outcome := Loop(step, [], 0, maxTurns);
    var history: seq<Entry> := [];
    var turn: nat := 0;
    while turn < maxTurns
      invariant turn <= maxTurns
      invariant outcome == if turn < maxTurns then Loop(step, history, turn, maxTurns) else LoopEnd(history, turn)
      decreases maxTurns - turn
    {
      var act := NextAct(goal, plan, history, turn, env);
      assert act == step(history, turn);
      if act.Finish? {
        return Ok(LoopEnd(history, turn + 1));
      }
      history := history + [act.entry];
      turn := turn + 1;
    }
    r := Ok(LoopEnd(history, turn));
  }

  /** The body of one turn: think, then act on the thought's type. */
  method NextAct(goal: string, plan: seq<string>, history: seq<Entry>, turn: nat, env: Env) returns (act: Act)
    ensures act == TurnStep(goal, plan, history, turn, env)
  {
    var thought := Think(goal, plan, history, turn, env);
    if thought.None? {
      return Finish;
    }
    var t := thought.value;
    if t.actionType == Str("tool_call") {
      var result := ExecuteToolAction(t.action, env);
      act := Record(ToolCallEntry(t.action, result));
    } else if t.actionType == Str("content_generation") {
      var content := GenerateContent(t.action, goal, plan, history, turn, env);
      act := Record(ContentEntry(content));
    } else {
      act := Finish;
    }
  }

  /** A think call that fails on the first turn ends the loop there with no
      entry. */
  lemma FirstThinkFails(goal: string, plan: seq<string>, maxTurns: int, env: Env)
    requires maxTurns > 0 && env.think(0, UserPrompt(goal, plan, [], env.codec)).Err?
    ensures MainLoopOutcome(goal, plan, maxTurns, env) == Ok(LoopEnd([], 1))
  {
    assert StepOf(goal, plan, env)([], 0) == Finish;
  }

  /** With no turn to run, the final report raises. */
  lemma NoTurnRaises(goal: string, plan: seq<string>, maxTurns: int, env: Env)
    requires maxTurns <= 0
    ensures MainLoopOutcome(goal, plan, maxTurns, env).Err?
  {
  }
}
