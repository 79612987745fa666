/** The turn-based agent: per-session conversations, the message list sent
    to the model (system prompt, recent history, new input), one turn per
    user input, the multi-turn reasoning loop with its confirmation round,
    and the statistics over all conversations. The model calls and the tool
    runs are supplied by the caller, per call. */
module TurnBasedAgent {
  import opened Wrappers
  import opened Values
  import opened Text
  import opened ToolBase
  import Turn
  import Registry

  /** `Message`; the timestamp and metadata are not modelled. */
  datatype Message = Message(role: string, content: string)

  /** `Conversation`; the creation time is not modelled. */
  datatype Conversation = Conversation(sessionId: string, messages: seq<Message>, turns: seq<Turn.TurnResult>)

  /** The dict a message becomes in a model request. */
  function AsDict(role: string, content: string): Value {
    Dict(map["role" := Str(role), "content" := Str(content)])
  }

  function Dicts(ms: seq<Message>): (r: seq<Value>)
    ensures |r| == |ms| && forall i :: 0 <= i < |ms| ==> r[i] == AsDict(ms[i].role, ms[i].content)
  {
    seq(|ms|, i requires 0 <= i < |ms| => AsDict(ms[i].role, ms[i].content))
  }

  /** `messages[-10:]`: the ten most recent messages, in order. */
  function Window(messages: seq<Message>): (r: seq<Message>)
    ensures |r| == if |messages| < 10 then |messages| else 10
    ensures r == messages[|messages| - |r|..]
  {
    PySlice(messages, -10, |messages|)
  }

  /** The system prompt and the recent history: what both model requests
      start with. */
  function ContextMessages(prompt: string, history: seq<Message>): seq<Value> {
    [AsDict("system", prompt)] + Dicts(Window(history))
  }

  /** What `_build_messages_for_llm` returns. */
  function LlmMessages(prompt: string, history: seq<Message>, newUser: string): seq<Value> {
    ContextMessages(prompt, history) + [AsDict("user", newUser)]
  }

  /** The loop appending the recent history after the system prompt. */
  method BuildContextMessages(history: seq<Message>, prompt: string) returns (messages: seq<Value>)
    ensures messages == ContextMessages(prompt, history)
  {
    messages := [AsDict("system", prompt)];
    var recent := Window(history);
    for i := 0 to |recent|
      invariant messages == [AsDict("system", prompt)] + Dicts(recent[..i])
    {
      assert Dicts(recent[..i + 1]) == Dicts(recent[..i]) + [AsDict(recent[i].role, recent[i].content)];
      messages := messages + [AsDict(recent[i].role, recent[i].content)];
    }
    assert recent[..|recent|] == recent;
  }

  /** `_build_messages_for_llm`. */
  method BuildMessagesForLlm(conversation: Conversation, newUserMessage: string, prompt: string)
    returns (messages: seq<Value>)
    ensures messages == LlmMessages(prompt, conversation.messages, newUserMessage)
  {
    messages := BuildContextMessages(conversation.messages, prompt);
    messages := messages + [AsDict("user", newUserMessage)];
  }

  /** The request opens with the system prompt and closes with the new
      input; between them come the last (at most ten) history messages in
      order, so it never holds more than twelve entries. */
  lemma LlmMessagesSpec(prompt: string, history: seq<Message>, newUser: string)
    ensures var r := LlmMessages(prompt, history, newUser);
      var n := |r| - 2;
      2 <= |r| <= 12 && n == (if |history| < 10 then |history| else 10) &&
      r[0] == AsDict("system", prompt) && r[|r| - 1] == AsDict("user", newUser) &&
      forall i :: 1 <= i <= n ==> r[i] == AsDict(history[|history| - n + i - 1].role, history[|history| - n + i - 1].content)
  {
  }

  /** What one model call is given: the model (messages and tool
      definitions to its reply, or the error it raised), how each tool call
      ends, the elapsed milliseconds, and the message id of the tool
      context. */
  datatype CallEnv = CallEnv(llm: Turn.Llm, run: Turn.ToolCallRequest -> Turn.CallOutcome, elapsedMs: int,
                             messageId: string)

  /** The tool context `process_user_input` and `multi_turn_reasoning`
      build. */
  function ContextFor(sessionId: string, messageId: string): ToolContext {
    ToolContext(sessionId, messageId, "TurnBasedAgent", None, None)
  }

  /** The tool definitions `Turn.execute` offers: one per enabled tool. */
  function ToolDefs(registry: Registry.ToolRegistry): seq<Value>
    reads registry
  {
    Turn.Definitions(Registry.ListTools(registry.tools, true))
  }

  /** `Turn.execute` with a context, as a value. */
  function TurnOf(env: CallEnv, defs: seq<Value>, context: ToolContext, messages: seq<Value>, codec: Codec)
    : Turn.TurnResult
  {
    Turn.TurnOutcome(env.llm(messages, if defs == [] then None else Some(defs)), Some(context), env.run, codec,
                     env.elapsedMs)
  }

  /** What `format_result_for_conversation` returns. */
  function Rendered(r: Turn.TurnResult, codec: Codec): string {
    var parts := Turn.ConversationParts(r, codec);
    if parts == [] then "无响应内容" else Join(parts, "\n\n")
  }

  // ---------------------------------------------------------------------
  // The conversations, in insertion order (Python's dict order).

  predicate UniqueIds(cs: seq<Conversation>) {
    forall i, j :: 0 <= i < j < |cs| ==> cs[i].sessionId != cs[j].sessionId
  }

  /** The position of the conversation of a session, or -1. */
  function IndexOf(cs: seq<Conversation>, id: string): (i: int)
    ensures -1 <= i < |cs|
    ensures i >= 0 ==> cs[i].sessionId == id
    ensures i == -1 ==> forall j :: 0 <= j < |cs| ==> cs[j].sessionId != id
  {
    if cs == [] then -1
    else if cs[|cs| - 1].sessionId == id then |cs| - 1
    else IndexOf(cs[..|cs| - 1], id)
  }

  /** The session's conversation, or a fresh empty one. */
  function Current(cs: seq<Conversation>, id: string): Conversation {
    var i := IndexOf(cs, id);
    if i >= 0 then cs[i] else Conversation(id, [], [])
  }

  /** The conversations with `c` stored under its session: in place when
      the session exists, appended otherwise. */
  function Store(cs: seq<Conversation>, c: Conversation): seq<Conversation> {
    var i := IndexOf(cs, c.sessionId);
    if i >= 0 then cs[i := c] else cs + [c]
  }

  /** Storing keeps the ids unique and leaves every other session alone. */
  lemma StoreSpec(cs: seq<Conversation>, c: Conversation, id: string)
    requires UniqueIds(cs)
    ensures UniqueIds(Store(cs, c))
    ensures Current(Store(cs, c), c.sessionId) == c
    ensures id != c.sessionId ==> Current(Store(cs, c), id) == Current(cs, id)
  {
    var s := Store(cs, c);
    var i := IndexOf(cs, c.sessionId);
    IndexUnique(s, c.sessionId, if i >= 0 then i else |cs|);
    var k := IndexOf(cs, id);
    if k >= 0 && id != c.sessionId {
      IndexUnique(s, id, k);
    }
    if k == -1 && id != c.sessionId {
      assert forall j :: 0 <= j < |s| ==> s[j].sessionId != id;
    }
  }

  /** With unique ids, the index of an id is its only position. */
  lemma IndexUnique(cs: seq<Conversation>, id: string, k: nat)
    requires UniqueIds(cs) && k < |cs| && cs[k].sessionId == id
    ensures IndexOf(cs, id) == k
  {
  }

  /** The conversations without the session's. */
  function Without(cs: seq<Conversation>, id: string): seq<Conversation> {
    var i := IndexOf(cs, id);
    if i >= 0 then cs[..i] + cs[i + 1..] else cs
  }

  /** `sum(f(conv) for conv in conversations.values())`. */
  function Sum(cs: seq<Conversation>, f: Conversation -> nat): nat {
    if cs == [] then 0 else Sum(cs[..|cs| - 1], f) + f(cs[|cs| - 1])
  }

  lemma {:induction false} SumAppend(a: seq<Conversation>, b: seq<Conversation>, f: Conversation -> nat)
    ensures Sum(a + b, f) == Sum(a, f) + Sum(b, f)
    decreases |b|
  {
    if b == [] {
      assert a + b == a;
    } else {
      var n := |b| - 1;
      assert (a + b)[..|a + b| - 1] == a + b[..n];
      SumAppend(a, b[..n], f);
    }
  }

  lemma SumSingle(c: Conversation, f: Conversation -> nat)
    ensures Sum([c], f) == f(c)
  {
    assert [c][..0] == [];
  }

  /** Replacing one conversation changes a sum by the difference. */
  lemma SumUpdate(cs: seq<Conversation>, i: nat, c: Conversation, f: Conversation -> nat)
    requires i < |cs|
    ensures Sum(cs[i := c], f) + f(cs[i]) == Sum(cs, f) + f(c)
  {
    assert cs == cs[..i] + [cs[i]] + cs[i + 1..];
    assert cs[i := c] == cs[..i] + [c] + cs[i + 1..];
    SumAppend(cs[..i] + [cs[i]], cs[i + 1..], f);
    SumAppend(cs[..i] + [c], cs[i + 1..], f);
    SumAppend(cs[..i], [cs[i]], f);
    SumAppend(cs[..i], [c], f);
    SumSingle(cs[i], f);
    SumSingle(c, f);
  }

  /** The totals after storing a conversation: the old totals without the
      session's previous counts (none for a new session), plus the new
      ones. */
  lemma SumStore(cs: seq<Conversation>, c: Conversation, f: Conversation -> nat)
    requires f(Conversation(c.sessionId, [], [])) == 0
    ensures Sum(Store(cs, c), f) + f(Current(cs, c.sessionId)) == Sum(cs, f) + f(c)
  {
    var i := IndexOf(cs, c.sessionId);
    if i >= 0 {
      SumUpdate(cs, i, c, f);
    } else {
      SumAppend(cs, [c], f);
      SumSingle(c, f);
    }
  }

  /** The totals after removing a session drop by its counts. */
  lemma SumWithout(cs: seq<Conversation>, id: string, f: Conversation -> nat)
    requires f(Conversation(id, [], [])) == 0
    ensures Sum(Without(cs, id), f) + f(Current(cs, id)) == Sum(cs, f)
  {
    var i := IndexOf(cs, id);
    if i >= 0 {
      assert cs == cs[..i] + [cs[i]] + cs[i + 1..];
      SumAppend(cs[..i] + [cs[i]], cs[i + 1..], f);
      SumAppend(cs[..i], [cs[i]], f);
      SumAppend(cs[..i], cs[i + 1..], f);
      SumSingle(cs[i], f);
    }
  }

  function MessageCount(c: Conversation): nat { |c.messages| }

  function TurnCount(c: Conversation): nat { |c.turns| }

  /** `get_statistics`. */
  datatype Statistics = Statistics(activeConversations: nat, totalMessages: nat, totalTurns: nat, availableTools: nat)

  function StatisticsOf(cs: seq<Conversation>, registry: Registry.ToolRegistry): Statistics
    reads registry
  {
    Statistics(|cs|, Sum(cs, MessageCount), Sum(cs, TurnCount), |registry.GetToolIds(true)|)
  }

  /** A processed input adds two messages and one turn to the totals, and a
      conversation when the session is new. */
  lemma ProcessedStatistics(cs: seq<Conversation>, id: string, user: Message, reply: Message, t: Turn.TurnResult,
                            registry: Registry.ToolRegistry)
    ensures var before := Current(cs, id);
      var after := StatisticsOf(Store(cs, before.(messages := before.messages + [user, reply], turns := before.turns + [t])), registry);
      var s := StatisticsOf(cs, registry);
      after.totalMessages == s.totalMessages + 2 && after.totalTurns == s.totalTurns + 1 &&
      after.activeConversations == s.activeConversations + (if IndexOf(cs, id) >= 0 then 0 else 1)
  {
    var before := Current(cs, id);
    var c := before.(messages := before.messages + [user, reply], turns := before.turns + [t]);
    SumStore(cs, c, MessageCount);
    SumStore(cs, c, TurnCount);
  }

  /** Clearing a session removes its messages and turns from the totals. */
  lemma ClearedStatistics(cs: seq<Conversation>, id: string, registry: Registry.ToolRegistry)
    ensures var after := StatisticsOf(Without(cs, id), registry);
      var s := StatisticsOf(cs, registry);
      after.totalMessages + |Current(cs, id).messages| == s.totalMessages &&
      after.totalTurns + |Current(cs, id).turns| == s.totalTurns &&
      after.activeConversations + (if IndexOf(cs, id) >= 0 then 1 else 0) == s.activeConversations
  {
    SumWithout(cs, id, MessageCount);
    SumWithout(cs, id, TurnCount);
  }

  // ---------------------------------------------------------------------
  // `multi_turn_reasoning`

  const ConfirmRequest: string :=
    "\n\n请确认最终任务是否已经完成完成，如果是，请返回四个字母 'Done'，不需要有额外的内容 ，否则返回需要继续的原因，在此环节不需要包含工具调用，仅仅做结果的验证"

  const NoAnswer: string := "无法生成有效响应"

  const TimeoutResponse: string := "经过多轮推理仍未找到最终答案，请尝试重新描述问题。"

  /** The candidate final answer of a turn without tool calls. */
  function FinalAnswer(r: Turn.TurnResult): string {
    (if r.textContent != "" then r.textContent else NoAnswer) + ConfirmRequest
  }

  /** The messages a turn with tool calls adds: one assistant message
      listing the calls, then one user message with an observation per
      response when there are responses. */
  function ToolRoundMessages(r: Turn.TurnResult, codec: Codec): (ms: seq<Message>)
    ensures 1 <= |ms| <= 2 && ms[0].role == "assistant"
    ensures |ms| == 2 <==> r.toolResponses != []
  {
    var calls := seq(|r.toolCalls|, i requires 0 <= i < |r.toolCalls| => "function call: " + Turn.CallText(r.toolCalls[i], codec));
    var observations := seq(|r.toolResponses|, i requires 0 <= i < |r.toolResponses| => Turn.Observation(r.toolResponses[i]));
    [Message("assistant", Join(calls, "\n\n"))]
    + (if r.toolResponses != [] then [Message("user", Join(observations, "\n"))] else [])
  }

  /** What stays fixed through the loop: the system prompt, the tool
      definitions, the session's tool context and the codec. */
  datatype Setup = Setup(prompt: string, defs: seq<Value>, sessionId: string, codec: Codec)

  /** Where the loop stands when it returns (or, for `response == None`,
      when the fuel ran out while it was still looping): the conversation,
      the reply, `turn_count` and the number of model calls made. */
  datatype Reasoned = Reasoned(conv: Conversation, response: Option<string>, turnCount: nat, calls: nat)

  /** The loop of `multi_turn_reasoning` as written, from `turnCount` on,
      with `calls` model calls made and `fuel` iterations left. Call number
      `k` is answered by `call(k)`. A turn with tool calls adds its messages
      and counts; a turn without adds the candidate answer and asks the
      model again with the same (stale) messages, returning on tool calls or
      "Done" and otherwise looping without counting the turn. */
  function Reasoning(conv: Conversation, turnCount: nat, calls: nat, maxTurns: int, fuel: nat,
                     call: nat -> CallEnv, s: Setup): Reasoned
    decreases fuel
  {
    if turnCount >= maxTurns then
      Reasoned(conv.(messages := conv.messages + [Message("assistant", TimeoutResponse)]), Some(TimeoutResponse),
               turnCount, calls)
    else if fuel == 0 then Reasoned(conv, None, turnCount, calls)
    else
      var msgs := ContextMessages(s.prompt, conv.messages);
      var context := ContextFor(s.sessionId, call(calls).messageId);
      var r := TurnOf(call(calls), s.defs, context, msgs, s.codec);
      var c1 := conv.(turns := conv.turns + [r]);
      if Turn.HasToolCalls(r) then
        Reasoning(c1.(messages := c1.messages + ToolRoundMessages(r, s.codec)), turnCount + 1, calls + 1,
                  maxTurns, fuel - 1, call, s)
      else
        var final := FinalAnswer(r);
        var check := TurnOf(call(calls + 1), s.defs, context, msgs, s.codec);
        var c2 := c1.(messages := c1.messages + [Message("assistant", final)], turns := c1.turns + [check]);
        if Turn.HasToolCalls(check) || check.textContent == "Done" then Reasoned(c2, Some(final), turnCount, calls + 2)
        else Reasoning(c2, turnCount, calls + 2, maxTurns, fuel - 1, call, s)
  }

  /** `turn_count` advances only in the tool branch: when no reply ever
      carries a tool call or "Done", the loop is still running however much
      fuel it is given, and never reaches the `max_turns` bound. */
  lemma {:induction false} NeverDoneKeepsLooping(conv: Conversation, turnCount: nat, calls: nat, maxTurns: int,
                                                 fuel: nat, call: nat -> CallEnv, s: Setup)
    requires turnCount < maxTurns
    requires forall k: nat, ms: seq<Value>, ctx: ToolContext ::
      !Turn.HasToolCalls(TurnOf(call(k), s.defs, ctx, ms, s.codec)) && TurnOf(call(k), s.defs, ctx, ms, s.codec).textContent != "Done"
    ensures Reasoning(conv, turnCount, calls, maxTurns, fuel, call, s).response.None?
    ensures Reasoning(conv, turnCount, calls, maxTurns, fuel, call, s).turnCount == turnCount
    decreases fuel
  {
    if fuel > 0 {
      var msgs := ContextMessages(s.prompt, conv.messages);
      var context := ContextFor(s.sessionId, call(calls).messageId);
      var r := TurnOf(call(calls), s.defs, context, msgs, s.codec);
      var check := TurnOf(call(calls + 1), s.defs, context, msgs, s.codec);
      var c2 := conv.(messages := conv.messages + [Message("assistant", FinalAnswer(r))], turns := conv.turns + [r, check]);
      assert conv.turns + [r] + [check] == conv.turns + [r, check];
      NeverDoneKeepsLooping(c2, turnCount, calls + 2, maxTurns, fuel - 1, call, s);
    }
  }

  /** A model that calls a tool on every turn uses up the budget: after
      `max_turns` tool rounds, one model call each, the loop gives the
      timeout reply. */
  lemma {:induction false} ToolRoundsExhaustBudget(conv: Conversation, turnCount: nat, calls: nat, maxTurns: int,
                                                   fuel: nat, call: nat -> CallEnv, s: Setup)
    requires turnCount <= maxTurns && fuel >= maxTurns - turnCount
    requires forall k: nat, ms: seq<Value>, ctx: ToolContext :: Turn.HasToolCalls(TurnOf(call(k), s.defs, ctx, ms, s.codec))
    ensures var r := Reasoning(conv, turnCount, calls, maxTurns, fuel, call, s);
      r.response == Some(TimeoutResponse) && r.turnCount == maxTurns && r.calls == calls + (maxTurns - turnCount) &&
      |r.conv.turns| == |conv.turns| + (maxTurns - turnCount)
    decreases maxTurns - turnCount
  {
    if turnCount < maxTurns {
      var msgs := ContextMessages(s.prompt, conv.messages);
      var context := ContextFor(s.sessionId, call(calls).messageId);
      var r := TurnOf(call(calls), s.defs, context, msgs, s.codec);
      var c1 := conv.(turns := conv.turns + [r]);
      ToolRoundsExhaustBudget(c1.(messages := c1.messages + ToolRoundMessages(r, s.codec)), turnCount + 1, calls + 1,
                              maxTurns, fuel - 1, call, s);
    }
  }

  /** The loop with the evident intent of `max_turns`: the confirmation
      round counts as a turn too, so the loop always ends. */
  function BoundedReasoning(conv: Conversation, turnCount: nat, calls: nat, maxTurns: int,
                            call: nat -> CallEnv, s: Setup): Reasoned
    decreases if turnCount < maxTurns then maxTurns - turnCount else 0
  {
    if turnCount >= maxTurns then
      Reasoned(conv.(messages := conv.messages + [Message("assistant", TimeoutResponse)]), Some(TimeoutResponse),
               turnCount, calls)
    else
      var msgs := ContextMessages(s.prompt, conv.messages);
      var context := ContextFor(s.sessionId, call(calls).messageId);
      var r := TurnOf(call(calls), s.defs, context, msgs, s.codec);
      var c1 := conv.(turns := conv.turns + [r]);
      if Turn.HasToolCalls(r) then
        BoundedReasoning(c1.(messages := c1.messages + ToolRoundMessages(r, s.codec)), turnCount + 1, calls + 1,
                         maxTurns, call, s)
      else
        var final := FinalAnswer(r);
        var check := TurnOf(call(calls + 1), s.defs, context, msgs, s.codec);
        var c2 := c1.(messages := c1.messages + [Message("assistant", final)], turns := c1.turns + [check]);
        if Turn.HasToolCalls(check) || check.textContent == "Done" then Reasoned(c2, Some(final), turnCount, calls + 2)
        else BoundedReasoning(c2, turnCount + 1, calls + 2, maxTurns, call, s)
  }

  /** The corrected loop always returns a reply, after at most two model
      calls per turn of the budget, and never counts past `max_turns`. */
  lemma {:induction false} BoundedReasoningEnds(conv: Conversation, turnCount: nat, calls: nat, maxTurns: int,
                                                call: nat -> CallEnv, s: Setup)
    requires turnCount <= maxTurns
    ensures var r := BoundedReasoning(conv, turnCount, calls, maxTurns, call, s);
      r.response.Some? && r.turnCount <= maxTurns && r.calls <= calls + 2 * (maxTurns - turnCount)
    decreases maxTurns - turnCount
  {
    if turnCount < maxTurns {
      var msgs := ContextMessages(s.prompt, conv.messages);
      var context := ContextFor(s.sessionId, call(calls).messageId);
      var r := TurnOf(call(calls), s.defs, context, msgs, s.codec);
      var c1 := conv.(turns := conv.turns + [r]);
      if Turn.HasToolCalls(r) {
        BoundedReasoningEnds(c1.(messages := c1.messages + ToolRoundMessages(r, s.codec)), turnCount + 1, calls + 1,
                             maxTurns, call, s);
      } else {
        var check := TurnOf(call(calls + 1), s.defs, context, msgs, s.codec);
        var c2 := c1.(messages := c1.messages + [Message("assistant", FinalAnswer(r))], turns := c1.turns + [check]);
        if !(Turn.HasToolCalls(check) || check.textContent == "Done") {
          BoundedReasoningEnds(c2, turnCount + 1, calls + 2, maxTurns, call, s);
        }
      }
    }
  }

  /** The two loops agree while tool calls drive them: a model that calls a
      tool on every turn gets the same outcome from both (given enough
      fuel). */
  lemma {:induction false} AgreeOnToolRounds(conv: Conversation, turnCount: nat, calls: nat, maxTurns: int,
                                             fuel: nat, call: nat -> CallEnv, s: Setup)
    requires turnCount <= maxTurns && fuel >= maxTurns - turnCount
    requires forall k: nat, ms: seq<Value>, ctx: ToolContext :: Turn.HasToolCalls(TurnOf(call(k), s.defs, ctx, ms, s.codec))
    ensures Reasoning(conv, turnCount, calls, maxTurns, fuel, call, s) == BoundedReasoning(conv, turnCount, calls, maxTurns, call, s)
    decreases maxTurns - turnCount
  {
    if turnCount < maxTurns {
      var msgs := ContextMessages(s.prompt, conv.messages);
      var context := ContextFor(s.sessionId, call(calls).messageId);
      var r := TurnOf(call(calls), s.defs, context, msgs, s.codec);
      var c1 := conv.(turns := conv.turns + [r]);
      AgreeOnToolRounds(c1.(messages := c1.messages + ToolRoundMessages(r, s.codec)), turnCount + 1, calls + 1,
                        maxTurns, fuel - 1, call, s);
    }
  }

  // ---------------------------------------------------------------------
  // The agent

  class Agent {
    /** `conversations`, in insertion order. */
    var conversations: seq<Conversation>
    /** The tool registry the turns offer tools from. */
    const registry: Registry.ToolRegistry
    /** What `_load_system_prompt` returns: the prompt file's text with the
        tool catalogue and usage notes appended. */
    const systemPrompt: string

    ghost predicate Valid()
      reads this
    {
      UniqueIds(conversations)
    }

    constructor (registry: Registry.ToolRegistry, systemPrompt: string)
      ensures Valid() && conversations == []
      ensures this.registry == registry && this.systemPrompt == systemPrompt
    {
      this.registry := registry;
      this.systemPrompt := systemPrompt;
      conversations := [];
    }

    /** The position of the session's conversation, created empty at the
        end when it does not exist yet. */
    method Open(sessionId: string) returns (i: nat)
      requires Valid()
      modifies this
      ensures Valid() && i < |conversations| && conversations[i] == Current(old(conversations), sessionId)
      ensures conversations == Store(old(conversations), Current(old(conversations), sessionId))
      ensures i == IndexOf(conversations, sessionId) && conversations[i].sessionId == sessionId
    {
      var k := IndexOf(conversations, sessionId);
      StoreSpec(conversations, Current(conversations, sessionId), sessionId);
      if k == -1 {
        conversations := conversations + [Conversation(sessionId, [], [])];
        i := |conversations| - 1;
      } else {
        i := k;
        assert conversations[k := conversations[k]] == conversations;
      }
    }

    /** `process_user_input`: one turn over the system prompt, the recent
        history and the input; the session's conversation (created when
        new) gains the input, the rendered reply and the turn, and nothing
        else changes. */
    method ProcessUserInput(userInput: string, sessionId: string, env: CallEnv, codec: Codec) returns (response: string)
      requires Valid()
      modifies this
      ensures Valid()
      ensures var before := Current(old(conversations), sessionId);
        var r := TurnOf(env, ToolDefs(registry), ContextFor(sessionId, env.messageId),
                        LlmMessages(systemPrompt, before.messages, userInput), codec);
        response == Rendered(r, codec) &&
        conversations == Store(old(conversations),
          before.(messages := before.messages + [Message("user", userInput), Message("assistant", response)],
                  turns := before.turns + [r]))
    {
      ghost var start := conversations;
      var i := Open(sessionId);
      var conversation;
      var before := conversations[i];
      ghost var defs := ToolDefs(registry);
      response, conversation := Respond(before, sessionId, userInput, env, codec);
      Save(start, i, conversation);
      assert ToolDefs(registry) == defs;
    }

    /** The body of `process_user_input` on the session's conversation: the
        turn over the built messages, its rendering, and the conversation
        with the input, the reply and the turn appended. */
    method Respond(conversation: Conversation, sessionId: string, userInput: string, env: CallEnv, codec: Codec)
      returns (response: string, conv': Conversation)
      ensures conv'.sessionId == conversation.sessionId
      ensures var r := TurnOf(env, ToolDefs(registry), ContextFor(sessionId, env.messageId),
                              LlmMessages(systemPrompt, conversation.messages, userInput), codec);
        response == Rendered(r, codec) &&
        conv' == conversation.(messages := conversation.messages + [Message("user", userInput), Message("assistant", response)],
                               turns := conversation.turns + [r])
    {
      var llmMessages := BuildMessagesForLlm(conversation, userInput, systemPrompt);
      var context := ContextFor(sessionId, env.messageId);
      var turnResult := Turn.Execute(registry, llmMessages, Some(context), env.llm, env.run, codec, env.elapsedMs);
      response := Turn.FormatResultForConversation(turnResult, codec);
      conv' := conversation.(messages := conversation.messages + [Message("user", userInput), Message("assistant", response)],
                             turns := conversation.turns + [turnResult]);
    }

    /** Writing back the session's conversation at the position `Open`
        gave it. */
    method Save(ghost start: seq<Conversation>, i: nat, conv: Conversation)
      requires UniqueIds(start)
      requires conversations == Store(start, Current(start, conv.sessionId))
      requires i == IndexOf(conversations, conv.sessionId)
      modifies this
      ensures Valid() && conversations == Store(start, conv)
    {
      StoreTwice(start, conv.sessionId, conv);
      conversations := conversations[i := conv];
    }

    /** `multi_turn_reasoning` as written, run for at most `fuel` iterations
        of its loop (None: still looping when the fuel ran out). Call number
        `k` of the model is answered by `call(k)`. */
    method MultiTurnReasoning(userInput: string, sessionId: string, maxTurns: int, call: nat -> CallEnv, codec: Codec,
                              fuel: nat) returns (response: Option<string>)
      requires Valid()
      modifies this
      ensures Valid()
      ensures var before := Current(old(conversations), sessionId);
        var o := Reasoning(before.(messages := before.messages + [Message("user", userInput)]), 0, 0, maxTurns, fuel,
                           call, Setup(systemPrompt, ToolDefs(registry), sessionId, codec));
        response == o.response && conversations == Store(old(conversations), o.conv)
    {
      ghost var start := conversations;
      ghost var s := Setup(systemPrompt, ToolDefs(registry), sessionId, codec);
      var i := Open(sessionId);
      var conv := conversations[i];
      conv := conv.(messages := conv.messages + [Message("user", userInput)]);
      assert ToolDefs(registry) == s.defs;
      var o := Loop(conv, maxTurns, fuel, call, codec, s);
      Save(start, i, o.conv);
      return o.response;
    }

    /** The `while` loop of `multi_turn_reasoning` on the session's
        conversation, up to the write-back: what it answers and the
        conversation it leaves. */
    method Loop(begin: Conversation, maxTurns: int, fuel: nat, call: nat -> CallEnv, codec: Codec, ghost s: Setup)
      returns (o: Reasoned)
      requires s == Setup(systemPrompt, ToolDefs(registry), begin.sessionId, codec)
      ensures o == Reasoning(begin, 0, 0, maxTurns, fuel, call, s)
      ensures o.conv.sessionId == begin.sessionId
    {
      var conv := begin;
      var turnCount: nat := 0;
      var calls: nat := 0;
      var left := fuel;
      while turnCount < maxTurns
        invariant Reasoning(conv, turnCount, calls, maxTurns, left, call, s) == Reasoning(begin, 0, 0, maxTurns, fuel, call, s)
        invariant conv.sessionId == s.sessionId
        decreases left
      {
        if left == 0 {
          return Reasoned(conv, None, turnCount, calls);
        }
        var answer;
        answer, conv, turnCount, calls, left := Iterate(conv, turnCount, calls, maxTurns, left, call, codec, s);
        if answer.Some? {
          return Reasoned(conv, answer, turnCount, calls);
        }
      }
      conv := conv.(messages := conv.messages + [Message("assistant", TimeoutResponse)]);
      return Reasoned(conv, Some(TimeoutResponse), turnCount, calls);
    }

    /** One iteration of the loop, with its counters: an answer ends the
        loop with what `Reasoning` gives, otherwise `Reasoning` goes on from
        the new state with one iteration less. */
    method Iterate(conv: Conversation, turnCount: nat, calls: nat, maxTurns: int, left: nat, call: nat -> CallEnv,
                   codec: Codec, ghost s: Setup)
      returns (answer: Option<string>, conv': Conversation, turnCount': nat, calls': nat, left': nat)
      requires s == Setup(systemPrompt, ToolDefs(registry), conv.sessionId, codec)
      requires turnCount < maxTurns && left > 0
      ensures conv'.sessionId == conv.sessionId
      ensures answer.Some? ==>
        Reasoning(conv, turnCount, calls, maxTurns, left, call, s) == Reasoned(conv', answer, turnCount', calls')
      ensures answer.None? ==>
        left' < left &&
        Reasoning(conv, turnCount, calls, maxTurns, left, call, s) ==
        Reasoning(conv', turnCount', calls', maxTurns, left', call, s)
    {
      var step;
      step, conv' := ReasoningRound(conv, calls, call, codec, s);
      RoundStep(conv, turnCount, calls, maxTurns, left, call, s, step, conv');
      if step == Returned {
        return Some(FinalAnswer(conv'.turns[|conv'.turns| - 2])), conv', turnCount, calls + 2, left;
      }
      if step == ToolRound {
        answer, turnCount', calls' := None, turnCount + 1, calls + 1;
      } else {
        answer, turnCount', calls' := None, turnCount, calls + 2;
      }
      left' := left - 1;
    }

    /** One iteration of the loop body: the turn, then either the tool
        round's messages or the candidate answer and the confirmation
        call. */
    method ReasoningRound(conv: Conversation, calls: nat, call: nat -> CallEnv, codec: Codec, ghost s: Setup)
      returns (step: Round, conv': Conversation)
      requires s == Setup(systemPrompt, ToolDefs(registry), conv.sessionId, codec)
      ensures RoundOf(conv, calls, call, s) == (step, conv')
      ensures conv'.sessionId == conv.sessionId
      ensures step == Returned ==> |conv'.turns| >= 2
    {
      var msgs := BuildContextMessages(conv.messages, systemPrompt);
      var context := ContextFor(conv.sessionId, call(calls).messageId);
      var env := call(calls);
      var r := Turn.Execute(registry, msgs, Some(context), env.llm, env.run, codec, env.elapsedMs);
      conv' := conv.(turns := conv.turns + [r]);
      if |r.toolCalls| > 0 {
        conv' := conv'.(messages := conv'.messages + ToolRoundMessages(r, codec));
        return ToolRound, conv';
      }
      var final := FinalAnswer(r);
      conv' := conv'.(messages := conv'.messages + [Message("assistant", final)]);
      var env2 := call(calls + 1);
      var check := Turn.Execute(registry, msgs, Some(context), env2.llm, env2.run, codec, env2.elapsedMs);
      conv' := conv'.(turns := conv'.turns + [check]);
      step := if |check.toolCalls| > 0 || check.textContent == "Done" then Returned else Unconfirmed;
    }

    /** `clear_conversation`: the session's conversation is removed; an
        unknown session changes nothing. */
    method ClearConversation(sessionId: string)
      requires Valid()
      modifies this
      ensures Valid()
      ensures conversations == Without(old(conversations), sessionId)
      ensures IndexOf(old(conversations), sessionId) == -1 ==> conversations == old(conversations)
      ensures IndexOf(conversations, sessionId) == -1
    {
      var i := IndexOf(conversations, sessionId);
      if i >= 0 {
        ghost var cs := conversations;
        conversations := conversations[..i] + conversations[i + 1..];
        assert forall j :: 0 <= j < |conversations| ==> conversations[j] == if j < i then cs[j] else cs[j + 1];
      }
    }

    /** `get_conversation`. */
    function GetConversation(sessionId: string): (r: Option<Conversation>)
      reads this
      ensures r.Some? <==> IndexOf(conversations, sessionId) >= 0
      ensures r.Some? ==> r.value == Current(conversations, sessionId)
    {
      var i := IndexOf(conversations, sessionId);
      if i >= 0 then Some(conversations[i]) else None
    }

    /** `get_statistics`. */
    function GetStatistics(): Statistics
      reads this, registry
    {
      StatisticsOf(conversations, registry)
    }
  }

  /** How an iteration of the reasoning loop ended. */
  datatype Round = ToolRound | Returned | Unconfirmed

  /** One iteration of the loop as a value: how it ended and the
      conversation after it. */
  function RoundOf(conv: Conversation, calls: nat, call: nat -> CallEnv, s: Setup): (Round, Conversation) {
    var msgs := ContextMessages(s.prompt, conv.messages);
    var context := ContextFor(s.sessionId, call(calls).messageId);
    var r := TurnOf(call(calls), s.defs, context, msgs, s.codec);
    var c1 := conv.(turns := conv.turns + [r]);
    if Turn.HasToolCalls(r) then (ToolRound, c1.(messages := c1.messages + ToolRoundMessages(r, s.codec)))
    else
      var check := TurnOf(call(calls + 1), s.defs, context, msgs, s.codec);
      var c2 := c1.(messages := c1.messages + [Message("assistant", FinalAnswer(r))], turns := c1.turns + [check]);
      (if Turn.HasToolCalls(check) || check.textContent == "Done" then Returned else Unconfirmed, c2)
  }

  /** One iteration of `Reasoning` is `RoundOf`: a tool round counts the
      turn, an unconfirmed answer does not, and a confirmed one returns the
      candidate answer of the turn before the confirmation. */
  lemma RoundStep(conv: Conversation, turnCount: nat, calls: nat, maxTurns: int, fuel: nat,
                  call: nat -> CallEnv, s: Setup, step: Round, c: Conversation)
    requires turnCount < maxTurns && fuel > 0
    requires RoundOf(conv, calls, call, s) == (step, c)
    ensures step == ToolRound ==>
      Reasoning(conv, turnCount, calls, maxTurns, fuel, call, s) ==
      Reasoning(c, turnCount + 1, calls + 1, maxTurns, fuel - 1, call, s)
    ensures step == Unconfirmed ==>
      Reasoning(conv, turnCount, calls, maxTurns, fuel, call, s) ==
      Reasoning(c, turnCount, calls + 2, maxTurns, fuel - 1, call, s)
    ensures step == Returned ==>
      |c.turns| >= 2 &&
      Reasoning(conv, turnCount, calls, maxTurns, fuel, call, s) ==
      Reasoned(c, Some(FinalAnswer(c.turns[|c.turns| - 2])), turnCount, calls + 2)
  {
  }

  /** Storing the session's conversation twice, the second time updated in
      place, is storing the update. */
  lemma StoreTwice(cs: seq<Conversation>, id: string, c: Conversation)
    requires UniqueIds(cs) && c.sessionId == id
    ensures var s := Store(cs, Current(cs, id));
      UniqueIds(Store(cs, c)) && IndexOf(s, id) >= 0 && Store(cs, c) == s[IndexOf(s, id) := c]
  {
    StoreSpec(cs, c, id);
    StoreSpec(cs, Current(cs, id), id);
    var s := Store(cs, Current(cs, id));
    var k := IndexOf(cs, id);
    if k >= 0 {
      IndexUnique(s, id, k);
    } else {
      IndexUnique(s, id, |cs|);
    }
  }
}
