/** The task tool: a registry of sub-agents, the task sessions it starts for
    them, and the bookkeeping of one `execute` call. The sub-agent's work is
    the fixed reply the source simulates for each agent name. */
module Task {
  import opened Wrappers
  import opened Values
  import opened Text
  import opened ToolBase

  /** `AgentConfig`. */
  datatype AgentConfig = AgentConfig(name: string, description: string, mode: string, tools: map<string, bool>,
                                     modelId: Option<string>, providerId: Option<string>)

  /** An entry of a task session's message list. */
  datatype TaskMessage = TaskMessage(role: string, content: string, timestamp: string)

  /** `TaskSession`. */
  datatype TaskSession = TaskSession(id: string, description: string, agent: string, status: string,
                                     messages: seq<TaskMessage>, metadata: map<string, Value>)

  /** The agent list as `register_agent` keeps it: no name twice. */
  ghost predicate UniqueNames(agents: seq<AgentConfig>) {
    forall i, j :: 0 <= i < j < |agents| ==> agents[i].name != agents[j].name
  }

  /** The first agent with the name, or None. */
  function FindAgent(agents: seq<AgentConfig>, name: string): (r: Option<AgentConfig>)
    ensures r.Some? ==> (r.value.name == name &&
      exists k :: 0 <= k < |agents| && agents[k] == r.value && forall j :: 0 <= j < k ==> agents[j].name != name)
    ensures r.None? <==> forall k :: 0 <= k < |agents| ==> agents[k].name != name
  {
    if agents == [] then None
    else if agents[0].name == name then Some(agents[0])
    else
      var r := FindAgent(agents[1..], name);
      assert forall j :: 0 < j < |agents| ==> agents[j] == agents[1..][j - 1];
      r
  }

  /** What `register_agent` leaves: the list unchanged when the name is
      already there, the agent appended otherwise. */
  function Registered(agents: seq<AgentConfig>, agent: AgentConfig): seq<AgentConfig> {
    if FindAgent(agents, agent.name).Some? then agents else agents + [agent]
  }

  /** Registration keeps names unique, makes the name findable, and never
      replaces the agent first registered under it. */
  lemma RegisteredSpec(agents: seq<AgentConfig>, agent: AgentConfig)
    requires UniqueNames(agents)
    ensures UniqueNames(Registered(agents, agent))
    ensures FindAgent(Registered(agents, agent), agent.name) ==
      if FindAgent(agents, agent.name).Some? then FindAgent(agents, agent.name) else Some(agent)
    ensures forall n :: n != agent.name ==> FindAgent(Registered(agents, agent), n) == FindAgent(agents, n)
  {
    var r := Registered(agents, agent);
    if FindAgent(agents, agent.name).None? {
      assert r[|agents|] == agent;
      forall n | n != agent.name
        ensures FindAgent(r, n) == FindAgent(agents, n)
      {
        FindAppend(agents, agent, n);
      }
      FindAppend(agents, agent, agent.name);
    }
  }

  /** Looking a name up after appending an agent finds the earlier entry if
      there is one, and otherwise the new agent when the name is its own. */
  lemma {:induction false} FindAppend(agents: seq<AgentConfig>, agent: AgentConfig, name: string)
    ensures FindAgent(agents + [agent], name) ==
      if FindAgent(agents, name).Some? then FindAgent(agents, name)
      else if agent.name == name then Some(agent) else None
  {
    if agents != [] {
      assert (agents + [agent])[1..] == agents[1..] + [agent];
      if agents[0].name != name {
        FindAppend(agents[1..], agent, name);
      }
    }
  }

  /** Registering the same agent again changes nothing. */
  lemma RegisterTwice(agents: seq<AgentConfig>, agent: AgentConfig)
    ensures Registered(Registered(agents, agent), agent) == Registered(agents, agent)
  {
    if FindAgent(agents, agent.name).None? {
      FindAppend(agents, agent, agent.name);
    }
  }

  /** `get_agents`: every agent whose mode is not "primary", in order. */
  function NonPrimary(agents: seq<AgentConfig>): (r: seq<AgentConfig>)
    ensures |r| <= |agents|
    ensures forall a :: a in r <==> a in agents && a.mode != "primary"
  {
    if agents == [] then []
    else
      var rest := NonPrimary(agents[1..]);
      assert forall a :: a in agents <==> a == agents[0] || a in agents[1..];
      if agents[0].mode != "primary" then [agents[0]] + rest else rest
  }

  /** `get_agents` distributes over an append. */
  lemma {:induction false} NonPrimaryAppend(agents: seq<AgentConfig>, agent: AgentConfig)
    ensures NonPrimary(agents + [agent]) == NonPrimary(agents) + (if agent.mode != "primary" then [agent] else [])
  {
    if agents == [] {
      assert [] + [agent] == [agent];
    } else {
      assert (agents + [agent])[1..] == agents[1..] + [agent];
      NonPrimaryAppend(agents[1..], agent);
    }
  }

  /** Registering a new secondary agent lists one more agent; registering a
      known name lists the same agents. */
  lemma RegisterListed(agents: seq<AgentConfig>, agent: AgentConfig)
    ensures FindAgent(agents, agent.name).Some? ==> NonPrimary(Registered(agents, agent)) == NonPrimary(agents)
    ensures FindAgent(agents, agent.name).None? && agent.mode != "primary" ==>
      NonPrimary(Registered(agents, agent)) == NonPrimary(agents) + [agent]
  {
    NonPrimaryAppend(agents, agent);
  }

  /** The names of the listed agents, as `available_types` reports them. */
  function Names(agents: seq<AgentConfig>): (r: seq<Value>)
    ensures |r| == |agents| && forall k :: 0 <= k < |agents| ==> r[k] == Str(agents[k].name)
  {
    seq(|agents|, k requires 0 <= k < |agents| => Str(agents[k].name))
  }

  /** The opening line, the heading before the quoted prompt and the closing
      text of the reply simulated for an agent name. */
  function ReplyParts(name: string): (string, string, string) {
    if name == "code_reviewer" then
      ("代码审查完成。", "审查内容",
       "发现的问题：\n1. 建议添加更多错误处理\n2. 可以优化性能\n3. 需要添加单元测试\n\n总体评价：代码结构良好，但需要一些改进。")
    else if name == "file_searcher" then
      ("文件搜索完成。", "搜索任务",
       "找到的相关文件：\n1. src/main.py - 主要逻辑\n2. tests/test_main.py - 测试文件\n3. docs/README.md - 文档\n\n搜索结果：找到 3 个相关文件，包含目标内容。")
    else if name == "test_generator" then
      ("测试生成完成。", "目标",
       "生成的测试：\n- 单元测试：5 个测试用例\n- 集成测试：2 个测试场景\n- 边界条件测试：3 个测试\n\n所有测试已生成并可以运行。")
    else if name == "doc_generator" then
      ("文档生成完成。", "任务", "生成的文档：\n- API 文档\n- 使用指南\n- 示例代码\n\n文档已更新并符合项目标准。")
    else if name == "refactor_agent" then
      ("重构完成。", "重构任务",
       "执行的重构：\n1. 提取公共方法\n2. 优化数据结构\n3. 改进命名约定\n\n重构后代码更清晰，性能提升 15%。")
    else ("任务完成。", "执行的任务", "结果：任务已按要求完成。")
  }

  /** `_simulate_agent_execution`: the agent's fixed reply quoting the first
      100 characters of the prompt. */
  function SimulatedReply(name: string, prompt: string): string {
    var (opening, heading, closing) := ReplyParts(name);
    opening + "\n\n" + heading + "：" + Take(prompt, 100) + "...\n\n" + closing
  }

  /** The reply opens with the agent's line and quotes the prompt's first
      100 characters right after the heading. */
  lemma ReplyQuotesPrompt(name: string, prompt: string)
    ensures var (opening, heading, _) := ReplyParts(name);
      var at := |opening| + 2 + |heading| + 1;
      StartsWith(SimulatedReply(name, prompt), opening) && OccursAt(SimulatedReply(name, prompt), Take(prompt, 100), at)
  {
    var (opening, heading, closing) := ReplyParts(name);
    var head := opening + "\n\n" + heading + "：";
    var quoted := Take(prompt, 100);
    var r := head + quoted + ("...\n\n" + closing);
    assert SimulatedReply(name, prompt) == r;
    assert r[..|opening|] == opening;
    assert r[|head|..|head| + |quoted|] == quoted;
  }

  /** The parameters of one task call. */
  datatype TaskParams = TaskParams(description: string, prompt: string, subagentType: string)

  const CompletedTimestamp: string := "2024-01-01T00:00:00Z"

  /** The result of `execute` and the session table it leaves, given the
      agents, the sessions before the call, and the eight hex digits drawn
      for the session id and for the tool-summary id. */
  function ExecuteOutcome(agents: seq<AgentConfig>, sessions: map<string, TaskSession>, p: TaskParams,
                          sessionHex: string, toolHex: string): (ToolResult, map<string, TaskSession>)
  {
    match FindAgent(agents, p.subagentType)
    case None =>
      (ToolResult("错误: 未知代理类型", "未知的代理类型: " + p.subagentType + " 不是有效的代理类型",
         Some(map["error" := Str("unknown_agent_type"), "requested_type" := Str(p.subagentType),
                  "available_types" := List(Names(NonPrimary(agents)))])), sessions)
    case Some(agent) =>
      var id := "task_" + sessionHex;
      var reply := SimulatedReply(agent.name, p.prompt);
      var session := TaskSession(id, p.description, agent.name, "completed",
                                 [TaskMessage("assistant", reply, CompletedTimestamp)], map[]);
      var summary := Dict(map["id" := Str("tool_" + toolHex), "type" := Str("tool"),
                              "name" := Str("simulated_execution"), "status" := Str("completed")]);
      (ToolResult(p.description, reply,
         Some(map["session_id" := Str(id), "agent" := Str(agent.name), "summary" := List([summary]),
                  "status" := Str("completed")])), sessions[id := session])
  }

  /** An unknown agent type is reported with the listed types and starts no
      session; a known one leaves exactly one new completed session, keyed
      by its "task_" id, holding one assistant message with the reply, and
      every other session as it was. */
  lemma ExecuteSpec(agents: seq<AgentConfig>, sessions: map<string, TaskSession>, p: TaskParams,
                    sessionHex: string, toolHex: string)
    ensures var (r, after) := ExecuteOutcome(agents, sessions, p, sessionHex, toolHex);
      (FindAgent(agents, p.subagentType).None? ==>
         after == sessions && MetaIs(r, "error", Str("unknown_agent_type")) &&
         MetaIs(r, "available_types", List(Names(NonPrimary(agents))))) &&
      (FindAgent(agents, p.subagentType).Some? ==>
         var id := "task_" + sessionHex;
         id in after && after[id].status == "completed" && |after[id].messages| == 1 &&
         after[id].messages[0].role == "assistant" && after[id].messages[0].content == r.output &&
         after[id].agent == p.subagentType && r.title == p.description &&
         MetaIs(r, "session_id", Str(id)) && MetaIs(r, "status", Str("completed")) &&
         forall k :: k in sessions && k != id ==> k in after && after[k] == sessions[k])
  {
  }

  /** `execute` looks agents up among all registered ones, so a "primary"
      agent runs as a sub-agent although `available_types` never lists it. */
  lemma PrimaryRunsUnlisted(agents: seq<AgentConfig>, sessions: map<string, TaskSession>, p: TaskParams,
                            sessionHex: string, toolHex: string)
    requires UniqueNames(agents)
    requires FindAgent(agents, p.subagentType).Some? && FindAgent(agents, p.subagentType).value.mode == "primary"
    ensures MetaIs(ExecuteOutcome(agents, sessions, p, sessionHex, toolHex).0, "status", Str("completed"))
    ensures Str(p.subagentType) !in Names(NonPrimary(agents))
  {
    var listed := NonPrimary(agents);
    var names := Names(listed);
    forall k | 0 <= k < |names|
      ensures names[k] != Str(p.subagentType)
    {
      assert listed[k] in agents;
      FindRegistered(agents, listed[k]);
    }
  }

  /** With unique names, a registered agent is what its name finds. */
  lemma FindRegistered(agents: seq<AgentConfig>, a: AgentConfig)
    requires UniqueNames(agents) && a in agents
    ensures FindAgent(agents, a.name) == Some(a)
  {
    var j :| 0 <= j < |agents| && agents[j] == a;
    var r := FindAgent(agents, a.name);
    var i :| 0 <= i < |agents| && agents[i] == r.value && forall m :: 0 <= m < i ==> agents[m].name != a.name;
    assert i == j;
  }

  /** The shared state of every `TaskManager()`: the registered agents and
      the sessions by id. */
  class TaskManager {
    var agents: seq<AgentConfig>
    var sessions: map<string, TaskSession>

    ghost predicate Valid()
      reads this
    {
      UniqueNames(agents)
    }

    constructor ()
      ensures Valid() && agents == [] && sessions == map[]
    {
      agents, sessions := [], map[];
    }

    /** `register_agent`: scans for the name and appends only when it is
        absent. */
    method RegisterAgent(agent: AgentConfig)
      requires Valid()
      modifies this
      ensures Valid() && agents == Registered(old(agents), agent) && sessions == old(sessions)
    {
      var i := 0;
      while i < |agents|
        invariant i <= |agents|
        invariant forall j :: 0 <= j < i ==> agents[j].name != agent.name
      {
        if agents[i].name == agent.name {
          return;
        }
        i := i + 1;
      }
      RegisteredSpec(agents, agent);
      agents := agents + [agent];
    }

    /** `get_agents`. */
    function GetAgents(): (r: seq<AgentConfig>)
      reads this
      ensures forall a :: a in r <==> a in agents && a.mode != "primary"
    {
      NonPrimary(agents)
    }

    /** `get_agent`: the first registered agent with the name, primary or
        not. */
    method GetAgent(name: string) returns (r: Option<AgentConfig>)
      ensures r == FindAgent(agents, name)
    {
      var i := 0;
      while i < |agents|
        invariant i <= |agents|
        invariant FindAgent(agents, name) == FindAgent(agents[i..], name)
      {
        assert agents[i..][1..] == agents[i + 1..];
        if agents[i].name == name {
          return Some(agents[i]);
        }
        i := i + 1;
      }
      return None;
    }

    /** `create_session`: a running session with no messages stored under
        "task_" and the drawn hex digits, replacing any session that had
        that id. */
    method CreateSession(parentSessionId: string, description: string, agentName: string, hex: string)
      returns (s: TaskSession)
      modifies this
      ensures s == TaskSession("task_" + hex, description, agentName, "running", [], map[])
      ensures sessions == old(sessions)["task_" + hex := s] && agents == old(agents)
    {
      s := TaskSession("task_" + hex, description, agentName, "running", [], map[]);
      sessions := sessions[s.id := s];
    }

    /** `get_session`. */
    function GetSession(id: string): (r: Option<TaskSession>)
      reads this
      ensures r.Some? <==> id in sessions
      ensures r.Some? ==> r.value == sessions[id]
    {
      if id in sessions then Some(sessions[id]) else None
    }

    /** `abort_session`: a known session becomes "aborted"; an unknown id
        changes nothing. */
    method AbortSession(id: string)
      modifies this
      ensures id !in old(sessions) ==> sessions == old(sessions)
      ensures id in old(sessions) ==> sessions == old(sessions)[id := old(sessions)[id].(status := "aborted")]
      ensures agents == old(agents)
    {
      if id in sessions {
        sessions := sessions[id := sessions[id].(status := "aborted")];
      }
    }
  }

  /** The agents the task tool registers when it is built, in order. */
  const DefaultAgents: seq<AgentConfig> := [
    AgentConfig("code_reviewer", "用于审查代码质量、发现潜在问题和建议改进的代理", "secondary",
                map["read" := true, "grep" := true, "bash" := false], None, None),
    AgentConfig("file_searcher", "专门用于搜索和分析文件内容的代理", "secondary",
                map["read" := true, "grep" := true, "glob" := true, "bash" := false], None, None),
    AgentConfig("test_generator", "用于生成单元测试和集成测试的代理", "secondary",
                map["read" := true, "write" := true, "bash" := true], None, None),
    AgentConfig("doc_generator", "用于生成和维护项目文档的代理", "secondary",
                map["read" := true, "write" := true, "grep" := true], None, None),
    AgentConfig("refactor_agent", "用于代码重构和优化的代理", "secondary",
                map["read" := true, "edit" := true, "grep" := true, "bash" := true], None, None)
  ]

  /** The task tool, over the shared manager. */
  class TaskTool {
    const manager: TaskManager

    /** `TaskTool()`: registers each default agent whose name is not yet
        taken, so building the tool again adds nothing. */
    constructor (manager: TaskManager)
      requires manager.Valid()
      modifies manager
      ensures this.manager == manager && manager.Valid()
      ensures manager.sessions == old(manager.sessions)
      ensures forall k :: 0 <= k < |DefaultAgents| ==> FindAgent(manager.agents, DefaultAgents[k].name).Some?
    {
      this.manager := manager;
      var i := 0;
      while i < |DefaultAgents|
        invariant i <= |DefaultAgents|
        invariant manager.Valid() && manager.sessions == old(manager.sessions)
        invariant forall k :: 0 <= k < i ==> FindAgent(manager.agents, DefaultAgents[k].name).Some?
      {
        ghost var before := manager.agents;
        manager.RegisterAgent(DefaultAgents[i]);
        RegisteredSpec(before, DefaultAgents[i]);
        i := i + 1;
      }
    }

    /** `execute`: look the agent up, start its session, and complete the
        session with the agent's reply. */
    method Execute(p: TaskParams, parentSessionId: string, sessionHex: string, toolHex: string)
      returns (r: ToolResult)
      requires manager.Valid()
      modifies manager
      ensures manager.Valid() && manager.agents == old(manager.agents)
      ensures (r, manager.sessions) == ExecuteOutcome(old(manager.agents), old(manager.sessions), p, sessionHex, toolHex)
    {
      var agent := manager.GetAgent(p.subagentType);
      ghost var before := manager.sessions;
      if agent.None? {
        var available := Names(manager.GetAgents());
        return ToolResult("错误: 未知代理类型", "未知的代理类型: " + p.subagentType + " 不是有效的代理类型",
          Some(map["error" := Str("unknown_agent_type"), "requested_type" := Str(p.subagentType),
                   "available_types" := List(available)]));
      }
      var session := manager.CreateSession(parentSessionId, p.description, agent.value.name, sessionHex);
      var reply := SimulatedReply(agent.value.name, p.prompt);
      var message := TaskMessage("assistant", reply, CompletedTimestamp);
      assert session.messages + [message] == [message];
      session := session.(status := "completed", messages := session.messages + [message]);
      manager.sessions := manager.sessions[session.id := session];
      assert manager.sessions == before[session.id := session];
      var summary := Dict(map["id" := Str("tool_" + toolHex), "type" := Str("tool"),
                              "name" := Str("simulated_execution"), "status" := Str("completed")]);
      r := ToolResult(p.description, reply,
        Some(map["session_id" := Str(session.id), "agent" := Str(agent.value.name), "summary" := List([summary]),
                 "status" := Str(session.status)]));
    }
  }
}
