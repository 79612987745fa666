# A verified model of an LLM task agent's core

The system is a Python task agent. It talks to a language model and lets the model ask for tools: shell commands, file reads and edits, patches, directory listings, searches and sub-tasks. It gates risky calls behind an approval policy, feeds the results back to the model, and keeps the growing conversation under a token budget by compacting it. This project models that core in Dafny, one module per source file, and proves what each part promises.

What is modelled:

- **Compaction.**
  - `CompactionUtils` covers the token estimate, text extraction and the "system-like" test.
  - `CompactionBase` holds the mutable message dicts.
  - `OpenCode` is the OpenCode strategy: the in-place prune pass and the summary rebuild.
  - `Manager` covers the strategy registry and the attempt counters.
- **Protocol and the model client.**
  - `Protocol` holds operations, events and token usage.
  - `Client` covers the client's history, the request it builds and the accumulation of a streamed answer.
- **The turn engine.**
  - `AgentTurn` runs one turn: the assistant message, tool messages in call order, and approvals parked and answered.
  - `Session` covers the approval classifier, the bounded user-input loop, execution approvals and the token counters.
- **Memory.**
  - `MemoryModels` holds the dictionary forms of the records and their round trips.
  - `Memory` covers the memory manager: the in-memory history mirrored into its rollout file.
  - `Rollout` covers the rollout file: writing it, replaying it to resume a session, and listing sessions.
- **Tools.**
  - `Registry`: the registry and its instance cache.
  - `Edit`: the edit tool, with its Levenshtein table and its five replacers tried in order.
  - `MultiEdit`: the multi-edit tool.
  - `Patch`: the unified-diff reader and applier.
  - `FileTools`: reading and writing files.
  - `Web`: web fetch and search.
  - `Bash`: the bash tool.
  - `Sandbox`: the sandbox policy.
  - `List`: the list tool.
  - `Grep`: the grep tool.
  - `Task`: the task tool.
- **The agent side.**
  - `Turn`: the agent-side turn.
  - `CodeAgent`: the ReAct agent.
  - `SimpleController`: the simple controller.
  - `Planner`: the planner.
  - `TurnBasedAgent`: the turn-based agent.
  - `Helpers`: the general helpers.
- **Shared modules.**
  - `Wrappers` provides Option and Result.
  - `Values` provides JSON-like values and a codec.
  - `Text` models the Python `str` operations the core uses. It follows Python exactly on ASCII text; `isdigit`, `lower` and `int()` are ASCII only (see "## Left out").
  - `Paths` covers POSIX path text.
  - `ToolBase` holds the tool context and result.

How the model is built:

- Objects whose fields the source updates in place are classes whose methods state the whole new state. These include the compaction manager, the model client, the agent turn, the session, the memory manager, the registry, the task manager and the agents.
- Loops are methods proved against specification functions.
- The properties the source promises are lemmas about those functions, for example:
  - replaying a written rollout gives back what was recorded;
  - a written patch is read back;
  - the edit cascade tries its candidates in order;
  - compaction keeps the protected window;
  - the agents' counted loops end within their turn limits. The no-tool branch of `multi_turn_reasoning` does not count its rounds, so that loop has no bound (see "## Findings").
- The language model, tool executions, the clock, the file system and JSON parsing are parameters: oracles supplied by the caller.

Behaviour of the source that the proofs make explicit, without counting it as a defect:

- The multi-edit tool is not atomic: edits before a failing one stay written (`MultiEdit.FailureKeepsEarlier`).
- Each edit of the multi-edit tool reads the file that the previous edit wrote, in text mode. So "\r\n" and a lone "\r" reach it as "\n" (`Edit.Newlines`, `MultiEdit.AppliedInOrder`).
- The list tool matches its default directory patterns as substrings of the whole path (`List.SubstringSkipped`).
- The list tool's top-level call renders every depth without connectors (`List.TopLevelFlat`).
- The sandbox's ".git" test also protects ".github" (`Sandbox.GithubProtected`).
- In bash, the "rm -rf /*" pattern is shadowed by "rm -rf /" (`Bash.ShadowedPattern`).

## Model

| member | source | states |
|---|---|---|
| CompactionUtils.EstimateTokens | src/core/compaction/utils.py:7-10 | the estimate is `len // 4`: four times it is at most the length and more than the length minus four |
| CompactionUtils.EstimateTokensMonotone | src/core/compaction/utils.py:7-10 | a longer text never has a smaller estimate; a concatenation's estimate is at least the sum of the parts' |
| CompactionUtils.EstimateContent | src/core/compaction/utils.py:7-10 | on a raw content value: a string gives its estimate, None and 0 give 0, and a list (unhashable for the cache) or a non-zero number raises, and only those |
| CompactionUtils.ItemTexts | src/core/compaction/utils.py:19-25 | at most one text per item |
| CompactionUtils.ItemTextsAppend | src/core/compaction/utils.py:19-25 | collecting item texts keeps input order and looks at each item on its own |
| CompactionUtils.ItemTextsSingle | src/core/compaction/utils.py:22-25 | an item is kept exactly when it is a dict of type "text" or a bare string |
| CompactionUtils.ExtractText | src/core/compaction/utils.py:13-28 | string content is returned unchanged, list content is the kept item texts joined with "\n", anything else is "" |
| CompactionUtils.AnyPrefixIff | src/core/compaction/utils.py:39-40 | the `any(startswith)` test holds exactly when some listed prefix starts the text |
| CompactionUtils.SystemMessageRoles | src/core/compaction/utils.py:31-42 | only system and user messages are system-like; a user message is exactly when its text starts with one of the three tags |
| CompactionUtils.UntaggedUserTurn | src/core/compaction/utils.py:37-47 | a user message whose text does not open with '<' is a user turn |
| CompactionUtils.CountUserTurns | src/core/compaction/utils.py:45-47 | the number of user turns never exceeds the number of messages |
| CompactionUtils.CountUserTurnsAppend | src/core/compaction/utils.py:45-47 | the count distributes over concatenation |
| CompactionUtils.CountUserTurnsZero | src/core/compaction/utils.py:45-47 | the count is zero exactly when no message is a non-system user message |
| OpenCode.NewStrategy | src/core/compaction/strategies/opencode.py:27-37 | with no overrides every setting is its class constant (20000, 40000, 2, 0.75); each of the four settings (`prune_minimum`, `prune_protect`, `protect_turns`, `auto_compact_threshold`) is its override when the config gives one and its class constant otherwise |
| OpenCode.ShouldCompactIff | src/core/compaction/strategies/opencode.py:39-46 | with a positive budget, compaction is due exactly when current tokens reach the threshold times the maximum |
| OpenCode.ShouldCompactDefaults | src/core/compaction/strategies/opencode.py:39-46 | with the defaults, 100000 of 128000 triggers, 50000 of 128000 does not, and a zero maximum never does |
| OpenCode.ScanStep | src/core/compaction/strategies/opencode.py:94-119 | one loop iteration counts a user turn, and either leaves the list alone or clears one uncompacted tool message outside the protected window once the summed tokens pass the budget |
| OpenCode.PruneScan | src/core/compaction/strategies/opencode.py:94-121 | the scan keeps the list's length |
| OpenCode.ScanShape | src/core/compaction/strategies/opencode.py:94-119 | positions not yet reached keep their values; a changed position held an uncompacted tool message with enough user turns after it, now cleared |
| OpenCode.ScanStop | src/core/compaction/strategies/opencode.py:104-109 | past the protected window a summary or a compacted tool message ends the scan: nothing at or before it changes |
| OpenCode.ScanCounts | src/core/compaction/strategies/opencode.py:107-121 | pruned tokens never exceed the summed tokens, and the pruned count is the number of positions changed |
| OpenCode.ClearToolOutput | src/core/compaction/strategies/opencode.py:116-117 | writing the cleared content and timestamp into one tool dict changes exactly that message's value |
| OpenCode.PruneVisit | src/core/compaction/strategies/opencode.py:95-119 | the loop body on the dicts does what `ScanStep` says to the values |
| OpenCode.Prune | src/core/compaction/strategies/opencode.py:87-121 | the dicts after the pass and the counters (or the raised TypeError) are those of the scan specification |
| OpenCode.PruneOnlyClearsOldToolOutput | src/core/compaction/strategies/opencode.py:94-119 | the list keeps its length; only uncompacted tool messages with at least `protect_turns` user turns at or after them change, and they are cleared; the protected window is untouched; `PruneClearsOldToolOutput` is its converse |
| OpenCode.PruneClearsOldToolOutput | src/core/compaction/strategies/opencode.py:94-119 | an uncompacted tool message outside the protected window, with no summary or compacted tool message past the window between it and the end, is cleared exactly when the tool tokens estimated from it to the end exceed `prune_protect` (and kept otherwise) |
| OpenCode.ScanClears | src/core/compaction/strategies/opencode.py:98-119 | the induction behind the converse: from any iteration above that message, the scan clears it exactly when the running sum plus the remaining window tool tokens exceed `prune_protect` |
| OpenCode.ClearStepAt | src/core/compaction/strategies/opencode.py:110-119 | the iteration at the message adds its estimate and clears it exactly when the sum passes `prune_protect`; later iterations leave it alone |
| OpenCode.PruneStopsAtBoundary | src/core/compaction/strategies/opencode.py:104-109 | the newest summary or compacted tool message past the window bounds the pass: nothing at or before it changes |
| OpenCode.PruneCounts | src/core/compaction/strategies/opencode.py:113-121 | `pruned_tokens <= total_tokens` and `pruned_count` is the number of messages changed |
| OpenCode.PruneKeepsKinds | src/core/compaction/strategies/opencode.py:107-119 | every message keeps its role, summary flag, system-likeness and user-turn status |
| OpenCode.FindLastSummaryIndex | src/core/compaction/strategies/opencode.py:168-173 | the result is -1 or a summary message's index, and no later message is a summary |
| OpenCode.SystemMessages | src/core/compaction/strategies/opencode.py:135-137 | the system-like messages in order, no more than the input |
| OpenCode.NonSystemMessages | src/core/compaction/strategies/opencode.py:165 | the other messages in order, no more than the input |
| OpenCode.SystemSplit | src/core/compaction/strategies/opencode.py:135-137 | each message goes to exactly one filter, and the system filter distributes over concatenation |
| OpenCode.FilterSummarized | src/core/compaction/strategies/opencode.py:161-166 | with no summary, all non-system-like messages; otherwise the suffix from the newest summary |
| OpenCode.FilterSummarizedEmpty | src/core/compaction/strategies/opencode.py:125-128 | nothing is left to summarise exactly when there is no summary and every message is system-like |
| OpenCode.SummaryIsStripped | src/core/compaction/strategies/opencode.py:175-193 | the template has nothing to strip, opens with its header and closes with the request to continue |
| OpenCode.AppendedMessageKinds | src/core/compaction/strategies/opencode.py:140-152 | the added summary is a summary and not system-like; the resume prompt is an ordinary user turn |
| OpenCode.FilterFirstTime | src/core/compaction/strategies/opencode.py:161-173 | with no summary message, every non-system-like message is summarised |
| OpenCode.CompactFirstTime | src/core/compaction/strategies/opencode.py:123-159 | with no earlier summary the result is the system-like messages, the summary and the resume prompt: no recent message survives |
| OpenCode.CompactAfterSummary | src/core/compaction/strategies/opencode.py:123-159 | with an earlier summary at k the result is the system-like messages, the new summary of `vs[k..]`, the resume prompt, then `vs[k+1..]` |
| OpenCode.RebuiltNewestSummary | src/core/compaction/strategies/opencode.py:132-157 | in a rebuilt list the newest summary is the one just added, right after the system-like messages |
| OpenCode.CompactNewestSummary | src/core/compaction/strategies/opencode.py:123-159 | after a compaction that did something, the newest summary sits right after the system-like messages |
| OpenCode.TailAfterNewestSummary | src/core/compaction/strategies/opencode.py:155-157 | what follows the newest summary holds no summary |
| OpenCode.CompactTwiceGrows | src/core/compaction/strategies/opencode.py:123-159 | compacting a freshly compacted list again is not a no-op: it grows by at least one message |
| OpenCode.RebuiltLength | src/core/compaction/strategies/opencode.py:132-159 | the rebuilt length is the system-like count plus two plus the messages after the newest summary |
| OpenCode.SystemIdempotent | src/core/compaction/strategies/opencode.py:135-137 | filtering system-like messages twice is filtering once |
| OpenCode.TotalTokens | src/core/compaction/strategies/opencode.py:63 | the token total of no messages is 0 |
| OpenCode.CompressionRatio | src/core/compaction/strategies/opencode.py:73 | between 0 and 1 when the final total does not exceed the initial one, and 0 exactly when nothing was saved |
| OpenCode.CompactMessages | src/core/compaction/strategies/opencode.py:123-159 | the returned dicts hold the values of the compaction specification |
| OpenCode.Compact | src/core/compaction/strategies/opencode.py:48-85 | prunes the caller's dicts in place (shallow copy); a prune error gives a failed result over the caller's list with zero counts; otherwise success with the rebuilt messages, `removed_count` = before minus after, `tokens_saved` and strategy "opencode" |
| OpenCode.GetMetadata | src/core/compaction/strategies/opencode.py:195-200 | the name is "opencode" and the author the default "Creative Agent Team" |
| OpenCode.LastSummaryUnique | src/core/compaction/strategies/opencode.py:168-173 | the index found is that of the last summary message |
| OpenCode.NewestSummaryAt | src/core/compaction/strategies/opencode.py:168-173 | after a summary and its follow-up, with no later summary, the summary's index is found |
| Manager.FreshMetrics | src/core/compaction/manager.py:16-24 | a fresh record has the given name, all counters zero and no compaction time |
| Manager.SuccessRate | src/core/compaction/manager.py:26-29 | between 0 and 1; 0 with no attempts and exactly when nothing succeeded; 1 exactly when something succeeded and nothing failed |
| Manager.AvgDuration | src/core/compaction/manager.py:31-33 | times the success count it gives back the total duration; 0 with no successes |
| Manager.Recorded | src/core/compaction/manager.py:94-106 | a success adds one success and its saved tokens; a failure adds one failure only; either way the duration grows and the time is set |
| Manager.RecordedRate | src/core/compaction/manager.py:26-106 | a recorded success never lowers the success rate and a recorded failure never raises it |
| Manager.Or | src/core/compaction/manager.py:58 | `a or b`: a truthy name wins, otherwise the fallback |
| Manager.CompactionManager.constructor | src/core/compaction/manager.py:39-43 | no strategies, no metrics, no current strategy |
| Manager.CompactionManager.RegisterStrategy | src/core/compaction/manager.py:45-48 | the strategy and a fresh zero record are stored under the name, overwriting earlier ones; the selection is unchanged |
| Manager.CompactionManager.SetStrategy | src/core/compaction/manager.py:50-55 | succeeds exactly for a registered name and selects it; an unknown name is an error and leaves the selection unchanged |
| Manager.CompactionManager.GetStrategy | src/core/compaction/manager.py:57-63 | the explicit name or else the current one; an error exactly when that is unset, empty or unknown |
| Manager.CompactionManager.RecordCompaction | src/core/compaction/manager.py:94-106 | the strategy's record (made fresh if missing) is replaced by the recorded one; nothing else changes |
| Manager.CompactionManager.CheckAndCompact | src/core/compaction/manager.py:65-92 | no strategy: an error with nothing counted; not forced and not due: None with nothing counted; otherwise one attempt is counted (an exception as a failure with no tokens) and the result is returned or the exception re-raised |
| Manager.CompactionManager.GetMetrics | src/core/compaction/manager.py:108-112 | the stored record of the named or current strategy, else a fresh record named after it (or "unknown") that is not stored |
| Protocol.ParseApproval | src/core/protocol.py:12-17 | a parsed policy has the given string as its value (any other string is a ValueError) |
| Protocol.ApprovalRoundTrip | src/core/protocol.py:12-17 | every approval policy parses back from its value |
| Protocol.ParseSandbox | src/core/protocol.py:20-24 | a parsed sandbox policy has the given string as its value |
| Protocol.SandboxRoundTrip | src/core/protocol.py:20-24 | every sandbox policy parses back from its value |
| Protocol.UserInputOp | src/core/protocol.py:48-55 | type "user_input", exactly one text item carrying the text, the given working directory or the process's, no id or decision |
| Protocol.InterruptOp | src/core/protocol.py:57-60 | type "interrupt" with no items |
| Protocol.ExecApprovalOp | src/core/protocol.py:62-65 | type "exec_approval" carrying the given id and decision |
| Protocol.ItemTexts | src/core/session.py:149 | the non-empty item texts, at most one per item |
| Protocol.UserInputText | src/core/protocol.py:48-55 | joining the texts of a user-input operation's items gives the text back |
| Protocol.CreateSubmission | src/core/protocol.py:75-78 | the submission carries the operation under the fresh id |
| Protocol.ZeroUsage | src/core/protocol.py:81-90 | the all-default usage is zero |
| Protocol.MessageTexts | src/core/protocol.py:103-143 | the completion text is stored under "last_agent_message" only; agent, user and error messages under "message" |
| Protocol.TokenCountRoundTrip | src/core/protocol.py:145-152 | the four usage fields are copied verbatim and are the only keys |
| Protocol.EventJson | src/core/protocol.py:162-171 | exactly the keys id, msg and timestamp, carrying the event's id and timestamp |
| Protocol.EventJsonRoundTrip | src/core/protocol.py:162-171 | without a "type" data key the event is recovered from its JSON form, whose msg holds "type" plus every data key |
| Protocol.EventJsonTypeOverride | src/core/protocol.py:166-169 | a data key "type" overrides the message type in the JSON form |
| Client.ToolCallsValue | src/core/model_client.py:194-204 | one dict per tool call, in order, each reading back as its call |
| Client.RequestDictKeys | src/core/model_client.py:152-163 | role and content always; "tool_calls" and "tool_call_id" exactly when those fields are truthy |
| Client.RequestRoundTrip | src/core/model_client.py:152-163 | a message is recovered from its request dict, except that an empty call list or call id is dropped |
| Client.BuildRequest | src/core/model_client.py:150-165 | one dict per history message, in history order |
| Client.BuildRequestAppend | src/core/model_client.py:150-165 | appending a message to the history appends its dict to the request |
| Client.ToolsSchema | src/core/model_client.py:63-146 | four tools with distinct names, each requiring only parameters it declares |
| Client.KeptCalls | src/core/model_client.py:248-257 | no more calls than fragments |
| Client.KeptCallsAll | src/core/model_client.py:248-257 | when every fragment carries an id, every fragment becomes a call, in order |
| Client.KeptCallsSkip | src/core/model_client.py:249 | a fragment without an id contributes nothing |
| Client.KeptCallIds | src/core/model_client.py:249 | every kept call has a non-empty id |
| Client.StreamedTextAppend | src/core/model_client.py:241-245 | content deltas are concatenated in order |
| Client.StreamedCallsAppend | src/core/model_client.py:241-257 | the calls of a stream are those of its parts, in order |
| Client.StreamedCallIds | src/core/model_client.py:241-257 | every call kept from a stream has a non-empty id |
| Client.ModelClient.constructor | src/core/model_client.py:35-41 | the history starts empty |
| Client.ModelClient.AddSystemMessage | src/core/model_client.py:43-45 | appends exactly one system message at the end, earlier entries untouched |
| Client.ModelClient.AddUserMessage | src/core/model_client.py:47-49 | appends exactly one user message at the end |
| Client.ModelClient.AddAssistantMessage | src/core/model_client.py:51-53 | appends one assistant message carrying the tool calls as given |
| Client.ModelClient.AddToolMessage | src/core/model_client.py:55-57 | appends one tool message with the id as `tool_call_id` and no calls |
| Client.ModelClient.ClearHistory | src/core/model_client.py:59-61 | the history is empty afterwards |
| Client.ModelClient.ChatCompletion | src/core/model_client.py:148-175 | sends the request built from the history; a failure of either transport surfaces prefixed with "模型请求失败: "; a stream is accumulated |
| Client.StreamedResponse | src/core/model_client.py:259-267 | a streamed answer has all-zero usage and finish reason "stop" |
| Client.StreamCompletion | src/core/model_client.py:226-267 | the loop over the chunks yields the streamed answer: concatenated text and the id-carrying calls |
| Client.AppendKeptCalls | src/core/model_client.py:248-257 | the inner loop appends exactly the id-carrying fragments, in order |
| AgentTurn.AnySuccessIff | src/core/agent_turn.py:83-85 | a turn has a successful call exactly when some response succeeded |
| AgentTurn.GetSummaryEmpty | src/core/agent_turn.py:87-98 | the summary is "空响应" exactly when text, thoughts, calls and usage are all absent |
| AgentTurn.ParseCalls | src/core/agent_turn.py:197-203 | no more requests than calls |
| AgentTurn.ParseCallsAppend | src/core/agent_turn.py:197-203 | call order is kept and each call is decoded on its own |
| AgentTurn.ParseCallsSingle | src/core/agent_turn.py:199-203 | a call whose arguments fail to decode is dropped; otherwise it becomes one request with its id, name and arguments |
| AgentTurn.ParseCallsAllOk | src/core/agent_turn.py:197-203 | when all arguments decode, every call becomes a request, in order |
| AgentTurn.ParseLlmResponse | src/core/agent_turn.py:180-209 | text, usage and finish reason copied; no responses yet; one thought exactly for a non-empty reasoning content; the parsed calls |
| AgentTurn.ExecuteToolCall | src/core/agent_turn.py:261-293 | answers the call's id; succeeds exactly when the registry returned a result, whose output is the text; otherwise the "执行失败或返回空结果" error naming the tool |
| AgentTurn.MessagesFor | src/core/agent_turn.py:230-232 | one tool message per response, in order, with its call id and text |
| AgentTurn.HandledAppends | src/core/agent_turn.py:211-232 | the call loop only appends to the history: one tool message per response, in response order |
| AgentTurn.HandledPending | src/core/agent_turn.py:221-224 | exactly the calls that need approval are parked, under their call ids |
| AgentTurn.HandledAllRun | src/core/agent_turn.py:211-232 | with no call needing approval, each call yields one response, in call order |
| AgentTurn.AssistantFirst | src/core/agent_turn.py:129-158 | the turn's assistant message comes right after the old history and before every tool message of the turn |
| AgentTurn.AgentTurn.constructor | src/core/agent_turn.py:104-115 | keeps the client and session id, with nothing pending |
| AgentTurn.AgentTurn.ExecuteTurn | src/core/agent_turn.py:117-178 | a failed request gives a result with only "执行出错: " and the error, history untouched; otherwise the assistant message (iff text or calls), then the tool messages, and the parked calls |
| AgentTurn.AgentTurn.HandleToolCalls | src/core/agent_turn.py:211-259 | history, pending table and responses are those of the call-loop specification |
| AgentTurn.AgentTurn.RequestApproval | src/core/agent_turn.py:309-317 | the call is stored under its id |
| AgentTurn.AgentTurn.HandleApprovalResponse | src/core/agent_turn.py:330-378 | True exactly for a pending id; unknown ids change nothing; a pending one gets exactly one tool message and its entry removed |
| AgentTurn.ApprovalText | src/core/agent_turn.py:337-364 | rejected: "用户拒绝执行工具调用: " and the tool name, without running it; approved: the tool's output, or the failure text when the registry returns nothing |
| Session.DictGet | src/core/session.py:290-294 | `arguments.get` succeeds exactly on a dict |
| Session.MemberOf | src/core/session.py:291-296 | `in` succeeds exactly on a string, a list or a dict |
| Session.AnyMember | src/core/session.py:291-296 | `any(...)` succeeds exactly on an iterable container, and is true exactly when some item is a member |
| Session.NeedsApproval | src/core/session.py:280-303 | an unknown policy is an error; "never" and "on_failure" never ask; "unless_trusted" asks for everything but read_file; "on_request" asks only about commands and file writes |
| Session.OnRequestCommand | src/core/session.py:286-291 | under "on_request" a command needs approval exactly when its lower-cased text contains rm, del, format, sudo or chmod |
| Session.OnRequestWrite | src/core/session.py:292-296 | under "on_request" a file write needs approval exactly when its path contains /etc, /sys, /proc or C:\Windows |
| Session.AlwaysPolicyFails | src/core/session.py:282 | the policy "always" is no `AskForApproval`, so every classification under it fails |
| Session.SafeResultText | src/core/session.py:262-278 | an exception gives "工具执行失败: name(args) - error"; None gives the no-result text; a dict or list is pretty-printed JSON; a string is itself |
| Session.ApprovalRequest | src/core/session.py:305-326 | a command's event carries the command and the working directory (failing exactly when the arguments are not a dict or the cwd is not text); any other tool's event carries its name, arguments and reason |
| Session.OutcomeCases | src/core/session.py:227-260 | unparsable arguments are answered with the parse error; a call is parked exactly when its arguments parse and it needs approval; otherwise it is answered with the tool's result text |
| Session.Outcomes | src/core/session.py:227-260 | one outcome per call, in order |
| Session.Replies | src/core/session.py:236-260 | a call adds one tool message answering its id, except a parked call whose request went out |
| Session.Requests | src/core/session.py:249-328 | a parked call emits exactly its approval request |
| Session.ToolsHistory | src/core/session.py:227-260 | handling calls only appends to the history, each call's tool messages in call order |
| Session.ToolsEvents | src/core/session.py:249-328 | handling calls only appends each parked call's approval request, in call order |
| Session.ToolsPending | src/core/session.py:241-250 | exactly the calls needing approval are parked, under their ids |
| Session.RepliesCount | src/core/session.py:227-260 | the number of tool messages is the number of calls not parked with their request sent |
| Session.RepliesAreTool | src/core/session.py:227-260 | every message the calls add is a tool message |
| Session.SentIsRequest | src/core/session.py:305-326 | the event a parked call sends is an approval request |
| Session.RequestsNoCompletion | src/core/session.py:305-328 | approval requests are never completion events |
| Session.AddUsage | src/core/session.py:405-409 | input, output and total counts are added; the cached count is kept |
| Session.AddUsageLaws | src/core/session.py:405-409 | adding usages in turn adds their sum, and adding zero usage changes nothing |
| Session.Answer | src/core/session.py:167 | the service's answer on the request built from the history, or its error with the request-failure prefix |
| Session.LoopStep | src/core/session.py:164-203 | a pass continues, counting one turn, exactly when the answer succeeded, has tool calls and the executor could be made; otherwise the loop stops with the turn unchanged |
| Session.ReactLoopEnds | src/core/session.py:164-203 | the loop breaks off exactly when it ends below the bound, and never counts past the bound |
| Session.ReactLoopNoCompletion | src/core/session.py:164-203 | the loop emits no completion event |
| Session.StepNoCompletion | src/core/session.py:164-203 | one pass emits no completion event |
| Session.CompletesOnce | src/core/session.py:136-218 | every user input ends with exactly one completion, its last event |
| Session.MaxTurnsWarning | src/core/session.py:205-218 | after the loop's events comes the max-turns error exactly when the loop ran to the bound, then the completion |
| Session.ExecApprovalAsWrittenNeverFound | src/core/session.py:340-352 | as written (the `call_id` attribute `Op` lacks) every approval answer is reported as not found and the call stays pending |
| Session.ExecApprovalResolves | src/core/session.py:340-403 | answering a pending id removes it and appends exactly one tool message: the tool's result on approval, the refusal naming the tool otherwise; an unknown id only emits the error |
| Session.Session.constructor | src/core/session.py:20-61 | a fresh client whose history holds the system prompt, nothing pending, zero usage, no events, no task |
| Session.Session.UpdateTokenUsage | src/core/session.py:405-409 | the totals grow by the usage; nothing else changes |
| Session.Session.HandleToolCalls | src/core/session.py:220-260 | an executor that cannot be made raises before any call; otherwise the calls are handled as the specification says |
| Session.Session.HandleCall | src/core/session.py:228-260 | one call is answered, or parked and its approval requested |
| Session.Session.ReactTurn | src/core/session.py:165-203 | one pass of the loop does what `LoopStep` says |
| Session.Session.HandleUserInput | src/core/session.py:136-218 | task start, the user's text, the bounded loop, the bound's error when reached and the completion, as specified |
| Session.Session.OpenInput | src/core/session.py:140-157 | the task-started event, then the user's text appended and announced |
| Session.Session.RunLoop | src/core/session.py:159-203 | the loop from turn 0 with no agent message, as specified |
| Session.Session.HandleExecApproval | src/core/session.py:340-403 | resolves the call id the answer names, as specified |
| Session.Session.HandleInterrupt | src/core/session.py:330-338 | drops the current task and emits one "turn_aborted" event |
| Session.Session.HandleSubmission | src/core/session.py:119-134 | dispatches user input, interrupt and approval; any other type emits only the unknown-operation error |
| MemoryModels.MessageToDict | src/core/memory/models.py:19-34 | role, content and timestamp always; the tool fields exactly when truthy; every metadata key laid over them; the core fields keep their values unless metadata shadows them |
| MemoryModels.TimeOrNow | src/core/memory/models.py:40-110 | a missing or falsy timestamp means now; a text timestamp is parsed, failing when it does not parse |
| MemoryModels.TextOr | src/core/memory/models.py:48-116 | the default for a missing key, else the field's text (an error when it is not text) |
| MemoryModels.OptText | src/core/memory/models.py:52-118 | None for a missing or null field, the text for a string, an error otherwise |
| MemoryModels.TextAt | src/core/memory/models.py:113-141 | a required text field: succeeds exactly when present and text |
| MemoryModels.IntOr | src/core/memory/models.py:142-143 | the default for a missing key, else the integer (an error otherwise) |
| MemoryModels.MessageFromDictFields | src/core/memory/models.py:36-54 | metadata is every non-core key; role and content default to "user" and ""; the tool calls are read as given |
| MemoryModels.MessageRoundTrip | src/core/memory/models.py:19-54 | a message whose metadata does not shadow a core key and whose fields are truthy is recovered from its dict |
| MemoryModels.MetadataShadowsRole | src/core/memory/models.py:31-32 | a metadata key "role" overrides the role in the dict, so the role does not survive the round trip |
| MemoryModels.MetaToDict | src/core/memory/models.py:97-105 | exactly the six fields, carrying the id, cwd and model |
| MemoryModels.MetaFromDictFields | src/core/memory/models.py:107-119 | session id and cwd are required; the model defaults to "unknown" |
| MemoryModels.MetaRoundTrip | src/core/memory/models.py:97-119 | session metadata is recovered from its dict |
| MemoryModels.MarkerToDict | src/core/memory/models.py:130-136 | exactly the four fields, carrying summary and count |
| MemoryModels.MarkerFromDictDefaults | src/core/memory/models.py:138-145 | the summary is required; a marker with only a summary gets zero counts and strategy "unknown" |
| MemoryModels.MarkerRoundTrip | src/core/memory/models.py:130-145 | a marker is recovered from its dict |
| MemoryModels.LineToDict | src/core/memory/models.py:155-163 | exactly timestamp, type and data, the type naming the record |
| MemoryModels.LineFromDictChecks | src/core/memory/models.py:165-185 | a line needs a timestamp, one of the three types and a data dict; the type names the record read |
| MemoryModels.LineRoundTrip | src/core/memory/models.py:155-185 | a rollout line is recovered from its dict |
| Memory.BuildSystemPromptEmpty | src/core/memory/memory_manager.py:118-150 | the prompt starts with the base prompt, and is empty (so no system message is added) exactly when the base is empty and nothing is appended |
| Memory.FilteredKeeps | src/core/memory/memory_manager.py:318-340 | `get_messages` keeps exactly the wanted messages (no system ones, no compressed ones, as asked) and returns the whole list when nothing is filtered |
| Memory.FilteredInOrder | src/core/memory/memory_manager.py:318-340 | `get_messages` keeps the messages in their order: filtering a concatenation is the concatenation of the filtered parts |
| Memory.CountRole | src/core/memory/memory_manager.py:405-408 | a role count never exceeds the message count |
| Memory.RoleCountsSum | src/core/memory/memory_manager.py:404-408 | with the four known roles, the per-role counts add up to the total |
| Memory.StatsOfAppend | src/core/memory/memory_manager.py:400-408 | one more message adds one to its role's count and its estimate to the tokens |
| Memory.MessageLines | src/core/memory/memory_manager.py:357-359 | one message line per message written again |
| Memory.ApplyAllMessages | src/core/memory/memory_manager.py:357-359 | replaying message lines appends their messages |
| Memory.JournalStep | src/core/memory/memory_manager.py:306-316 | writing one more record extends the file by its line |
| Memory.StartMirrors | src/core/memory/memory_manager.py:101-111 | a file holding only the header replays to the header and no messages |
| Memory.MemoryManager.constructor | src/core/memory/memory_manager.py:45-116 | a new rollout file named `rollout-<stamp>-<id>.jsonl`, a session_meta line, and the system prompt as the first message when non-empty |
| Memory.MemoryManager.ResumeSession | src/core/memory/memory_manager.py:189-223 | succeeds exactly when the history loads; the messages, id, cwd and model are those read from the file |
| Memory.MemoryManager.Restore | src/core/memory/memory_manager.py:208-220 | the instance holds the loaded header and messages and appends to the same file |
| Memory.MemoryManager.AddMessage | src/core/memory/memory_manager.py:309-316 | appends the message and writes exactly its line to the file |
| Memory.MemoryManager.AddSystemMessage | src/core/memory/memory_manager.py:225-241 | appends and writes one system message |
| Memory.MemoryManager.AddUserMessage | src/core/memory/memory_manager.py:243-259 | appends and writes one user message |
| Memory.MemoryManager.AddAssistantMessage | src/core/memory/memory_manager.py:261-283 | appends and writes one assistant message with its tool calls |
| Memory.MemoryManager.AddToolMessage | src/core/memory/memory_manager.py:285-307 | appends and writes one tool message with its call id |
| Memory.MemoryManager.ReplaceMessages | src/core/memory/memory_manager.py:342-359 | the held history becomes the new list; with persist every message is written again after the file's content |
| Memory.MemoryManager.RecordCompaction | src/core/memory/memory_manager.py:361-383 | one marker line is written; the held messages do not change |
| Memory.MemoryManager.GetContextForLlm | src/core/memory/memory_manager.py:385-391 | one dict per held message, in order |
| Memory.ResumeRestoresMessages | src/core/memory/memory_manager.py:189-223 | resuming a file written only by the constructor and the add methods gives back the header and exactly the held messages |
| Memory.ReplacePersistReplays | src/core/memory/memory_manager.py:342-359 | replacing with persist writes the new list after the old, so a resume yields old followed by new, not the replacement alone |
| Rollout.RolloutRecorder.constructor | src/core/memory/rollout_recorder.py:32-44 | a recorder on a path keeps the path, the session id and what the file already holds |
| Rollout.RolloutRecorder.AppendLine | src/core/memory/rollout_recorder.py:87-99 | exactly one encoded line is appended to the file |
| Rollout.RolloutRecorder.WriteSessionMeta | src/core/memory/rollout_recorder.py:46-58 | one session_meta line stamped with the current time is appended |
| Rollout.RolloutRecorder.WriteMessage | src/core/memory/rollout_recorder.py:60-71 | one message line stamped with the current time is appended |
| Rollout.RolloutRecorder.WriteCompactedMarker | src/core/memory/rollout_recorder.py:73-85 | one compacted line stamped with the current time is appended |
| Rollout.SystemOnlyKeeps | src/core/memory/rollout_recorder.py:146-147 | at a marker exactly the system messages are kept |
| Rollout.SummaryMessage | src/core/memory/rollout_recorder.py:150-160 | the summary is a system message whose metadata is exactly compressed=True, the original count, the tokens saved and the strategy, and whose content ends with the summary |
| Rollout.Loaded | src/core/memory/rollout_recorder.py:115-174 | a missing file is an error; otherwise the load succeeds exactly when some line is a session header, giving that header and the replayed messages |
| Rollout.LoadHistory | src/core/memory/rollout_recorder.py:102-174 | the line-by-line loop gives the answer `Loaded` describes |
| Rollout.ReplayLines | src/core/memory/rollout_recorder.py:120-168 | the loop over parsed lines computes the replay of all of them |
| Rollout.ReplayStep | src/core/memory/rollout_recorder.py:133-139 | a line that is not a marker only appends its message (or nothing) |
| Rollout.ReplayWithoutMarkers | src/core/memory/rollout_recorder.py:124-168 | without markers, the history is the file's message lines in order |
| Rollout.ReplayAtMarker | src/core/memory/rollout_recorder.py:140-161 | at a marker the history becomes the system messages so far followed by the summary |
| Rollout.ReplayAfterLastMarker | src/core/memory/rollout_recorder.py:124-168 | after the last marker, later message lines are appended in order to the marker's result |
| Rollout.ReplayMetaIsLast | src/core/memory/rollout_recorder.py:133-171 | the header is that of the last session_meta line, and there is none exactly when no line is one |
| Rollout.ParseEncoded | src/core/memory/rollout_recorder.py:87-131 | a recoverable line reads back as itself |
| Rollout.WrittenLinesReplay | src/core/memory/rollout_recorder.py:87-174 | what the recorder writes, loading reads back: replaying the written lines is replaying the records |
| Rollout.FoundAreSessions | src/core/memory/rollout_recorder.py:190-203 | exactly the `rollout-*.jsonl` entries whose first line is a session header are listed |
| Rollout.InsertMultiset | src/core/memory/rollout_recorder.py:206 | insertion adds exactly the inserted entry |
| Rollout.InsertSorted | src/core/memory/rollout_recorder.py:206 | insertion into a descending list keeps it descending |
| Rollout.SortDescending | src/core/memory/rollout_recorder.py:206 | the sorted list is descending by creation time and a permutation of the input |
| Rollout.ListSessions | src/core/memory/rollout_recorder.py:177-207 | nothing for a missing directory; otherwise the found sessions sorted newest first |
| Rollout.CollectSessions | src/core/memory/rollout_recorder.py:190-203 | the loop collects exactly the found sessions in directory order |
| Rollout.ReplaySome | src/core/memory/rollout_recorder.py:124-168 | when every line parses, the loop's replay is the replay of the parsed lines |
| Registry.ToolInstance.constructor | src/tools/registry.py:177-183 | an instance records the class that built it and the spec it built |
| Registry.IndexOfSpec | src/tools/registry.py:148-158 | the index is -1 exactly when no tool has the id, else the first tool with it |
| Registry.LookupUnique | src/tools/registry.py:148-158 | with unique ids, looking up a stored tool's id finds that tool |
| Registry.PutLookup | src/tools/registry.py:105-106 | storing under an id keeps ids unique, replaces only that id's entry, and grows the table only for a new id |
| Registry.RemoveLookup | src/tools/registry.py:129-135 | removing an id keeps ids unique, makes only that id unknown, and shrinks the table only when it was present |
| Registry.RegisteredEffect | src/tools/registry.py:68-117 | registering fails exactly for a class that does not derive from `BaseTool` or fails to build; otherwise the tool is stored under its name with the given flag and nothing else changes |
| Registry.LoadStepEffect | src/tools/registry.py:60-66 | one default class adds its enabled tool, or nothing when it fails |
| Registry.LoadedLookup | src/tools/registry.py:60-66 | after loading a prefix of the defaults, an id is known exactly when some class in it provides it, and it is enabled |
| Registry.LoadedTools | src/tools/registry.py:54-66 | after loading all defaults, ids are unique and an id is known, enabled, exactly when a default class provides it |
| Registry.InsertByIdMultiset | src/tools/registry.py:224 | insertion adds exactly the tool |
| Registry.InsertByIdAscending | src/tools/registry.py:224 | insertion of a new id keeps the list ascending by id |
| Registry.SortByIdSpec | src/tools/registry.py:224 | `sorted(key=id)` is a permutation and ascending |
| Registry.EnabledOnly | src/tools/registry.py:222-223 | exactly the enabled tools are kept |
| Registry.EnabledOnlyUnique | src/tools/registry.py:222-223 | filtering keeps ids unique |
| Registry.ListToolsSpec | src/tools/registry.py:211-224 | the list is ascending by id and holds exactly the stored tools (the enabled ones, when asked), all of them when unfiltered |
| Registry.EnabledCountIsListed | src/tools/registry.py:351-352 | the count of enabled tools is the length of the enabled list |
| Registry.WithFlagEffect | src/tools/registry.py:239-271 | setting the flag of a known id changes only that tool's flag and keeps the ids |
| Registry.ToolRegistry.constructor | src/tools/registry.py:54-66 | the table is the result of loading the default classes in order, and no instance is cached |
| Registry.ToolRegistry.RegisterTool | src/tools/registry.py:68-117 | succeeds exactly when the class is accepted; then the table is the registered one and the id's cached instance is dropped; otherwise nothing changes |
| Registry.ToolRegistry.UnregisterTool | src/tools/registry.py:119-146 | succeeds exactly for a known id, which is removed from the table and the cache |
| Registry.ToolRegistry.GetToolInstance | src/tools/registry.py:160-189 | None for an unknown id; the cached instance when there is one; else a fresh instance, cached, when the class builds, and None when it fails |
| Registry.ToolRegistry.CreateToolInstance | src/tools/registry.py:191-209 | a fresh, uncached instance exactly when the id is known and its class builds |
| Registry.ToolRegistry.GetToolsDict | src/tools/registry.py:286-306 | one dict per listed tool, in order, with its id, name, description, parameters and flag |
| Registry.ToolRegistry.SetEnabled | src/tools/registry.py:239-271 | succeeds exactly for a known id, whose flag alone is set; the cache is untouched |
| Registry.ToolRegistry.EnableTool | src/tools/registry.py:239-254 | succeeds exactly for a known id, which becomes enabled |
| Registry.ToolRegistry.DisableTool | src/tools/registry.py:256-271 | succeeds exactly for a known id, which becomes disabled |
| Registry.ToolRegistry.ExecuteTool | src/tools/registry.py:308-337 | None without running for an unknown or disabled tool; otherwise a result exactly when the class builds and the run does not raise, and it is the run's result; the instance cache gains a fresh instance for that id exactly when none was cached and the class builds, and is otherwise unchanged |
| Registry.ToolRegistry.ClearCache | src/tools/registry.py:339-342 | the cache is emptied and the table kept |
| Registry.ToolRegistry.GetStatistics | src/tools/registry.py:344-361 | total, enabled and cached counts, disabled = total − enabled (never negative), and the ids in table order |
| Registry.ToolRegistry.ValidateToolParams | src/tools/registry.py:363-382 | true exactly when the id is known, its class builds and validation returns True; the instance cache gains a fresh instance for that id exactly when the id is known, none was cached and the class builds, and is otherwise unchanged |
| Registry.LoadedUnique | src/tools/registry.py:60-66 | loading the defaults never stores two tools under one id |
| Registry.ProvidedByExists | src/tools/registry.py:60-66 | an id is provided by the loaded prefix exactly when some class in it provides the id |
| Registry.RemovedGone | src/tools/registry.py:135 | with unique ids, deleting a tool's entry leaves no tool under its id |
| Registry.RemovedOthers | src/tools/registry.py:135 | deleting one entry leaves every other id's lookup unchanged |
| Edit.EditDistanceSpec | src/tools/edit_tool.py:50-71 | the distance to or from the empty string is the other's length, a string is at distance 0 from itself, and no distance exceeds the longer length |
| Edit.LevenshteinDistance | src/tools/edit_tool.py:50-71 | filling the table row by row yields the recursive edit distance |
| Edit.SimpleCandidates | src/tools/edit_tool.py:73-76 | the search text is proposed exactly when it occurs in the content |
| Edit.LinesMatchTrimmed | src/tools/edit_tool.py:87-93 | the comparison loop answers whether every line of the window equals its search line once both are stripped |
| Edit.MatchEnd | src/tools/edit_tool.py:99-105 | the end offset is the start plus the lines' lengths and one newline between consecutive lines |
| Edit.ScanTrimmed | src/tools/edit_tool.py:86-107 | the scan yields the windows of every start line that matches, in order |
| Edit.LineTrimmedReplacer | src/tools/edit_tool.py:78-107 | the replacer yields exactly the candidates `LineTrimmedCandidates` defines |
| Edit.TrimmedSource | src/tools/edit_tool.py:85-107 | every candidate is the content window of a start line whose stripped lines are the stripped search lines |
| Edit.NormalizeIdempotent | src/tools/edit_tool.py:111-112 | normalising whitespace twice is normalising once |
| Edit.NormalizeIsWords | src/tools/edit_tool.py:111-112 | normalised text is the words of `split()` joined by single spaces |
| Edit.WhitespaceNormalizedReplacer | src/tools/edit_tool.py:109-142 | the replacer yields exactly the candidates `WhitespaceCandidates` defines |
| Edit.WhitespaceCandidateNormal | src/tools/edit_tool.py:109-142 | every candidate normalises to what the search text normalises to |
| Edit.MinIndentSpec | src/tools/edit_tool.py:148-153 | the computed indentation is the least over the non-blank lines, absent exactly when all are blank |
| Edit.DedentKeepsText | src/tools/edit_tool.py:155-162 | cutting at most the least indentation keeps every line's stripped text |
| Edit.RemoveIndentationSpec | src/tools/edit_tool.py:146-162 | `remove_indentation` only removes leading whitespace, leaving some non-blank line unindented; a text of blank lines is unchanged |
| Edit.IndentationFlexibleReplacer | src/tools/edit_tool.py:144-171 | the replacer yields exactly the candidates `IndentCandidates` defines |
| Edit.IndentExactFound | src/tools/edit_tool.py:144-171 | when the search lines occur verbatim as whole content lines, the search text is a candidate |
| Edit.FindAnchorEnd | src/tools/edit_tool.py:190-195 | the inner loop finds the end line `AnchorEnd` defines |
| Edit.AnchorEndSpec | src/tools/edit_tool.py:190-195 | the end is the first line at or after the start that strips to the last search line, and there is none exactly when no such line exists |
| Edit.FindAnchors | src/tools/edit_tool.py:185-197 | the candidate search collects exactly the anchor pairs `AnchorsUpTo` defines |
| Edit.AnchorsSource | src/tools/edit_tool.py:185-197 | each candidate opens below the scanned limit on the line that gives it |
| Edit.AnchorsComplete | src/tools/edit_tool.py:185-197 | every line stripping to the first search line, with a line at least two further down stripping to the last one, gives a candidate |
| Edit.ShareBounds | src/tools/edit_tool.py:210-222 | one line pair's share of similarity lies between 0 and 1 |
| Edit.AnchorSimilarity | src/tools/edit_tool.py:205-225 | the similarity score lies between 0 and 1 |
| Edit.YieldSingleAnchor | src/tools/edit_tool.py:185-236 | the tail of the replacer yields the block of the single candidate, if any |
| Edit.CutLines | src/tools/edit_tool.py:227-236 | the offsets computed line by line cut out exactly the window of those lines |
| Edit.BlockAnchorReplacer | src/tools/edit_tool.py:173-236 | the replacer yields exactly the candidates `BlockAnchorCandidates` defines |
| Edit.BlockAnchorSource | src/tools/edit_tool.py:173-236 | a candidate needs at least three search lines and is the run of whole content lines of the only anchor pair |
| Edit.BlockAnchorLines | src/tools/edit_tool.py:185-197 | that block opens on a line matching the first search line and closes on the first line, at least two further down, matching the last one |
| Edit.TryCandidates | src/tools/edit_tool.py:253-267 | the candidate loop returns the outcome of the first usable candidate |
| Edit.ReplaceContent | src/tools/edit_tool.py:238-269 | the replacers run in order, a later one only when the earlier ones gave nothing usable, giving `Replaced` |
| Edit.CascadeOrder | src/tools/edit_tool.py:244-253 | trying the replacers one after another is trying their concatenated candidates |
| Edit.UniqueIsUsed | src/tools/edit_tool.py:254-267 | a candidate occurring exactly once is replaced at that occurrence |
| Edit.TwiceIsSkipped | src/tools/edit_tool.py:261-264 | a candidate occurring twice is skipped without `replace_all` |
| Edit.UseCandidateAll | src/tools/edit_tool.py:258-259 | with `replace_all` a candidate is used exactly when it occurs and every occurrence is replaced, agreeing with the single replacement when it occurs once |
| Edit.ReplacedSpec | src/tools/edit_tool.py:238-269 | identical strings fail; otherwise the result is the first usable candidate's, and the replacement fails exactly when no candidate is usable |
| Edit.ExactUniqueReplaced | src/tools/edit_tool.py:238-267 | a search text occurring exactly once is replaced there |
| Edit.ExactReplacedAll | src/tools/edit_tool.py:258-259 | with `replace_all`, a search text occurring anywhere has every occurrence replaced |
| Edit.Abbreviated | src/tools/edit_tool.py:365 | a search text of at most 100 characters is shown whole, a longer one as its first 100 characters and "..." |
| Edit.Execute | src/tools/edit_tool.py:286-404 | the file is written exactly when the call succeeds: with the new text when creating, with the replaced content when editing |
| Edit.CreateFile | src/tools/edit_tool.py:314-333 | creating writes the new text and succeeds exactly when the write does; a failed write reports `io_error` with the OSError's text, for a directory the `IsADirectoryError` text |
| Edit.EditFile | src/tools/edit_tool.py:335-385 | editing writes, on success only, what the replacement made of the decoded file text |
| Edit.ExecuteValidation | src/tools/edit_tool.py:294-314 | a missing path fails first, then identical strings; otherwise a non-empty search text edits the file |
| Edit.EditFileErrors | src/tools/edit_tool.py:336-403 | editing fails, in order, on a missing file, a directory, a file whose reading raises an OSError (`io_error` with its text), an undecodable file and a failed replacement, whose message is reported |
| Edit.NewlinesNoReturn | src/tools/edit_tool.py:352-353 | a text read back in text mode holds no carriage return and is no longer than the text written |
| Edit.NewlinesKeepsPlain | src/tools/edit_tool.py:352-353 | a written text without carriage returns reads back as itself |
| Edit.NewlinesIdempotent | src/tools/edit_tool.py:352-353 | writing back what was read and reading it again gives the same text |
| MultiEdit.Validate | src/tools/multi_edit_tool.py:117-137 | the validation loop reports the first invalid entry, as `FirstInvalid` does |
| MultiEdit.FirstInvalidSpec | src/tools/multi_edit_tool.py:117-137 | the lowest invalid entry is reported with its index, and nothing exactly when every entry is valid |
| MultiEdit.FirstInvalidNone | src/tools/multi_edit_tool.py:117-137 | validation passes exactly when every entry is valid |
| MultiEdit.ApplyEdits | src/tools/multi_edit_tool.py:145-159 | the application loop computes `ApplyUpTo` over all edits, each edit running on the file as the previous write reads back in text mode (newlines translated) |
| MultiEdit.FailedStays | src/tools/multi_edit_tool.py:157-159 | after a failure, later edits are not run |
| MultiEdit.MetadataList | src/tools/multi_edit_tool.py:173-189 | one metadata entry per result |
| MultiEdit.Run | src/tools/multi_edit_tool.py:92-192 | the method computes the outcome `MultiEditExecute` defines |
| MultiEdit.ApplyShape | src/tools/multi_edit_tool.py:145-159 | one result per edit run; when one fails it is the last result, its index is the failed index, and it is the only failed one |
| MultiEdit.AppliedInOrder | src/tools/multi_edit_tool.py:145-159 | without failure, each edit runs on the text the previous one wrote as a text-mode read gives it back ("\r\n" and "\r" become "\n"), and the file reads as the last text, with no carriage return |
| MultiEdit.ChainOfEdits | src/tools/multi_edit_tool.py:145-153 | with the edit tool as the runner, each text of the chain is the edit applied to the newline-translated read-back of the text before it |
| MultiEdit.FailureKeepsEarlier | src/tools/multi_edit_tool.py:143-175 | the edits are not atomic: when edit k fails, the file keeps what the first k edits wrote |
| MultiEdit.ExecuteFails | src/tools/edit_tool.py:286-404 | every failed edit-tool call reports an error code, so the loop sees it as a failure |
| MultiEdit.ReplacementFails | src/tools/edit_tool.py:356-367 | a failed replacement reports "replacement_failed" |
| MultiEdit.WriteFails | src/tools/edit_tool.py:369-400 | a write that fails reports "io_error" |
| MultiEdit.RunnerHonest | src/tools/edit_tool.py:286-404 | the edit tool writes exactly on success, and what it writes is the edit applied to the file's text |
| MultiEdit.ValidationFirst | src/tools/multi_edit_tool.py:98-137 | a missing path, an empty list or an invalid entry is reported, with the first invalid index, before any edit runs, and the file is unchanged |
| MultiEdit.ChainOnSuccess | src/tools/multi_edit_tool.py:145-159 | when every edit succeeds, the file reads as the text the chained edits produce, each edit applied to the newline-translated read-back of the previous write |
| MultiEdit.MultiEditSuccess | src/tools/multi_edit_tool.py:177-192 | when every edit succeeds, the report counts all edits, with action "multiedit" |
| MultiEdit.MultiEditFailure | src/tools/multi_edit_tool.py:161-175 | when edit k fails, the report names index k with k completed edits, and the file holds what those k edits wrote |
| MultiEdit.EditFileFails | src/tools/multi_edit_tool.py:143-175 | an edit that writes nothing reports a failure |
| Patch.DigitRun | src/tools/patch_applier.py:92 | the length of the leading run of digits, as `\d+` matches it |
| Patch.NumberOfText | src/tools/patch_applier.py:92-96 | a written number followed by a non-digit reads back as that number |
| Patch.HeaderRoundTrip | src/tools/patch_applier.py:92-99 | a header `@@ -a[,b] +c[,d] @@…` parses to its four numbers, an omitted count being 1 |
| Patch.HeaderLineShape | src/tools/patch_applier.py:83-87 | a hunk header starts with "@@" and is not taken for a file header |
| Patch.ReadPatch | src/tools/patch_applier.py:74-132 | the parsing loop computes `ParseUnifiedDiff` |
| Patch.BrokenStays | src/tools/patch_applier.py:93-94 | once a header fails to parse, the whole parse fails whatever follows |
| Patch.MalformedHeaderFails | src/tools/patch_applier.py:87-94 | any "@@" line that is not a valid header makes the parse None |
| Patch.FileHeaderSkipped | src/tools/patch_applier.py:83-84 | a "---"/"+++" line anywhere is ignored as written |
| Patch.PreambleDropped | src/tools/patch_applier.py:108 | lines before the first hunk header do not change the result |
| Patch.NoHunkNone | src/tools/patch_applier.py:129-132 | a patch with no hunk header parses to None |
| Patch.BodyRoundTrip | src/tools/patch_applier.py:108-127 | written body lines of a hunk are read back as those lines in order |
| Patch.HunksRoundTrip | src/tools/patch_applier.py:74-132 | writing hunks whose lines are not read as file headers and parsing the text gives back exactly those hunks |
| Patch.HunksRoundTripIntended | src/tools/patch_applier.py:74-132 | with file headers skipped only before the first hunk, every non-empty hunk list round-trips |
| Patch.OldSide | src/tools/patch_applier.py:158-159 | the context and remove lines, no more than the hunk's lines |
| Patch.NewSide | src/tools/patch_applier.py:149-155 | the context and add lines, no more than the hunk's lines |
| Patch.SidesDiffer | src/tools/patch_applier.py:149-159 | the new side is longer than the old by the adds minus the removes |
| Patch.ContextMatchesSlice | src/tools/patch_applier.py:166-178 | for a start within the file, the context holds exactly when the old side equals the original lines from the start |
| Patch.ValidateContext | src/tools/patch_applier.py:166-178 | the validation loop answers `ContextMatches`, with Python's negative index for a start of -1 |
| Patch.SliceBound | src/tools/patch_applier.py:162 | a slice bound is normalised into the list as Python does, and an in-range bound is kept |
| Patch.SliceAssign | src/tools/patch_applier.py:162 | for in-range bounds, slice assignment replaces exactly those lines |
| Patch.CollectNewLines | src/tools/patch_applier.py:149-155 | the loop collects the new side |
| Patch.ApplyHunks | src/tools/patch_applier.py:134-164 | applying the hunks last to first computes `ApplyParsedPatch` |
| Patch.ApplyStep | src/tools/patch_applier.py:141-162 | each hunk is validated against the original lines and replaces its old side in the result with its new side |
| Patch.FailureStays | src/tools/patch_applier.py:145-146 | once a hunk fails, the whole application fails |
| Patch.ApplyFailsIff | src/tools/patch_applier.py:141-164 | application succeeds exactly when every hunk's context matches the original |
| Patch.OrderedPatchApplies | src/tools/patch_applier.py:134-164 | ordered, non-overlapping hunks whose context matches give the merge of the original with every hunk, and the line count changes by the summed adds minus removes |
| Patch.MergedLength | src/tools/patch_applier.py:158-162 | the merged length is the original's plus each hunk's difference |
| Patch.DashedRemovalLost | src/tools/patch_applier.py:83-84 | as written, removing the line "-- c" from "a\n-- c" leaves the file unchanged; with file headers skipped only before hunks, the result is "a" |
| Patch.PreambleIgnored | src/tools/patch_applier.py:81-84 | file headers and other lines before the first hunk header leave the reader at its start |
| Patch.HunksRead | src/tools/patch_applier.py:81-132 | reading written hunks closes the open hunk and collects each of them in order |
| Patch.ApplyIsMerged | src/tools/patch_applier.py:134-164 | for ordered hunks that all match, applying them yields the original with each hunk's old side replaced by its new side |
| Patch.DashedApplied | src/tools/patch_applier.py:83-164 | the patch as read leaves "a\n-- c" unchanged; the patch as intended gives "a" |
| FileTools.ImageOfFile | src/tools/file_tools.py:57-70 | the image type of `stem + ext` is the table's entry for the lower-cased extension |
| FileTools.ImageNeedsSuffix | src/tools/file_tools.py:57-70 | only a path with a suffix can be an image |
| FileTools.HiddenImageName | src/tools/file_tools.py:59 | a hidden name such as ".png" has no suffix, so it is not an image |
| FileTools.UpperCaseImage | src/tools/file_tools.py:59-70 | the suffix is lower-cased before the lookup, so ".JPG" is JPEG |
| FileTools.CountNonPrintable | src/tools/file_tools.py:98-101 | the count of bytes below 9 or between 14 and 31 never exceeds the chunk's length |
| FileTools.IsBinaryFile | src/tools/file_tools.py:72-107 | the decision is `BinaryVerdict`: a listed extension, else a non-empty chunk with a zero byte or more than 30% control bytes; an unreadable file is text |
| FileTools.CountControl | src/tools/file_tools.py:98-101 | the counting loop counts the non-printable bytes |
| FileTools.PrintableIsText | src/tools/file_tools.py:72-107 | a chunk without control bytes and an unlisted extension is text |
| FileTools.CountNonPrintableConcat | src/tools/file_tools.py:98-101 | the count is additive over concatenation |
| FileTools.BinaryThreshold | src/tools/file_tools.py:97-107 | k control bytes among k + m zero-free bytes make the file binary exactly when 10k > 3(k + m); an unreadable file is never binary |
| FileTools.SplitCount | src/tools/file_tools.py:184-188 | splitting on newlines gives one more piece than there are newlines |
| FileTools.FileLinesCount | src/tools/file_tools.py:184-191 | `readlines` gives one line per newline, plus one for a last line without one |
| FileTools.FileLinesJoin | src/tools/file_tools.py:184-188 | the lines joined by newlines, plus a final newline when the text had one, give back the text |
| FileTools.CapLineSpec | src/tools/file_tools.py:196-200 | a line of at most 2000 characters is kept; a longer one becomes its first 2000 characters and "..." |
| FileTools.CappedLines | src/tools/file_tools.py:195-200 | one capped line per selected line |
| FileTools.TruncateLines | src/tools/file_tools.py:195-200 | the truncation loop gives the capped lines |
| FileTools.WindowSpec | src/tools/file_tools.py:192 | `lines[offset:offset+limit]` holds the lines from the offset, as many as the limit allows and the file has |
| FileTools.ReadOutputShape | src/tools/file_tools.py:203-209 | the output is wrapped in "<file>"/"</file>" and has the more-lines hint exactly when lines remain past the window |
| FileTools.FirstThree | src/tools/file_tools.py:123-124 | at most the first three suggestions are kept |
| FileTools.Suggestions | src/tools/file_tools.py:109-128 | no more than three suggestions |
| FileTools.KeptPrefix | src/tools/file_tools.py:119-124 | scanning fewer entries gives a prefix of the suggestions |
| FileTools.CollectKept | src/tools/file_tools.py:118-126 | the loop stops once three are kept, giving the first three matches |
| FileTools.CollectSuggestions | src/tools/file_tools.py:109-128 | the loop gives `Suggestions` |
| FileTools.SuggestionsSpec | src/tools/file_tools.py:119-124 | every suggestion is the joined path of an entry resembling the name, and with fewer than three every such entry is suggested |
| FileTools.KeptMembers | src/tools/file_tools.py:119-122 | exactly the entries passing the test are kept, joined to the directory |
| FileTools.StrList | src/tools/file_tools.py:154 | the suggestions as a list value, in order |
| FileTools.SuggestionsFor | src/tools/file_tools.py:112-142 | no more than three suggestions for a missing file |
| FileTools.Stage | src/tools/file_tools.py:141-188 | the checks run in order: missing, image, binary, unreadable, else the file's lines |
| FileTools.RenderTags | src/tools/file_tools.py:148-252 | each refusal carries its error code; a read that succeeds carries none |
| FileTools.ReadRefusals | src/tools/file_tools.py:141-180 | a missing file, an image (with its type) and a binary file are refused with their codes |
| FileTools.ReadTextOutcome | src/tools/file_tools.py:182-252 | a read error gives "io_error"; otherwise the result has no error |
| FileTools.ReadWindowReported | src/tools/file_tools.py:191-231 | a successful read reports the total line count, the window's length and the output built from the window |
| FileTools.LineCountSpec | src/tools/file_tools.py:323 | `line_count` is the newline-split piece count for non-empty content, and 0 for empty content |
| FileTools.WriteSpec | src/tools/file_tools.py:287-352 | the file is written exactly when the directory exists or can be made and the write succeeds; then it holds the content and the report gives its line count |
| FileTools.NotFoundSuggestions | src/tools/file_tools.py:141-155 | a missing file reports its (at most three) suggestions in the metadata |
| FileTools.LinesReported | src/tools/file_tools.py:184-228 | the metadata reports the total line count and the number of lines read, and the output is built from the window |
| FileTools.LastPieceIff | src/tools/file_tools.py:184-188 | splitting at newlines ends with an empty piece exactly when the text is empty or ends with a newline |
| Web.ValidateUrlSpec | src/tools/web_tools.py:95-105 | a URL is accepted exactly when it starts with http:// or https://; https is kept, http is upgraded, and the result always starts with https:// |
| Web.ValidateUrlIdempotent | src/tools/web_tools.py:95-105 | validating a validated URL changes nothing |
| Web.CleanedSpec | src/tools/web_tools.py:70-78 | cleaning keeps exactly the unexpired entries, unchanged, and never grows the cache |
| Web.CleanedLater | src/tools/web_tools.py:70-78 | cleaning at an earlier time and then a later one is cleaning at the later one |
| Web.CachedValueSpec | src/tools/web_tools.py:80-89 | a hit is the stored content of an entry unexpired at both clock readings; a miss leaves the URL out of the cache, and a lookup never adds keys |
| Web.GetAfterSet | src/tools/web_tools.py:80-93 | content stored within the cache duration is served back |
| Web.WebFetchTool.constructor | src/tools/web_tools.py:23-42 | the cache starts empty |
| Web.WebFetchTool.CleanCache | src/tools/web_tools.py:70-78 | the cache becomes its cleaned form |
| Web.WebFetchTool.GetFromCache | src/tools/web_tools.py:80-89 | the answer and the new cache are `CachedValue` and `CacheAfterGet` |
| Web.WebFetchTool.SetCache | src/tools/web_tools.py:91-93 | the URL maps to the content stamped with the time, nothing else changes |
| Web.WebFetchTool.Execute | src/tools/web_tools.py:191-264 | the result and the new cache are those of `Fetch` |
| Web.FetchTimeoutSpec | src/tools/web_tools.py:195 | the timeout is the requested one or 30 by default, capped at 120 |
| Web.FetchRejectsUrl | src/tools/web_tools.py:97-246 | a URL without an http(s) scheme is a validation error naming it, and the cache is untouched |
| Web.FetchServesCache | src/tools/web_tools.py:202-204 | a non-empty cached page is served whatever the network would answer, marked cached |
| Web.FetchStoresPage | src/tools/web_tools.py:205-236 | on a miss a fetched page is stored under the URL and its length reported; a failure stores nothing |
| Web.FetchTimeoutReported | src/tools/web_tools.py:253-258 | a timeout reports the capped timeout |
| Web.FetchTwice | src/tools/web_tools.py:191-239 | fetching again within the cache duration serves the stored page as cached content |
| Web.Entries | src/tools/web_tools.py:331-340 | one entry per hit, numbered from 1 |
| Web.FormatSearchResults | src/tools/web_tools.py:325-342 | the formatting loop gives `SearchText` |
| Web.SearchTextFirst | src/tools/web_tools.py:331-342 | the text starts with the first hit's entry |
| Web.EntryDefaults | src/tools/web_tools.py:332-339 | a hit without fields shows "无标题", an empty URL and "无描述" |
| Web.HitValues | src/tools/web_tools.py:395 | one value per hit, in order |
| Web.SearchBlankQuery | src/tools/web_tools.py:352-357 | a blank query is refused with "empty_query" before any search |
| Web.SearchCounts | src/tools/web_tools.py:384-397 | results report their count, the first five raw results and the formatted text |
| Bash.FirstContained | src/tools/bash.py:104-106 | a reported pattern is listed and occurs in the command; none is reported only when no pattern occurs |
| Bash.FirstContainedFirst | src/tools/bash.py:104-106 | the reported pattern is the first listed one that occurs |
| Bash.ValidateCommand | src/tools/bash.py:89-106 | the loop over the patterns of the lower-cased command reports the first that occurs |
| Bash.ShadowedPattern | src/tools/bash.py:92-94 | "rm -rf /*" is never the reported pattern, since "rm -rf /" is listed first and occurs in it |
| Bash.RefusedIff | src/tools/bash.py:103-106 | a command is refused exactly when some pattern occurs in its lower-cased form |
| Bash.BashTimeoutSpec | src/tools/bash.py:179 | the timeout is the requested one or 60 by default, capped at 600 |
| Bash.CapOutputSpec | src/tools/bash.py:202-205 | output of at most 30000 characters is kept; longer output keeps its first 30000 characters followed by a note giving the original length |
| Bash.TitleSpec | src/tools/bash.py:208-210 | the title is the command exactly when the exit code is 0, and otherwise starts with it |
| Bash.RefusedNotRun | src/tools/bash.py:175-199 | a refused command is never run and reports exit code 1; any other is run with the capped timeout |
| Bash.KilledReported | src/tools/bash.py:146-210 | a command killed by its timeout reports exit code 124 in its result and title |
| Bash.FinishedReported | src/tools/bash.py:198-221 | a finished command reports its exit code, its capped output and its title |
| Sandbox.NewExecutor | src/tools/sandbox.py:18-24 | construction succeeds exactly for a known policy name, keeping the policy and the working directory |
| Sandbox.FirstReason | src/tools/sandbox.py:49-52 | a reason is that of the first blacklisted entry occurring in the command; none when no entry occurs |
| Sandbox.FirstNetwork | src/tools/sandbox.py:56-59 | a reported network command occurs in the command; none only when none occurs |
| Sandbox.CommandAllowedSpec | src/tools/sandbox.py:32-61 | a command is allowed exactly when no reason is given: always under full access, unless blacklisted under workspace-write, and unless blacklisted or using the network under read-only |
| Sandbox.BlacklistReason | src/tools/sandbox.py:49-52 | a blacklisted command is refused with the reason of the first entry it contains |
| Sandbox.WritablePaths | src/tools/sandbox.py:63-83 | "/" under full access, nothing under read-only, and the working directory, the sandbox temporary directory and the system one under workspace-write |
| Sandbox.UnderRoots | src/tools/sandbox.py:95-106 | a path is accepted exactly when it lies within some resolved root and no part starts with ".git" |
| Sandbox.PathWritableSpec | src/tools/sandbox.py:85-106 | nothing is writable under read-only and everything under full access; under workspace-write a path is writable exactly when it lies within a writable root and has no ".git" part |
| Sandbox.WorkspaceWritable | src/tools/sandbox.py:92-102 | a path inside the working directory is writable exactly when no part starts with ".git" |
| Sandbox.GithubProtected | src/tools/sandbox.py:100-101 | a ".github" directory is protected as well, since the test is a prefix test |
| List.AnyHitSpec | src/tools/list_tool.py:115-128 | a pattern list hits exactly when some pattern hits |
| List.ShouldIgnoreSpec | src/tools/list_tool.py:106-130 | a path is ignored exactly when it is hidden (unless shown), a default pattern hits, or a custom pattern matches its name or path |
| List.DirPatternSubstring | src/tools/list_tool.py:116-119 | a directory pattern hits exactly when its name occurs anywhere in the path, as a substring |
| List.SubstringSkipped | src/tools/list_tool.py:118-119 | any path containing "obj" or "tmp", for instance inside a file name, is ignored |
| List.HiddenSkipped | src/tools/list_tool.py:111-112 | a hidden name is ignored unless hidden files are shown |
| List.Insert | src/tools/list_tool.py:197 | insertion adds exactly the item |
| List.InsertSorted | src/tools/list_tool.py:197 | insertion keeps the items sorted by (is a file, name) |
| List.SortItems | src/tools/list_tool.py:197 | sorting is a permutation of the items |
| List.SortItemsSorted | src/tools/list_tool.py:197 | the sorted items are ordered by (is a file, name) |
| List.DirectoriesFirst | src/tools/list_tool.py:197 | in sorted order no directory follows a file |
| List.DisplayName | src/tools/list_tool.py:211-217 | a directory's name is shown with a trailing "/", a file's without |
| List.SortCount | src/tools/list_tool.py:197-223 | sorting does not change how many lines the items render to |
| List.RenderLineCount | src/tools/list_tool.py:194-225 | a tree renders to one line per node |
| List.RenderPrefixed | src/tools/list_tool.py:199-223 | every rendered line starts with the prefix |
| List.TopLevelFlat | src/tools/list_tool.py:203-269 | rendering from the empty prefix, as `execute` does, gives the names in pre-order with no connectors or indentation at any depth |
| List.ConnectorLine | src/tools/list_tool.py:207-219 | under a non-empty prefix the first line is the prefix, "└── " for a lone item or "├── " otherwise, then the name |
| List.ListingLines | src/tools/list_tool.py:272-281 | the output starts with the path and "/" and has one line per node, plus two when truncated |
| List.ExecuteFailure | src/tools/list_tool.py:235-298 | the result is an error exactly when the path is missing, is not a directory, or the walk fails |
| List.ExecuteListing | src/tools/list_tool.py:254-291 | a listing reports the file count, truncation exactly at 100 files or more, and output starting with the path |
| List.KeyBelowAsymmetric | src/tools/list_tool.py:197 | the sort key (is a file, name) is a strict order: no two items are each below the other |
| Grep.Arguments | src/tools/grep_tool.py:124-153 | the command line starts with ripgrep, "-n" and the pattern and ends with the search path |
| Grep.HeadLimitSpec | src/tools/grep_tool.py:192-196 | no limit (or 0) keeps all lines untruncated; a positive limit keeps that many and truncates when there were more; a negative one drops lines from the end and always truncates |
| Grep.FormatContentOutput | src/tools/grep_tool.py:234-268 | the formatting loop gives `FormatContent` |
| Grep.AppendMatchLine | src/tools/grep_tool.py:242-266 | one iteration appends what `Emit` gives for the line and moves to its file |
| Grep.EmitCases | src/tools/grep_tool.py:243-266 | empty or malformed lines give nothing; a line of the current file gives its entry; a line of a new file gives a blank line (except for the first file), the relative path header and the entry |
| Grep.ContentHeaderCounts | src/tools/grep_tool.py:239 | the output starts by counting the lines, malformed ones included |
| Grep.NoLeadingBlank | src/tools/grep_tool.py:254-256 | no blank line comes before the first file header |
| Grep.SameFileNoHeader | src/tools/grep_tool.py:251-266 | lines all from the current file give one entry each and no header |
| Grep.NewFileHeader | src/tools/grep_tool.py:254-266 | a change of file gives a blank line, the relative path with ":" and the entry |
| Grep.CountSnoc | src/tools/grep_tool.py:298-306 | one more line adds its entry after the earlier ones |
| Grep.TotalSnoc | src/tools/grep_tool.py:298-306 | one more line adds its integer count to the total, or nothing |
| Grep.FormatCountOutput | src/tools/grep_tool.py:290-311 | the method gives `FormatCount` |
| Grep.CountLoop | src/tools/grep_tool.py:295-306 | the loop collects one entry per line containing ":" and sums the counts that parse |
| Grep.AppendCount | src/tools/grep_tool.py:299-306 | one iteration appends the line's entry and adds its count |
| Grep.CountTotalAppend | src/tools/grep_tool.py:296-303 | the total is additive over lines |
| Grep.CountLine | src/tools/grep_tool.py:299-306 | a line whose text after the last ":" is not an integer is kept whole and counts 0; otherwise its count is that integer |
| Grep.EmptyPatternRefused | src/tools/grep_tool.py:107-109 | the call raises exactly when the pattern is empty |
| Grep.MatchesReported | src/tools/grep_tool.py:180-219 | with matches, the report gives the number of lines kept and the truncation flag, and the output ends with the truncation note when truncated |
| Task.FindAgent | src/tools/task_tool.py:53-58 | the first agent with the name, and none exactly when no agent has it |
| Task.RegisteredSpec | src/tools/task_tool.py:41-47 | registration keeps names unique, keeps the first agent of a name, and changes no other lookup |
| Task.FindAppend | src/tools/task_tool.py:41-58 | a lookup after appending finds the earlier agent of the name first |
| Task.RegisterTwice | src/tools/task_tool.py:43-46 | registering the same agent twice is registering it once |
| Task.NonPrimary | src/tools/task_tool.py:49-51 | exactly the agents whose mode is not "primary" are listed |
| Task.RegisterListed | src/tools/task_tool.py:41-51 | a duplicate does not change the listing; a new non-primary agent is listed last |
| Task.Names | src/tools/task_tool.py:265 | the agents' names, in order |
| Task.ReplyQuotesPrompt | src/tools/task_tool.py:179-248 | the simulated reply opens with the agent's line and quotes the first 100 characters of the prompt |
| Task.ExecuteSpec | src/tools/task_tool.py:250-307 | an unknown type is reported with the listed types and no session starts; a known one adds exactly one completed "task_" session holding the reply as one assistant message, and no other session changes |
| Task.PrimaryRunsUnlisted | src/tools/task_tool.py:49-257 | a primary agent can still be run by name though it is never listed |
| Task.FindRegistered | src/tools/task_tool.py:53-58 | with unique names, a registered agent is found by its name |
| Task.TaskManager.constructor | src/tools/task_tool.py:30-39 | the manager starts with no agents and no sessions |
| Task.TaskManager.RegisterAgent | src/tools/task_tool.py:41-47 | the agent list becomes `Registered`, the sessions unchanged |
| Task.TaskManager.GetAgents | src/tools/task_tool.py:49-51 | exactly the non-primary agents |
| Task.TaskManager.GetAgent | src/tools/task_tool.py:53-58 | the lookup loop answers `FindAgent` |
| Task.TaskManager.CreateSession | src/tools/task_tool.py:60-69 | a running session "task_<hex>" with no messages is stored under its id; nothing else changes |
| Task.TaskManager.GetSession | src/tools/task_tool.py:71-73 | the stored session, or none exactly when the id is unknown |
| Task.TaskManager.AbortSession | src/tools/task_tool.py:75-79 | a known session becomes "aborted"; an unknown id changes nothing |
| Task.TaskTool.constructor | src/tools/task_tool.py:85-156 | the five default agents are registered and findable, the sessions unchanged |
| Task.TaskTool.Execute | src/tools/task_tool.py:250-322 | the result and the new sessions are those of `ExecuteOutcome`; the agents are unchanged |
| Task.NonPrimaryAppend | src/tools/task_tool.py:49-51 | the filter keeps order: a new agent is listed last exactly when its mode is not "primary" |
| Turn.ResultLine | src/agent/turn.py:91-94 | a success is shown as "工具执行成功: …", a failure as "工具执行失败: …" |
| Turn.ResultLines | src/agent/turn.py:89-94 | one line per response, in order |
| Turn.GetToolResultsText | src/agent/turn.py:84-96 | empty without responses, else the lines joined by newlines |
| Turn.ResultsTextHead | src/agent/turn.py:84-96 | with responses, the text is non-empty and starts with the first response's line |
| Turn.ExecuteToolCall | src/agent/turn.py:105-138 | the response keeps the call id; it succeeds exactly when the registry returns a result, carrying its output; an empty result or a raised error gives the matching error message |
| Turn.ExecuteToolCalls | src/agent/turn.py:140-152 | one response per call, in order, each that of its own call, failures included |
| Turn.FromOpenAiToolCall | src/agent/turn.py:33-40 | the request keeps the call's id and name; empty arguments give an empty dict |
| Turn.ParsedCalls | src/agent/turn.py:188-194 | no more requests than calls |
| Turn.ParsedCallsAppend | src/agent/turn.py:189-194 | calls are parsed one by one |
| Turn.ParsedCallsAllOk | src/agent/turn.py:188-194 | when every call parses, the requests are those calls' parses in order |
| Turn.ParseOpenAiResponse | src/agent/turn.py:166-196 | the method gives `ParsedResponse` |
| Turn.ReasoningThoughts | src/agent/turn.py:181-185 | one thought exactly when reasoning content is present and non-empty |
| Turn.Definitions | src/agent/turn.py:203-213 | one function definition per tool, in order |
| Turn.BuildToolDefinitions | src/agent/turn.py:199-215 | the definitions of the registry's enabled tools, sorted by id |
| Turn.DefinitionsCoverEnabled | src/agent/turn.py:154-215 | exactly the enabled tools are defined, in ascending id order, one definition each |
| Turn.CallParts | src/agent/turn.py:281-289 | one action line per call, plus one observation for each call that has a response |
| Turn.ThoughtLines | src/agent/turn.py:277-278 | one "思考: " line per thought |
| Turn.ConversationPartsSpec | src/agent/turn.py:274-293 | no parts exactly when there are no thoughts, calls or text; otherwise as many as thoughts, calls, answered calls and the text |
| Turn.ActionThenObservation | src/agent/turn.py:281-289 | after the thoughts come the first call's action and then its observation |
| Turn.FormatResultForConversation | src/agent/turn.py:272-295 | "无响应内容" without parts, else the parts joined by blank lines |
| Turn.TurnOutcomeSpec | src/agent/turn.py:217-270 | a failed call gives "执行出错: …" with no calls; a call that gives None gives "执行出错: 'NoneType' object has no attribute 'choices'" with no calls; without a context no tool runs; otherwise each call gets its own response |
| Turn.Execute | src/agent/turn.py:217-270 | the result is `TurnOutcome` of the model's answer to the messages, with tools passed only when some are defined; a None answer ends in the AttributeError text |
| CodeAgent.WordPrefix | src/agent/code_agent.py:161 | the longest prefix of word characters: all of its characters are word characters and the next one is not |
| CodeAgent.StopAt | src/agent/code_agent.py:161 | the first ')' or newline, or -1 when there is none |
| CodeAgent.MatchCall | src/agent/code_agent.py:161-164 | a match is a non-empty word name, then "(", arguments free of ')' and newlines, then ")", at the start of the text |
| CodeAgent.MatchCallComplete | src/agent/code_agent.py:161-164 | every text of the form name(args)… matches, with that name and those arguments |
| CodeAgent.WordPrefixExact | src/agent/code_agent.py:161 | the word prefix stops exactly at the first non-word character |
| CodeAgent.StopAtExact | src/agent/code_agent.py:161 | the lazy match ends exactly at the first ')' |
| CodeAgent.StripQuotes | src/agent/code_agent.py:171 | the result neither starts nor ends with a quote and is no longer than the input |
| CodeAgent.ParamEntry | src/agent/code_agent.py:169-171 | a piece gives a parameter exactly when it contains "=" |
| CodeAgent.ParamsKeys | src/agent/code_agent.py:166-171 | the keys of the parameters are exactly the keys of the pieces holding "=" |
| CodeAgent.ParamsLastWins | src/agent/code_agent.py:168-171 | a key keeps the value of its last piece |
| CodeAgent.ParseAction | src/agent/code_agent.py:153-181 | the method gives `ActionOf`: a JSON object text is decoded, a call text gives its tool and parameters, anything else gives None |
| CodeAgent.ParseParams | src/agent/code_agent.py:165-170 | the loop over the comma-separated pieces gives `ArgsParams`: no parameters for empty text, else `ParamsOf` the pieces |
| CodeAgent.CallActionSpec | src/agent/code_agent.py:160-176 | name(args)… gives {"tool": name, "parameters": the args' key/value pairs}, and empty arguments give no parameters |
| CodeAgent.ParseResponse | src/agent/code_agent.py:128-151 | without an action the final answer is the stripped response, with one it is empty; no action is found without an action match |
| CodeAgent.FormatResponseSpec | src/agent/code_agent.py:287-304 | no parts exactly when there is no thought, action, observation or answer, and then "无响应内容"; the text starts with the thought and ends with the answer |
| CodeAgent.JoinEndsWith | src/agent/code_agent.py:304 | a joined text ends with its last part |
| CodeAgent.LoadSystemPrompt | src/agent/code_agent.py:239-264 | the file's text when it can be read, else the default prompt |
| CodeAgent.ProcessUserInput | src/agent/code_agent.py:266-280 | the system prompt comes first only for an empty history; then the history and the user message |
| CodeAgent.RunBounded | src/agent/code_agent.py:345-372 | the loop asks the model only for turns below the limit |
| CodeAgent.RunGivesUp | src/agent/code_agent.py:345-381 | a model that never gives a final answer ends in the give-up message |
| CodeAgent.FirstReplyFinal | src/agent/code_agent.py:346-359 | a first reply with no action and a non-empty text ends the query with that reply formatted |
| CodeAgent.CodeAgent.constructor | src/agent/code_agent.py:310-327 | an empty history, the turn limit and the loaded system prompt |
| CodeAgent.CodeAgent.ProcessQuery | src/agent/code_agent.py:329-390 | the response is that of the loop (or the error text) and the history grows by the query and the response |
| CodeAgent.CodeAgent.ClearHistory | src/agent/code_agent.py:402-405 | the history is empty |
| SimpleController.ParseThoughtSpec | src/agent/simple_controller.py:130-157 | without "ACTION:" or a JSON object after it the text is complete; else the reasoning is the stripped text before the first marker and the type is the object's "type", "unknown" by default |
| SimpleController.FirstMarker | src/agent/simple_controller.py:135 | the first marker is found right after a text free of it |
| SimpleController.SplitAtFirst | src/agent/simple_controller.py:135 | splitting at the marker yields the text before the first marker and then the pieces of the rest |
| SimpleController.SplitNone | src/agent/simple_controller.py:134-149 | a text without the marker splits into itself |
| SimpleController.ParseByPieces | src/agent/simple_controller.py:134-142 | the thought's reasoning, type and action come from the first two pieces |
| SimpleController.ThoughtRoundTrip | src/agent/simple_controller.py:130-142 | reasoning + "ACTION:" + a JSON object parses back to that reasoning, stripped, and that object |
| SimpleController.SecondMarkerCuts | src/agent/simple_controller.py:135 | only the text between the first and second markers is decoded |
| SimpleController.HistoryLine | src/agent/simple_controller.py:311-314 | each history line starts with its number |
| SimpleController.Recent | src/agent/simple_controller.py:310 | the last five entries, or all of them when there are fewer |
| SimpleController.HistoryLines | src/agent/simple_controller.py:309-314 | one line per entry, numbered from 1 in order |
| SimpleController.FormatHistoryShows | src/agent/simple_controller.py:304-316 | a non-empty history is shown as at most five numbered lines of its last entries, joined by newlines |
| SimpleController.FormatHistoryHead | src/agent/simple_controller.py:309-316 | the text of a non-empty history starts with "1. " |
| SimpleController.ExecuteToolAction | src/agent/simple_controller.py:159-168 | the dispatcher's answer for the action's tool and params, or "Error executing tool …" with the error |
| SimpleController.LoopSpec | src/agent/simple_controller.py:67-100 | at most max_turns turns; each turn that does not stop appends one entry computed from the history before it; the loop stops early only at a stopping turn |
| SimpleController.ExecuteMainLoop | src/agent/simple_controller.py:55-102 | the method gives `MainLoopOutcome` |
| SimpleController.NextAct | src/agent/simple_controller.py:70-100 | one turn is the turn step for the goal and the plan |
| SimpleController.FirstThinkFails | src/agent/simple_controller.py:71-102 | when the first think fails the loop ends after one turn with no history |
| SimpleController.NoTurnRaises | src/agent/simple_controller.py:67-102 | with no turns the final report raises, because `turn` is unbound |
| Planner.Steps | src/agent/planner.py:49-58 | no more steps than lines |
| Planner.PlanOf | src/agent/planner.py:46-60 | the plan is never empty |
| Planner.ParsePlan | src/agent/planner.py:49-58 | the loop's steps are `Steps` of the reply's lines |
| Planner.CreatePlan | src/agent/planner.py:14-60 | a failed call propagates its error, a missing content fails, and otherwise the plan is `PlanOf` the content |
| Planner.StepsAppend | src/agent/planner.py:50-58 | lines are parsed one by one, so the steps of a concatenation are the steps of its parts |
| Planner.StepsSingle | src/agent/planner.py:51-58 | a line gives one step exactly when its stripped form is non-empty and starts with a digit or "- " |
| Planner.StepsFromLines | src/agent/planner.py:50-58 | every step is the text of some qualifying line |
| Planner.NoQualifyingLine | src/agent/planner.py:52-60 | when no line qualifies there are no steps, so the whole text is the plan |
| Planner.NumberedStep | src/agent/planner.py:54-55 | a numbered line keeps the stripped text after its first '.' |
| Planner.NumberedWithoutDot | src/agent/planner.py:55 | a numbered line without '.' loses only its first character |
| Planner.BulletStep | src/agent/planner.py:56-57 | a bullet keeps the stripped text after "- " |
| Planner.FormatPlanForDisplay | src/agent/planner.py:62-67 | the header and then one numbered line per step |
| Planner.ListingPrefix | src/agent/planner.py:65-66 | step k+1 is shown right after the first k lines, as "  k+1. step" |
| Helpers.TruncateText | src/utils/helpers.py:19-24 | a text that fits is unchanged; otherwise the result ends with the suffix and what comes before it is a prefix of the text |
| Helpers.TruncateExactLength | src/utils/helpers.py:19-24 | when the limit leaves room for the suffix, the result has exactly the limit's length |
| Helpers.TruncateShortLimit | src/utils/helpers.py:24 | a limit shorter than the suffix slices from the end, so the result is longer than the limit |
| Helpers.GetFileExtension | src/utils/helpers.py:63-66 | the path's suffix, lower-cased: as long as the suffix and starting with '.' |
| Helpers.ExtensionOfFile | src/utils/helpers.py:63-66 | the extension of dir/stem.ext is ".ext" lower-cased |
| Helpers.LateZeroIgnored | src/utils/helpers.py:53-60 | a zero byte after the first 1024 bytes does not make a file binary |
| Helpers.IsTextFile | src/utils/helpers.py:69-83 | a file is text exactly when it is not binary and its extension is listed |
| Helpers.UnreadableNotText | src/utils/helpers.py:59-72 | a file that cannot be read is never text |
| Helpers.NoSuffixNotText | src/utils/helpers.py:74-83 | a path without a suffix is never text |
| TurnBasedAgent.Dicts | src/agent/turn_based_agent.py:120-124 | one role/content dict per message, in order |
| TurnBasedAgent.Window | src/agent/turn_based_agent.py:120 | the last ten messages, or all of them when there are fewer |
| TurnBasedAgent.BuildContextMessages | src/agent/turn_based_agent.py:196-209 | the loop gives `ContextMessages`: the system prompt, then the window of the history |
| TurnBasedAgent.BuildMessagesForLlm | src/agent/turn_based_agent.py:109-132 | the method gives `LlmMessages` |
| TurnBasedAgent.LlmMessagesSpec | src/agent/turn_based_agent.py:109-132 | between 2 and 12 messages: the system prompt first, the new user message last, and the last (at most ten) history messages in order in between |
| TurnBasedAgent.IndexOf | src/agent/turn_based_agent.py:138-185 | the position of the session's conversation, or -1 when it has none |
| TurnBasedAgent.StoreSpec | src/agent/turn_based_agent.py:138-188 | storing keeps session ids unique, makes the stored conversation the session's, and leaves every other session's unchanged |
| TurnBasedAgent.IndexUnique | src/agent/turn_based_agent.py:138-141 | with unique ids the lookup finds the one conversation of that session |
| TurnBasedAgent.SumAppend | src/agent/turn_based_agent.py:305-306 | a sum over conversations splits over a concatenation |
| TurnBasedAgent.SumSingle | src/agent/turn_based_agent.py:305-306 | the sum over one conversation is its own count |
| TurnBasedAgent.SumUpdate | src/agent/turn_based_agent.py:305-306 | replacing one conversation changes the sum by the difference of their counts |
| TurnBasedAgent.SumStore | src/agent/turn_based_agent.py:305-306 | storing a conversation changes the sum by its count minus that of the one it replaces |
| TurnBasedAgent.SumWithout | src/agent/turn_based_agent.py:297-306 | removing a session lowers the sum by that session's count |
| TurnBasedAgent.ProcessedStatistics | src/agent/turn_based_agent.py:162-313 | processing an input adds two messages and one turn to the totals |
| TurnBasedAgent.ClearedStatistics | src/agent/turn_based_agent.py:297-313 | clearing a session removes its messages and turns from the totals, and the session itself from the count when it existed |
| TurnBasedAgent.ToolRoundMessages | src/agent/turn_based_agent.py:224-255 | a tool round adds an assistant message and, exactly when there are responses, a user message with the observations |
| TurnBasedAgent.NeverDoneKeepsLooping | src/agent/turn_based_agent.py:260-278 | a model that never calls a tool and never confirms with "Done" never ends the loop, and the turn counter never moves |
| TurnBasedAgent.ToolRoundsExhaustBudget | src/agent/turn_based_agent.py:194-287 | a model that always calls tools uses up all max_turns rounds and ends with the timeout response |
| TurnBasedAgent.BoundedReasoningEnds | src/agent/turn_based_agent.py:194-287 | with every round counted, the loop always answers within max_turns rounds and at most two model calls per round |
| TurnBasedAgent.AgreeOnToolRounds | src/agent/turn_based_agent.py:194-258 | on tool rounds the code as written and the counted loop agree |
| TurnBasedAgent.Agent.constructor | src/agent/turn_based_agent.py:14-29 | no conversations; the registry and the system prompt as given |
| TurnBasedAgent.Agent.Open | src/agent/turn_based_agent.py:138-188 | the session's conversation exists afterwards, new and empty when there was none, and nothing else changes |
| TurnBasedAgent.Agent.ProcessUserInput | src/agent/turn_based_agent.py:134-167 | the response is the formatted turn on the built messages, and only the session's conversation changes, gaining the user message, the response and the turn |
| TurnBasedAgent.Agent.MultiTurnReasoning | src/agent/turn_based_agent.py:182-287 | the response and the stored conversation are those of the reasoning loop run on the conversation with the user message appended |
| TurnBasedAgent.Agent.ReasoningRound | src/agent/turn_based_agent.py:196-276 | one iteration is `RoundOf`; it keeps the session and a returning round has recorded two turns |
| TurnBasedAgent.Agent.ClearConversation | src/agent/turn_based_agent.py:297-301 | the session's conversation is gone, the others stay, and an unknown session changes nothing |
| TurnBasedAgent.Agent.GetConversation | src/agent/turn_based_agent.py:293-295 | a conversation exactly when the session has one, and then that conversation |
| TurnBasedAgent.StoreTwice | src/agent/turn_based_agent.py:185-191 | storing the opened conversation and then updating it in place is storing the update |
| TurnBasedAgent.Agent.Respond | src/agent/turn_based_agent.py:141-164 | the response is the formatted turn on the built messages, and the conversation gains the user message, the response and the turn |
| TurnBasedAgent.Agent.Save | src/agent/turn_based_agent.py:185-191 | writing back the opened conversation stores the update and keeps session ids unique |
| TurnBasedAgent.Agent.Loop | src/agent/turn_based_agent.py:193-287 | the loop's answer and final conversation are those `Reasoning` gives from the first iteration |
| TurnBasedAgent.Agent.Iterate | src/agent/turn_based_agent.py:194-278 | an answer ends the loop with `Reasoning`'s outcome; otherwise `Reasoning` continues from the new state with strictly fewer iterations left |
| TurnBasedAgent.RoundStep | src/agent/turn_based_agent.py:194-278 | one iteration of `Reasoning` is `RoundOf`: a tool round counts the turn, an unconfirmed answer does not, a confirmed one returns the candidate answer |

## Left out

- Event pumping, async queues and the terminal front end are not modelled because their point is concurrency and I/O. This covers `src/cli/main.py`, `codex_engine.py`, `event_handler.py` and `Session.start`/`stop`/`process_submissions`/`get_next_event`.
- The model transport is a parameter returning a reply or an error. This covers the OpenAI and AsyncOpenAI calls, `LLMService`, and the chat calls of the planner and the simple controller.
- Processes and the file system are parameters. This covers the bash and sandbox executors, the ripgrep process, directory walking, file reads and writes, backups, and rollout appends. For example, a file is its content or None when it cannot be read.
- Library behaviour is a parameter: `json.loads`/`dumps` (the `Codec`), `fnmatch`, `difflib` diffs and patch statistics, and the HTML-to-text and markdown converters.
- `uuid4`, timestamps and `datetime.now()` are parameters. Creation times and message metadata that only carry them are dropped.
- Durations and ratios are exact `real` values, and floating-point rounding is not modelled. This covers `success_rate`, `avg_duration` and the compression and usage ratios.
- `Text` treats `isdigit`, `lower` and `int()` as ASCII only, because the core only applies them to ASCII text in practice. Unicode digits, case mappings and `int()`'s underscores are left out.
- `CompactionUtils.ExtractText`: a dict item's `text` is either a string or missing (`None`), so an item whose `"text"` is null or not a string cannot be written. For such an item Python's `"\n".join` raises TypeError; the model would give "" for a null. Making the text a `Result` would make `is_system_message`, and every user-turn count of the OpenCode strategy, a `Result` too.
- `MemoryModels.TextOr`: a present field that is not a string is an error. Python's dataclass does not check types and keeps the value as it is.
- `MemoryModels.OptText`: a present field that is neither null nor a string is an error. Python keeps the value.
- `MemoryModels.TextAt`: a present field that is not a string is an error. Python keeps the value.
- `MemoryModels.IntOr`: a present field that is not an integer is an error. Python keeps the value.
- `Rollout.ParseLine`: because of those four field readers, a line whose record fields have the wrong types is dropped. `load_history` keeps such a record, with the wrongly typed value in it. The records hold text and integers, not arbitrary values.
- `CodeAgent.MatchCall`: `\w` is ASCII only (letters, digits, `_`). Python's `\w` on `str` patterns also matches non-ASCII letters and digits, so a tool name such as "搜索" matches in Python and not in the model.
- `CodeAgent.ParseResponse`: the ReAct engine's two regular expressions for "思考:" and "行动:" are the parameter `Env.find`, which gives what they capture (`Matches`). Regular-expression matching is not modelled.
- `MultiEdit.Run`: the `multiedit_exception` result is not modelled. `EditEntry` holds `oldString` and `newString` as strings, so an entry whose `newString` is not a string cannot be written. In Python such an entry makes the edit tool's `f.write` raise a TypeError that the tool does not catch, and the outer handler reports `multiedit_exception`. A failure of `os.getcwd()` in the success report is not modelled either.
- `Edit.CreateFile`: the text for writing to a directory is CPython's `[Errno 21] Is a directory: '<path>'`. The path is quoted with plain single quotes, whereas Python's `repr` would escape quotes and backslashes in it.
- Tool parameters are typed records (`BashParams`, `FetchParams`, `GrepParams`, `ReadParams`, `EditParams`, `TaskParams`, `SearchParams`), not dictionaries. So a missing required key, such as `params["command"]` or `params["url"]`, is not modelled. In Python it raises KeyError, which `execute_tool` turns into None.
- `Bash.BashTimeoutSpec`: the timeout is a whole number of seconds, so a non-numeric timeout is not modelled. In Python it makes `min(...)` raise TypeError. A fractional timeout such as 2.5, which the schema allows and which would appear in the metadata and in the "(2.5秒)" text, is not modelled either.
- `Web.FetchTimeoutSpec`: the timeout is a whole number of seconds, so a non-numeric timeout is not modelled. In Python it makes `min(...)` raise TypeError. A fractional timeout, which the schema allows, is not modelled either.
- `Session.Session.UpdateTokenUsage`: the token_count event that `update_token_usage` posts through `asyncio.create_task` is deferred, so it is not in `events`. The program emits it later, from the event loop, which is not modelled.
- `Paths.Name`: pathlib's normalisation is not modelled. Only trailing slashes are dropped, so "a/." gives "." where `PurePath("a/.").name` is "a". Repeated slashes and "." components are not collapsed either.
- `Memory.MemoryManager.constructor`: the rollout path is `session_dir + "/rollout-…"` as a string. `session_dir / rollout_filename` would also normalise the directory, dropping a trailing "/", repeated slashes and "." components.
- `OpenCode.Prune` requires every tool message of the list to be a distinct dict object. A list that holds the same dict twice is left out.
- `TurnBasedAgent.Agent.MultiTurnReasoning` runs the loop as written for at most `fuel` iterations, because the source's no-tool branch never advances `turn_count` and so has no bound. `NeverDoneKeepsLooping` shows the loop is unbounded; `BoundedReasoningEnds` proves the counted loop ends.
- The exception branches of `turn_based_agent.process_user_input` and `multi_turn_reasoning` are not modelled because only unmodelled I/O and logging can raise there. `Turn.Execute` catches the model's errors itself.
- `turn_based_agent._load_system_prompt` reads files, so the resulting prompt is the agent's `systemPrompt` constant.
- In `code_agent`, `_execute_action` reads `result.content`, which `ToolResult` lacks, so its answer is the parameter `Env.act`.
- `CodeAgent.process_query_stream` and `CodeAgent.get_statistics` are not modelled because they only wrap `process_query` or report configuration.
- `simple_dispatcher` calls asynchronous tools without awaiting them, so the dispatcher's answer is the parameter `Env.dispatch`.
- `SimpleController.run` only prints the plan and calls the loop, so it is not modelled.
- `helpers.format_duration`, `safe_json_loads` and `extract_code_blocks` are not modelled because they are floating-point formatting, a `json.loads` wrapper and a regular-expression search.
- `Memory.MemoryManager.GetMessages` and `GetStats` have no contracts of their own. `FilteredKeeps` and `StatsOfAppend` state their properties.
- `EditTool._generate_diff` and `PatchApplier.apply_patch`/`create_patch`/`preview_patch`/`revert_patch`/`_calculate_patch_stats` do file I/O and `difflib` work, so they are not modelled.
- `WebFetchTool._fetch_content` and the search backend are network calls, so their results are parameters.
- `todo.py`, `glob_tool.py` and `bash_tool.py` are not part of this model, because they cannot be constructed or are truncated copies.
- `get_global_registry` is a process-wide singleton, so it is not part of this model. The agents take their registry as an argument.
- `src/core/config.py`, `project_doc.py` and `executor.py` are not part of this model.
- The policy strings that `Config` allows but the enums lack are parse errors. These are approval "always" and sandbox "strict" and "none".

## Findings

| source | as written | input that shows it | evidently intended | confidence | as-written member | corrected member |
|---|---|---|---|---|---|---|
| src/core/session.py:344 | `getattr(op, 'call_id', None)` reads a field that `Op` does not have (src/core/protocol.py:36-46), so the id is always None | any exec-approval submission, even for a pending call | look the call up by the operation's id | high (not executed) | Session.ExecApprovalAsWrittenNeverFound | Session.ExecApprovalResolves |
| src/tools/patch_applier.py:83-84 | lines starting with "---" or "+++" are skipped everywhere, also inside a hunk | the patch "@@ -1,2 +1,1 @@", " a", "--- c" applied to "a\n-- c" leaves the file unchanged | skip file headers only before the first hunk, so the result is "a" | high (not executed) | Patch.DashedRemovalLost | Patch.HunksRoundTripIntended |
| src/agent/turn_based_agent.py:260-278 | the branch without tool calls never increments `turn_count` | a model that never calls a tool and never answers "Done" keeps the loop running for ever | count every round against `max_turns` | medium (not executed) | TurnBasedAgent.NeverDoneKeepsLooping | TurnBasedAgent.BoundedReasoningEnds |
