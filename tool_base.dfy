/** The data every tool exchanges with its caller: the execution context and
    the result. */
module ToolBase {
  import opened Wrappers
  import opened Values

  /** `ToolContext`. */
  datatype ToolContext = ToolContext(
    sessionId: string,
    messageId: string,
    agent: string,
    callId: Option<string>,
    extra: Option<map<string, Value>>)

  /** `ToolResult`. */
  datatype ToolResult = ToolResult(title: string, output: string, metadata: Option<map<string, Value>>)

  /** The result's metadata holds `v` under `key`. */
  predicate MetaIs(t: ToolResult, key: string, v: Value) {
    t.metadata.Some? && key in t.metadata.value && t.metadata.value[key] == v
  }
}
