/** The records that the harness produces and the scorer reads
    (src/harness.py): decoded JSON values, tool calls, trace entries and the
    final snapshot of the environment. */
module Trace {
  import opened Tools

  /** A decoded JSON value. Numbers are integers only: the model has no
      fractional numbers. */
  datatype Json =
    | JNull
    | JBool(b: bool)
    | JNum(n: int)
    | JStr(s: string)
    | JArr(items: seq<Json>)
    | JObj(fields: map<string, Json>)

  /** Python's truth value of the decoded value (`bool(x)`, `if x:`). */
  predicate Truthy(j: Json) {
    match j
    case JNull => false
    case JBool(b) => b
    case JNum(n) => n != 0
    case JStr(s) => s != ""
    case JArr(items) => items != []
    case JObj(fields) => fields != map[]
  }

  /** `ToolCall{name, arguments}`. */
  datatype ToolCall = ToolCall(name: string, arguments: map<string, Json>)

  /** One element of `trace`: `{"step", "call", "result"}`. */
  datatype TraceEntry = TraceEntry(step: nat, call: ToolCall, result: ToolResult)

  /** The `final` mapping: replica counts keyed by "service:namespace", the
      ticket, the flags and the incident log. */
  datatype FinalSnapshot = FinalSnapshot(deployments: map<string, int>, ticket: Ticket,
                                         featureFlags: map<string, bool>, incidentLog: seq<LogEntry>)

  /** `ExecutionTrace{tool_calls, final}`. */
  datatype ExecutionTrace = ExecutionTrace(toolCalls: seq<TraceEntry>, final: FinalSnapshot)
}
