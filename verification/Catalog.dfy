/**
 * Tools, principals and settings the gateway and the worker share (packages/tool_registry/spec.py,
 * packages/common/settings.py).
 */
module Catalog {
  import opened Values
  import opened Redactor

  datatype Classification = Read | Write | Destructive

  datatype ExecutionMode = Sync | Async

  /** The declared policy of a tool; validation is a function from raw to validated arguments. */
  datatype ToolSpec = ToolSpec(
    requiredRoles: seq<string>, classification: Classification, mode: ExecutionMode, dryRunRequired: bool,
    enabled: bool, sensitiveFields: set<string>, rawPiiRoles: seq<string>, validate: Dict -> Result<Dict, string>)

  /** What running a tool yields: its output and metadata, a ToolError, or any other exception. */
  datatype HandlerResult =
    | Returned(output: Dict, resourceId: string, proposedChange: Dict)
    | ToolFault(code: string, text: string)
    | OtherFault(codeAttribute: Option<string>, text: string)

  datatype Principal = Principal(subject: string, agentId: string, role: string)

  const ADMIN_ROLE: string := "admin_agent"

  /**
   * One deployment. Gateway and workers read one settings object and build one registry. `handler` is the
   * result of running the tool in the worker for a queue row at a delivery count.
   */
  datatype Deployment = Deployment(
    registry: map<string, ToolSpec>, knownRoles: set<string>, approvalToken: string,
    queue: string, maxDelivery: int, patterns: seq<Pattern>,
    hash: (string, Dict) -> string, handler: (nat, nat) -> HandlerResult)

  /** A first delivery always happens, so this many deliveries are possible. */
  function Bound(c: Deployment): nat
  {
    if c.maxDelivery < 1 then 1 else c.maxDelivery
  }
}
