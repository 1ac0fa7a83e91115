/** The RBAC decision (packages/rbac/policy.py). */
module Rbac {

  datatype Reason = Allowed | RoleNotPermitted | UnknownRole | ToolDisabled
  {
    /** The machine-readable code. */
    function Code(): string
    {
      match this
      case Allowed => "allowed"
      case RoleNotPermitted => "role_not_permitted"
      case UnknownRole => "unknown_role"
      case ToolDisabled => "tool_disabled"
    }
  }

  /** `evaluate`: deny by default, unknown roles first, the kill-switch before the role list. */
  function Evaluate(role: string, requiredRoles: seq<string>, knownRoles: set<string>, enabled: bool): (r: Reason)
    ensures r == Allowed <==> role in knownRoles && enabled && role in requiredRoles
    ensures r == UnknownRole <==> role !in knownRoles
    ensures r == ToolDisabled <==> role in knownRoles && !enabled
    ensures r == RoleNotPermitted <==> role in knownRoles && enabled && role !in requiredRoles
  {
    if role !in knownRoles then UnknownRole
    else if !enabled then ToolDisabled
    else if role in requiredRoles then Allowed
    else RoleNotPermitted
  }
}
