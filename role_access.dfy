/** `roleBasedAccess(requiredRole)` of src/middleware/roleBasedAccess.ts: a
    rank table and one comparison. */
module RoleAccess {
  import opened Wrappers
  import opened Http

  /** The rank of a role in `rolesHierarchy`; other strings have no rank
      (the lookup is `undefined`, or a non-number inherited property, and
      comparing with it is false). */
  function Rank(role: string): (r: Option<nat>)
    ensures r.Some? <==> role in {"read-only", "editor", "admin"}
    ensures r.Some? ==> 1 <= r.value <= 3
  {
    if role == "read-only" then Some(1)
    else if role == "editor" then Some(2)
    else if role == "admin" then Some(3)
    else None
  }

  const AccessDenied := Response(403, JsonError("Access Denied"), Some(JsonType))

  /** Whether `rolesHierarchy[userRole] < rolesHierarchy[requiredRole]`. */
  predicate Below(userRole: string, requiredRole: string) {
    Rank(userRole).Some? && Rank(requiredRole).Some? && Rank(userRole).value < Rank(requiredRole).value
  }

  /** The middleware's answer: the 403 response, or `None` for `null`. */
  function RoleBasedAccess(requiredRole: string, userRole: string): (r: Option<Response>)
    ensures r.Some? ==> r.value == AccessDenied
  {
    if Below(userRole, requiredRole) then Some(AccessDenied) else None
  }

  /** Denied exactly when both roles are ranked and the user's is lower. */
  lemma DeniedIff(requiredRole: string, userRole: string)
    ensures RoleBasedAccess(requiredRole, userRole).Some? <==>
      (Rank(userRole).Some? && Rank(requiredRole).Some? && Rank(userRole).value < Rank(requiredRole).value)
  {
  }

  /** The ranks are ordered read-only < editor < admin. */
  lemma RanksOrdered()
    ensures Rank("read-only") == Some(1) && Rank("editor") == Some(2) && Rank("admin") == Some(3)
    ensures RoleBasedAccess("editor", "read-only") == Some(AccessDenied)
    ensures RoleBasedAccess("admin", "editor") == Some(AccessDenied)
    ensures RoleBasedAccess("editor", "editor") == None
  {
  }

  /** A role that passes a requirement passes every ranked requirement of
      lower or equal rank. */
  lemma Monotone(userRole: string, required: string, lower: string)
    requires RoleBasedAccess(required, userRole).None?
    requires Rank(required).Some? && Rank(lower).Some? && Rank(lower).value <= Rank(required).value
    ensures RoleBasedAccess(lower, userRole).None?
  {
  }

  /** Admin passes every requirement; an unranked role on either side is
      never denied. */
  lemma AdminAndUnranked(requiredRole: string, userRole: string)
    ensures RoleBasedAccess(requiredRole, "admin").None?
    ensures Rank(userRole).None? || Rank(requiredRole).None? ==> RoleBasedAccess(requiredRole, userRole).None?
  {
  }
}
