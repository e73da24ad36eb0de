/** Role-based authorization (`authorize(allowedRoles)`). */
module Authorization {
  import opened Wrappers
  import Json
  import Jwt
  import opened Http
  import opened ResponseUtil

  /** `allowedRoles.includes(req.user.role)`: an absent role is never included. */
  predicate HasAllowedRole(allowed: seq<string>, user: Jwt.Claims) {
    user.role.Some? && user.role.value in allowed
  }

  /** The middleware `authorize(allowed)` applied to a request whose `req.user` is `user`. */
  function Authorize(allowed: seq<string>, user: Option<Jwt.Claims>, nodeEnv: Option<string>, now: string): (o: Outcome)
    ensures user.None? ==> o == Respond(SendError("Authentication required.", Some(401), None, nodeEnv, now))
    ensures user.Some? && !HasAllowedRole(allowed, user.value) ==>
      o == Respond(SendError("Access denied. Insufficient permissions.", Some(403), None, nodeEnv, now))
    ensures o == Next <==> user.Some? && HasAllowedRole(allowed, user.value)
  {
    if user.None? then Respond(SendError("Authentication required.", Some(401), None, nodeEnv, now))
    else if !HasAllowedRole(allowed, user.value) then
      Respond(SendError("Access denied. Insufficient permissions.", Some(403), None, nodeEnv, now))
    else Next
  }

  /** The user check comes first: without a user the answer is 401 whatever roles are allowed. */
  lemma UnauthenticatedBeforeRoleCheck(a1: seq<string>, a2: seq<string>, nodeEnv: Option<string>, now: string)
    ensures Authorize(a1, None, nodeEnv, now) == Authorize(a2, None, nodeEnv, now)
    ensures Authorize(a1, None, nodeEnv, now).reply.status == 401
  {
  }

  /** The default `allowedRoles = []` admits nobody: every authenticated user gets 403. */
  lemma DefaultDeniesEveryone(user: Jwt.Claims, nodeEnv: Option<string>, now: string)
    ensures Authorize([], Some(user), nodeEnv, now).Respond?
    ensures Authorize([], Some(user), nodeEnv, now).reply.status == 403
  {
  }
}
