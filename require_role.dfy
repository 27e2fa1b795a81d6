/**
 * The role gate placed in front of some routes
 * (apps/api/src/middlewares/requireRole.ts).
 */
module RoleGate {
  import opened Wrappers
  import opened Roles
  import opened Http

  /**
   * `hasRequiredRole`: no role is refused, admin is always let through, an
   * empty list lets every role through, otherwise the role must be listed.
   */
  function HasRequiredRole(userRole: Option<Role>, allowed: seq<Role>): (ok: bool)
    ensures userRole.None? ==> !ok
    ensures userRole == Some(Admin) ==> ok
    ensures userRole.Some? && allowed == [] ==> ok
    ensures userRole.Some? && userRole.value != Admin && allowed != [] ==> (ok <==> userRole.value in allowed)
  {
    if userRole.None? then false
    else if userRole.value == Admin then true
    else if |allowed| == 0 then true
    else userRole.value in allowed
  }

  /**
   * `requireRole(allowed)`: a request without a user id is answered 401
   * before the role is looked at; a role that fails the test is answered 403;
   * otherwise the request goes on with its user.
   */
  function RequireRole(user: Option<RequestUser>, allowed: seq<Role>): (r: Result<RequestUser, Failure>)
    ensures user.None? || user.value.id.None? ==> r == Err(Fail(401, "USUARIO_NAO_CADASTRADO"))
    ensures user.Some? && user.value.id.Some? ==>
      (r == Ok(user.value) <==> HasRequiredRole(Some(user.value.role), allowed))
    ensures user.Some? && user.value.id.Some? && !HasRequiredRole(Some(user.value.role), allowed) ==>
      r == Err(Fail(403, "PERMISSAO_NEGADA"))
  {
    if user.None? || user.value.id.None? then Err(Fail(401, "USUARIO_NAO_CADASTRADO"))
    else if !HasRequiredRole(Some(user.value.role), allowed) then Err(Fail(403, "PERMISSAO_NEGADA"))
    else Ok(user.value)
  }

  /** Behind `requireRole(["manutentor"])` only manutentor and admin get through: a gestor is refused. */
  lemma ManutentorGate(user: RequestUser)
    requires user.id.Some?
    ensures RequireRole(Some(user), [Manutentor]).Ok? <==> user.role == Manutentor || user.role == Admin
  {
  }
}
