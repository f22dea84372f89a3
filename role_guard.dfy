/** `RoleGuard`: lets a request through only when `req.authUser.role` is the
    guard's role. */
module RoleGuard {
  import opened Wrappers
  import opened Http
  import opened UserSchema
  import AuthGuard

  const Forbidden: HttpError := HttpError(403, "Forbidden Resource", Some("ROLE AUTHORIZATION"))

  /** `new RoleGuard(role)`. */
  datatype RoleGuard = RoleGuard(role: Role) {

    /** `exec`: reading `.role` of a missing `authUser` throws a TypeError
        inside the middleware; a matching role calls `next()`; anything else
        forwards the 403 error. */
    function Exec(authUser: Option<RequestUser>): (s: Step)
      ensures authUser.None? <==> s.Raise?
      ensures s.Raise? ==> s.thrown == ReadOfUndefined("role")
      ensures s == Continue <==> authUser.Some? && authUser.value.role == Some(RoleName(role))
      ensures authUser.Some? && s != Continue ==> s == Forward(HttpErr(Forbidden))
    {
      match authUser
      case None => Raise(ReadOfUndefined("role"))
      case Some(u) => if u.role == Some(RoleName(role)) then Continue else Forward(HttpErr(Forbidden))
    }
  }

  /** Roles are compared for equality, not ranked: each guard admits exactly
      one role, so an ADMIN guard refuses a MODERATOR and the reverse. */
  lemma NoRoleHierarchy(g: RoleGuard, r: Role, email: Option<string>, id: Option<string>)
    ensures g.Exec(Some(RequestUser(email, Some(RoleName(r)), id))) == Continue <==> r == g.role
  {
    RoleNameRoundTrip(r, g.role);
  }

  /** The role guard does not imply the auth guard: claims with the right role
      and no email pass it although the auth guard would refuse them. */
  lemma RoleWithoutEmail(g: RoleGuard)
    ensures var u := Some(RequestUser(None, Some(RoleName(g.role)), None));
      g.Exec(u) == Continue && AuthGuard.Exec(u) != Continue
  {
  }
}
