/** `AuthGuard`: lets a request through only when the auth middleware left a
    user with an email on it. */
module AuthGuard {
  import opened Wrappers
  import opened Http

  /** `req.authUser?.email` is truthy. */
  predicate Authenticated(authUser: Option<RequestUser>) {
    authUser.Some? && authUser.value.email.Some? && authUser.value.email.value != ""
  }

  const Unauthorized: HttpError := HttpError(401, "Authorization error", Some("AUTHORIZATION"))

  /** `exec`: `next()` for an authenticated request, otherwise
      `next(new HTTPError(401, 'Authorization error', 'AUTHORIZATION'))`. */
  function Exec(authUser: Option<RequestUser>): (s: Step)
    ensures s == Continue <==> Authenticated(authUser)
    ensures s != Continue ==> s == Forward(HttpErr(Unauthorized))
  {
    if authUser.Some? && authUser.value.email.Some? && authUser.value.email.value != "" then Continue
    else Forward(HttpErr(Unauthorized))
  }

  /** Claims without an email (a password-reset token carries only `_id`) do
      not pass the guard, whatever role or id they carry. */
  lemma ResetClaimsRejected(role: Option<string>, id: Option<string>)
    ensures Exec(Some(RequestUser(None, role, id))) == Forward(HttpErr(Unauthorized))
  {
  }
}
