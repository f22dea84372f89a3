/** `AuthMiddleware`: the application-wide middleware that reads a bearer token
    and, when it verifies to an object payload, copies its claims to
    `req.authUser`. It never rejects a request itself; the guards do. */
module AuthMiddleware {
  import opened Wrappers
  import opened Http
  import opened JsString

  /** `authorization.split(' ')[1]`: the text between the first and second
      space, `undefined` when there is no space. */
  function BearerToken(authorization: string): (t: Option<string>)
    ensures t.Some? ==> ' ' !in t.value
  {
    var pieces := Split(authorization, ' ');
    if |pieces| > 1 then Some(pieces[1]) else None
  }

  /** A header without a space yields no token at all. */
  lemma NoSpaceNoToken(authorization: string)
    requires ' ' !in authorization
    ensures BearerToken(authorization) == None
  {
    SplitWord(authorization, ' ');
  }

  /** The first word (the scheme) is skipped whatever it says, and the token
      ends at the next space. */
  lemma BearerTokenOf(scheme: string, token: string, rest: string)
    requires ' ' !in scheme && ' ' !in token
    ensures BearerToken(scheme + " " + token) == Some(token)
    ensures BearerToken(scheme + " " + token + " " + rest) == Some(token)
  {
    assert scheme + " " + token == scheme + [' '] + token;
    SplitAfterWord(scheme, ' ', token);
    SplitWord(token, ' ');
    assert scheme + " " + token + " " + rest == scheme + [' '] + (token + [' '] + rest);
    SplitAfterWord(scheme, ' ', token + [' '] + rest);
    SplitAfterWord(token, ' ', rest);
  }

  /** `if (req.headers.authorization)`: present and not empty. */
  predicate HeaderPresent(authorization: Option<string>) {
    authorization.Some? && authorization.value != ""
  }

  /** The claims `req.authUser` receives from an object payload. */
  function UserOf(c: Claims): (u: RequestUser)
    ensures u.email == c.email && u.role == c.role && u.id == c.id
  {
    RequestUser(c.email, c.role, c.id)
  }

  /** The effect of the middleware: the step it takes and the `authUser` it leaves. */
  datatype Outcome = Outcome(step: Step, authUser: Option<RequestUser>)

  /** `exec` as a function of the header, the secret, the verifier and the
      request's `authUser` before it ran. */
  function Authenticate(authorization: Option<string>, secret: Option<string>, verify: VerifyFn,
                        prior: Option<RequestUser>): (o: Outcome)
    ensures o.step == Continue || o.step == Stall
    ensures o.authUser == prior || o.authUser.Some?
    ensures !HeaderPresent(authorization) ==> o == Outcome(Continue, prior)
    // `authUser` only ever comes from a verified object payload
    ensures o.authUser != prior ==>
      HeaderPresent(authorization) &&
      exists c :: verify(BearerToken(authorization.value), secret) == Verified(ObjectPayload(c)) &&
                  o.authUser == Some(UserOf(c))
    // a verified object payload becomes `authUser`, and a failed verification changes nothing
    ensures forall c ::
      (HeaderPresent(authorization) && verify(BearerToken(authorization.value), secret) == Verified(ObjectPayload(c)))
        ==> o == Outcome(Continue, Some(UserOf(c)))
    ensures HeaderPresent(authorization) && verify(BearerToken(authorization.value), secret) == VerifyFailed ==>
      o == Outcome(Continue, prior)
    // the request hangs exactly when a token verifies to a non-object payload
    ensures o.step == Stall <==>
      HeaderPresent(authorization) && verify(BearerToken(authorization.value), secret) == Verified(OtherPayload)
  {
    if !HeaderPresent(authorization) then Outcome(Continue, prior)
    else
      match verify(BearerToken(authorization.value), secret)
      case VerifyFailed => Outcome(Continue, prior)
      case Verified(ObjectPayload(c)) => Outcome(Continue, Some(UserOf(c)))
      case Verified(OtherPayload) => Outcome(Stall, prior)
  }

  /** `new AuthMiddleware(configService.get('SECRET'))`. */
  class AuthMiddleware {
    const secret: Option<string>
    const verify: VerifyFn

    constructor(secret: Option<string>, verify: VerifyFn)
      ensures this.secret == secret && this.verify == verify
    {
      this.secret := secret;
      this.verify := verify;
    }

    /** `exec(req, res, next)`: writes `req.authUser` for a verified object
        payload and calls `next()`; a failed verification also calls `next()`
        with `authUser` untouched; a non-object payload does neither. */
    method Exec(req: Request) returns (s: Step)
      modifies req
      ensures Outcome(s, req.authUser) == Authenticate(req.authorization, secret, verify, old(req.authUser))
    {
      if req.authorization.Some? && req.authorization.value != "" {
        var token := BearerToken(req.authorization.value);
        var result := verify(token, secret);
        if result.VerifyFailed? {
          s := Continue;
        } else if result.decoded.ObjectPayload? {
          var c := result.decoded.claims;
          req.authUser := Some(RequestUser(c.email, c.role, c.id));
          s := Continue;
        } else {
          s := Stall;
        }
      } else {
        s := Continue;
      }
    }
  }

  /** The verifier inverts the signer for a secret: a token it signed with
      that secret verifies to exactly the claims it carried. */
  ghost predicate VerifiesOwnTokens(sign: SignFn, verify: VerifyFn, secret: Option<string>) {
    forall c: Claims, expiresIn: Option<string> ::
      verify(Some(sign(c, secret, expiresIn)), secret) == Verified(ObjectPayload(c))
  }

  /** A `Bearer <token>` header carrying a token the server signed with its
      secret always authenticates as the token's claims, whatever the request
      held before. */
  lemma SignedTokenAuthenticates(sign: SignFn, verify: VerifyFn, secret: Option<string>,
                                 c: Claims, expiresIn: Option<string>, scheme: string, prior: Option<RequestUser>)
    requires VerifiesOwnTokens(sign, verify, secret)
    requires ' ' !in scheme && ' ' !in sign(c, secret, expiresIn)
    ensures Authenticate(Some(scheme + " " + sign(c, secret, expiresIn)), secret, verify, prior)
         == Outcome(Continue, Some(RequestUser(c.email, c.role, c.id)))
  {
    var token := sign(c, secret, expiresIn);
    BearerTokenOf(scheme, token, "");
    assert verify(Some(token), secret) == Verified(ObjectPayload(c));
  }
}
