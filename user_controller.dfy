/** `UserController`: the `/api/user` route table and the handlers that turn
    the service's results into answers. */
module UserController {
  import opened Wrappers
  import opened Json
  import opened Http
  import opened JsString
  import opened Dto
  import opened UserSchema
  import opened UserService
  import opened BaseController
  import opened GetData
  import HandleRequest
  import ValidateMiddleware
  import AuthGuard
  import RoleGuard
  import AuthMiddleware

  /** The controller's handlers, as the route table refers to them. */
  datatype Handler =
    | Register | Login | UpdateUser | UpdatePassword | ForgotPassword | ResetPassword
    | CurrentUser | GoogleAuth | GoogleAuthCallback

  function Validating(d: DtoName): Middleware {
    UsesValidate(ValidateMiddleware.ValidateMiddleware(d))
  }

  /** The table handed to `bindRoutes('user', ...)`. */
  function RouteTable(): (routes: seq<ControllerRoute<Handler>>)
    ensures |routes| == 10
    // no two routes share a method and a path, so none shadows another
    ensures forall i, j :: 0 <= i < j < |routes| ==>
      routes[i].verb != routes[j].verb || routes[i].path != routes[j].path
  {
    [ ControllerRoute("/register", Post, Register, Some([Validating(UserRegister)])),
      ControllerRoute("/login", Post, Login, Some([Validating(UserLogin)])),
      ControllerRoute("/", Put, UpdateUser, Some([Validating(UserUpdate)])),
      ControllerRoute("/password", Put, UpdatePassword, Some([Validating(UserUpdatePassword)])),
      ControllerRoute("/admin-login", Post, Login,
                      Some([Validating(UserLogin), UsesRoleGuard(RoleGuard.RoleGuard(ADMIN))])),
      ControllerRoute("/forgot-password", Post, ForgotPassword, Some([Validating(UserForgotPassword)])),
      ControllerRoute("/reset-password", Put, ResetPassword, Some([Validating(UserResetPassword)])),
      ControllerRoute("/me", Get, CurrentUser, Some([UsesAuthGuard])),
      ControllerRoute("/google", Get, GoogleAuth, None),
      ControllerRoute("/google/callback", Get, GoogleAuthCallback, None) ]
  }

  /** The middlewares a route runs before its handler. */
  function MiddlewaresOf(r: ControllerRoute<Handler>): seq<Middleware> {
    r.middlewares.GetOr([])
  }

  /** Only `/me` is behind the auth guard; the two profile updates under PUT
      are not. */
  lemma OnlyMeIsAuthGuarded(k: nat)
    requires k < |RouteTable()|
    ensures UsesAuthGuard in MiddlewaresOf(RouteTable()[k]) <==> RouteTable()[k].path == "/me"
  {
    var t := RouteTable();
    assert t[0].path == "/register" && t[1].path == "/login" && t[2].path == "/" && t[3].path == "/password";
    assert t[4].path == "/admin-login" && t[5].path == "/forgot-password" && t[6].path == "/reset-password";
    assert MiddlewaresOf(t[4]) == [Validating(UserLogin), UsesRoleGuard(RoleGuard.RoleGuard(ADMIN))];
  }

  /** On every route whose middlewares are validation only, whether the
      handler runs depends on the body alone, never on `authUser`. */
  lemma ValidationOnlyIgnoresAuth(ms: seq<Middleware>, a: Option<RequestUser>, b: Option<RequestUser>,
                                   body: Json, isEmail: string -> bool)
    requires forall k :: 0 <= k < |ms| ==> ms[k].UsesValidate?
    ensures Gate(ms, a, body, isEmail) == Gate(ms, b, body, isEmail)
  {
    assert Steps(ms, a, body, isEmail) == Steps(ms, b, body, isEmail);
  }

  /** `PUT /` and `PUT /password` only validate their bodies. */
  lemma ProfileUpdateMiddlewares()
    ensures MiddlewaresOf(RouteTable()[2]) == [Validating(UserUpdate)]
    ensures MiddlewaresOf(RouteTable()[3]) == [Validating(UserUpdatePassword)]
  {
  }

  /** `PUT /` and `PUT /password` run their handlers for any caller, token or not. */
  lemma ProfileUpdatesUnguarded(a: Option<RequestUser>, b: Option<RequestUser>, body: Json, isEmail: string -> bool)
    ensures Gate(MiddlewaresOf(RouteTable()[2]), a, body, isEmail) == Gate(MiddlewaresOf(RouteTable()[2]), b, body, isEmail)
    ensures Gate(MiddlewaresOf(RouteTable()[3]), a, body, isEmail) == Gate(MiddlewaresOf(RouteTable()[3]), b, body, isEmail)
  {
    ProfileUpdateMiddlewares();
    ValidationOnlyIgnoresAuth([Validating(UserUpdate)], a, b, body, isEmail);
    ValidationOnlyIgnoresAuth([Validating(UserUpdatePassword)], a, b, body, isEmail);
  }

  /** `POST /admin-login` validates a login body, then checks the role. */
  lemma AdminLoginMiddlewares()
    ensures MiddlewaresOf(RouteTable()[4]) == [Validating(UserLogin), UsesRoleGuard(RoleGuard.RoleGuard(ADMIN))]
  {
  }

  /** `POST /admin-login` runs `login` exactly when the body is a valid login
      and the request already carries a token with role ADMIN; without any
      token the guard's property read throws. The credentials in the body
      alone never open it. */
  lemma AdminLoginGate(authUser: Option<RequestUser>, body: Json, isEmail: string -> bool)
    ensures var s := Gate(MiddlewaresOf(RouteTable()[4]), authUser, body, isEmail);
      (s == Continue <==>
        Validate(LoginSchema(), body, isEmail) == [] && authUser.Some? && authUser.value.role == Some("ADMIN")) &&
      (Validate(LoginSchema(), body, isEmail) == [] && authUser.None? ==> s == Raise(ReadOfUndefined("role")))
  {
    AdminLoginMiddlewares();
    var ms := [Validating(UserLogin), UsesRoleGuard(RoleGuard.RoleGuard(ADMIN))];
    var errs := Validate(LoginSchema(), body, isEmail);
    var v := MiddlewareStep(ms[0], authUser, body, isEmail);
    var g := MiddlewareStep(ms[1], authUser, body, isEmail);
    assert v == ValidateMiddleware.ValidateStep(errs);
    ValidateMiddleware.ValidateStepContinues(errs);
    TwoStepGate(ms, authUser, body, isEmail);
  }

  /** The Google routes carry no middlewares at all. */
  lemma GoogleRoutesBare()
    ensures Pipeline(RouteTable()[8]) == [Handle(GoogleAuth)]
    ensures Pipeline(RouteTable()[9]) == [Handle(GoogleAuthCallback)]
  {
  }

  // ---- answers ----------------------------------------------------------

  /** A handler's result as `handleRequest` passes it on: `ok(res,
      createReturnData(data))`, or the thrown error forwarded. */
  function Answer(r: Result<Json, Thrown>): Step {
    match r
    case Ok(data) => HandleRequest.HandleRequest(HandleRequest.Completed(Reply(OkResponse(CreateReturnData(data, None)))))
    case Err(e) => HandleRequest.HandleRequest(HandleRequest.Threw(e))
  }

  /** The `{ _id, email, name, phone, role }` profile `currentUser` sends;
      `phone` is left out when the document has none. */
  function ProfileView(u: User): (j: Json)
    ensures ObjectKeys(j) == ["_id", "email", "name"] + (if u.phone.Some? then ["phone"] else []) + ["role"]
    ensures Field(j, "_id") == Some(JStr(u.id)) && Field(j, "email") == Some(JStr(u.email))
    ensures Field(j, "name") == Some(JStr(u.name)) && Field(j, "role") == Some(JStr(RoleName(u.role)))
    ensures Field(j, "phone") == if u.phone.Some? then Some(JStr(u.phone.value)) else None
  {
    match u.phone
    case None =>
      var fields := [("_id", JStr(u.id)), ("email", JStr(u.email)), ("name", JStr(u.name)),
                     ("role", JStr(RoleName(u.role)))];
      GetAt(fields, 1);
      GetAt(fields, 2);
      GetAt(fields, 3);
      GetSpec(fields, "phone");
      JObj(fields)
    case Some(p) =>
      var fields := [("_id", JStr(u.id)), ("email", JStr(u.email)), ("name", JStr(u.name)),
                     ("phone", JStr(p)), ("role", JStr(RoleName(u.role)))];
      GetAt(fields, 1);
      GetAt(fields, 2);
      GetAt(fields, 3);
      GetAt(fields, 4);
      JObj(fields)
  }

  /** `new UserController(logger, userService, configService)`. */
  class UserController {
    const service: UserService
    const base: BaseController<Handler>

    /** Binds the route table under the prefix `user`. */
    constructor(service: UserService)
      ensures this.service == service && fresh(base)
      ensures base.router.bindings == Bindings(RouteTable())
    {
      this.service := service;
      base := new BaseController<Handler>();
      new;
      base.BindRoutes("user", RouteTable());
    }

    /** The session token for a user: `signJWT(email, role, _id, SECRET)`. */
    function Token(u: User): string {
      service.SignJWT(u.email, u.role, u.id, service.Secret())
    }

    /** The `{ email, name, phone, token }` the account handlers send; the
        password hash and the flags never leave the server. */
    function TokenView(u: User): (j: Json)
      ensures ObjectKeys(j) == ["email", "name"] + (if u.phone.Some? then ["phone"] else []) + ["token"]
      ensures Field(j, "token") == Some(JStr(Token(u))) && Field(j, "email") == Some(JStr(u.email))
      ensures Field(j, "name") == Some(JStr(u.name))
      ensures Field(j, "phone") == if u.phone.Some? then Some(JStr(u.phone.value)) else None
    {
      match u.phone
      case None =>
        var fields := [("email", JStr(u.email)), ("name", JStr(u.name)), ("token", JStr(Token(u)))];
        GetAt(fields, 1);
        GetAt(fields, 2);
        GetSpec(fields, "phone");
        JObj(fields)
      case Some(p) =>
        var fields := [("email", JStr(u.email)), ("name", JStr(u.name)), ("phone", JStr(p)), ("token", JStr(Token(u)))];
        GetAt(fields, 1);
        GetAt(fields, 2);
        GetAt(fields, 3);
        JObj(fields)
    }

    /** `register`: creates the account and answers with a session token for
        it; the account then logs in with the registered password. */
    method Register(dto: RegisterDto, newId: string) returns (s: Step)
      requires service.Valid()
      modifies service
      ensures service.Valid()
      ensures s.Reply? || (s.Forward? && s.err.HttpErr?)
      ensures s.Reply? <==> |service.users| == |old(service.users)| + 1
      ensures s.Reply? ==>
        var u := service.users[|old(service.users)|];
        service.users == old(service.users) + [u] && s == Answer(Ok(TokenView(u))) &&
        service.ValidateUser(dto.email, dto.password) == Ok(u)
      ensures s.Forward? ==> service.users == old(service.users)
      ensures FindFirst(old(service.users), ByEmail(Some(dto.email))).Some? ==> s == Answer(Err(ExistingEmail))
    {
      var created := service.CreateUser(dto, newId);
      match created
      case Err(e) =>
        s := Answer(Err(e));
      case Ok(u) =>
        s := Answer(Ok(TokenView(u)));
    }

    /** `login`: valid credentials of an account that is not soft-deleted are
        answered with a session token; a deleted account is refused with 403. */
    function Login(dto: LoginDto): (s: Step)
      reads service
      ensures s.Reply? || (s.Forward? && s.err.HttpErr?)
      ensures s.Reply? <==> service.ValidateUser(dto.email, dto.password).Ok? && !service.ValidateUser(dto.email, dto.password).value.deleted
      ensures s.Reply? ==> s == Answer(Ok(TokenView(service.ValidateUser(dto.email, dto.password).value)))
      ensures service.ValidateUser(dto.email, dto.password).Ok? && service.ValidateUser(dto.email, dto.password).value.deleted ==>
                s == Answer(Err(HttpErr(HttpError(403, "User removed", Some("LOGIN USER")))))
      ensures service.Valid() ==>
        (s.Reply? <==> exists j :: 0 <= j < |service.users| && service.users[j].email == dto.email &&
                          Compare(dto.password, service.users[j].password) && !service.users[j].deleted)
    {
      var found := service.ValidateUser(dto.email, dto.password);
      match found
      case Err(e) => Answer(Err(e))
      case Ok(u) =>
        if u.deleted then Answer(Err(HttpErr(HttpError(403, "User removed", Some("LOGIN USER")))))
        else
          ValidatedIsTheHolder(dto.email, dto.password);
          Answer(Ok(TokenView(u)))
    }

    /** Under the collection's invariant the user `validateUser` returns is
        the one document holding the email. */
    lemma ValidatedIsTheHolder(email: string, password: string)
      requires service.ValidateUser(email, password).Ok?
      ensures service.Valid() ==>
        forall j :: 0 <= j < |service.users| && service.users[j].email == email ==>
          service.users[j] == service.ValidateUser(email, password).value
    {
      if service.Valid() {
        forall j | 0 <= j < |service.users| && service.users[j].email == email
          ensures service.users[j] == service.ValidateUser(email, password).value
        {
          UniqueEmailFound(service.users, j);
        }
      }
    }

    /** `updateUser`: a request without `authUser` fails while destructuring
        it; otherwise the name and phone of the user the token's `_id` names
        are replaced and a fresh token is sent. */
    method UpdateUser(req: Request, dto: UpdateDto) returns (s: Step)
      requires service.Valid()
      modifies service
      ensures service.Valid()
      ensures req.authUser.None? ==> s == Answer(Err(DestructureOfUndefined("_id", "req.authUser"))) && service.users == old(service.users)
      ensures s.Reply? || (s.Forward? && s.err.HttpErr?)
      ensures s.Reply? ==>
        req.authUser.Some? &&
        exists i :: 0 <= i < |service.users| && Some(service.users[i].id) == req.authUser.value.id &&
          service.users[i].name == dto.name && service.users[i].phone == Some(dto.phone) &&
          s == Answer(Ok(TokenView(service.users[i]))) &&
          OthersUnchanged(old(service.users), service.users, i)
      ensures s.Forward? ==> service.users == old(service.users)
    {
      if req.authUser.None? {
        return Answer(Err(DestructureOfUndefined("_id", "req.authUser")));
      }
      var id := req.authUser.value.id;
      var updated := service.UpdateUser(id, Some(dto.name), Some(dto.phone));
      match updated
      case Err(e) =>
        s := Answer(Err(e));
      case Ok(u) =>
        s := Answer(Ok(TokenView(u)));
    }

    /** `updatePassword`: for the user the token's `_id` names, the current
        password must match; afterwards the new password logs in. */
    method UpdatePassword(req: Request, dto: UpdatePasswordDto) returns (s: Step)
      requires service.Valid()
      modifies service
      ensures service.Valid()
      ensures req.authUser.None? ==> s == Answer(Err(DestructureOfUndefined("_id", "req.authUser"))) && service.users == old(service.users)
      ensures s.Reply? || (s.Forward? && s.err.HttpErr?)
      ensures s.Reply? ==>
        req.authUser.Some? &&
        exists i :: 0 <= i < |service.users| && Some(service.users[i].id) == req.authUser.value.id &&
          service.ValidateUser(service.users[i].email, dto.newPassword) == Ok(service.users[i]) &&
          s == Answer(Ok(TokenView(service.users[i]))) &&
          OthersUnchanged(old(service.users), service.users, i)
      ensures s.Forward? ==> service.users == old(service.users)
    {
      if req.authUser.None? {
        return Answer(Err(DestructureOfUndefined("_id", "req.authUser")));
      }
      var id := req.authUser.value.id;
      var updated := service.UpdatePassword(id, dto.password, dto.newPassword);
      match updated
      case Err(e) =>
        s := Answer(Err(e));
      case Ok(u) =>
        s := Answer(Ok(TokenView(u)));
    }

    /** `forgotPassword`: answers with `{ resetUrl }` for a known email. */
    function ForgotPassword(dto: ForgotPasswordDto): (s: Step)
      reads service
      ensures s.Reply? <==> exists j :: 0 <= j < |service.users| && service.users[j].email == dto.email
      ensures !s.Reply? ==> s == Answer(Err(NotFound("FORGOT PASSWORD")))
      ensures s.Reply? ==> s == Answer(Ok(JObj([("resetUrl", JStr(service.ForgotPassword(dto.email).value))])))
    {
      match service.ForgotPassword(dto.email)
      case Err(e) => Answer(Err(e))
      case Ok(url) => Answer(Ok(JObj([("resetUrl", JStr(url))])))
    }

    /** `resetPassword`: answers with the `_id` whose password was set; that
        password then logs in. */
    method ResetPassword(dto: ResetPasswordDto) returns (s: Step)
      requires service.Valid()
      modifies service
      ensures service.Valid()
      ensures s.Reply? || (s.Forward? && s.err.HttpErr?)
      ensures s.Reply? ==>
        exists j :: 0 <= j < |service.users| && s == Answer(Ok(JObj([("_id", JStr(service.users[j].id))]))) &&
          service.ValidateUser(service.users[j].email, dto.password) == Ok(service.users[j]) &&
          OthersUnchanged(old(service.users), service.users, j)
      ensures s.Forward? ==> service.users == old(service.users)
    {
      var reset := service.ResetPassword(dto.token, dto.password);
      match reset
      case Err(e) =>
        s := Answer(Err(e));
      case Ok(id) =>
        s := Answer(Ok(JObj([("_id", JStr(id))])));
    }

    /** `currentUser`: the profile of the user holding `authUser.email`. Behind
        the auth guard the email is present, so the answer is that user's
        profile whenever the account still exists. */
    function CurrentUser(authUser: Option<RequestUser>): (s: Step)
      reads service
      ensures authUser.None? ==> s == Answer(Err(ReadOfUndefined("email")))
      ensures s.Reply? || (s.Forward? && s.err.HttpErr?)
      ensures AuthGuard.Authenticated(authUser) ==>
        (s.Reply? <==> exists j :: 0 <= j < |service.users| && service.users[j].email == authUser.value.email.value)
      ensures s.Reply? ==>
        authUser.Some? &&
        exists j :: 0 <= j < |service.users| && s == Answer(Ok(ProfileView(service.users[j]))) &&
          (authUser.value.email.Some? ==> service.users[j].email == authUser.value.email.value)
    {
      match authUser
      case None => Answer(Err(ReadOfUndefined("email")))
      case Some(a) =>
        match service.GetCurrentUser(a.email)
        case Err(e) => Answer(Err(e))
        case Ok(u) => Answer(Ok(ProfileView(u)))
    }

    /** `googleAuthCallback`: redirects to `<FRONTEND_URL>/auto-login?token=`
        with a session token for the user the strategy produced. When the
        strategy failed, the `HTTPError` is thrown inside passport's callback,
        outside `handleRequest`, and no answer is written. */
    function GoogleAuthCallback(verified: Result<User, Thrown>): (s: Step)
      ensures verified.Err? <==> s == Stall
      ensures verified.Ok? ==>
        s == Reply(Response(302, "text/plain", RedirectTo(
               Template(ConfigGet(service.config, "FRONTEND_URL")) + "/auto-login?token=" + Token(verified.value))))
    {
      match verified
      case Err(_) => Stall
      case Ok(u) =>
        Reply(Response(302, "text/plain", RedirectTo(
          Template(ConfigGet(service.config, "FRONTEND_URL")) + "/auto-login?token=" + Token(u))))
    }
  }

  // ---- tokens across routes --------------------------------------------

  /** A session token the server handed out (by register, login, the profile
      updates or the Google redirect) authenticates its owner on `/me`, which
      answers with that owner's profile. */
  lemma SessionReachesProfile(c: UserController, i: nat, scheme: string, prior: Option<RequestUser>)
    requires c.service.Valid() && i < |c.service.users|
    requires AuthMiddleware.VerifiesOwnTokens(c.service.sign, c.service.verify, c.service.Secret())
    requires ' ' !in scheme && ' ' !in c.Token(c.service.users[i])
    ensures var u := c.service.users[i];
      var o := AuthMiddleware.Authenticate(Some(scheme + " " + c.Token(u)), c.service.Secret(), c.service.verify, prior);
      AuthGuard.Exec(o.authUser) == Continue && c.CurrentUser(o.authUser) == Answer(Ok(ProfileView(u)))
  {
    var u := c.service.users[i];
    AuthMiddleware.SignedTokenAuthenticates(c.service.sign, c.service.verify, c.service.Secret(),
      Claims(Some(u.email), Some(RoleName(u.role)), Some(u.id)), None, scheme, prior);
    UniqueEmailFound(c.service.users, i);
  }

  /** The password-reset token is itself a bearer token: it authenticates as
      `{ _id }` with no email, which the auth guard refuses, but it carries
      exactly the `_id` the unguarded profile updates act on. */
  lemma ResetTokenIsBearer(c: UserController, id: string, scheme: string, prior: Option<RequestUser>)
    requires AuthMiddleware.VerifiesOwnTokens(c.service.sign, c.service.verify, c.service.Secret())
    requires ' ' !in scheme && ' ' !in c.service.ResetToken(id)
    ensures var o := AuthMiddleware.Authenticate(Some(scheme + " " + c.service.ResetToken(id)), c.service.Secret(), c.service.verify, prior);
      o.authUser == Some(RequestUser(None, None, Some(id))) && AuthGuard.Exec(o.authUser) != Continue
  {
    AuthMiddleware.SignedTokenAuthenticates(c.service.sign, c.service.verify, c.service.Secret(),
      Claims(None, None, Some(id)), Some("1h"), scheme, prior);
  }

  /** A token `signJWT` issues verifies with the same secret to the claims
      `{ email, role, _id }` it was given. */
  lemma SignJWTVerifies(service: UserService, email: string, role: Role, id: string, secret: Option<string>)
    requires AuthMiddleware.VerifiesOwnTokens(service.sign, service.verify, secret)
    ensures service.verify(Some(service.SignJWT(email, role, id, secret)), secret)
         == Verified(ObjectPayload(Claims(Some(email), Some(RoleName(role)), Some(id))))
  {
  }

  /** Conversely, a session token (which never expires) passes the reset
      route's token check and names its owner's `_id`. */
  lemma SessionTokenResetsPassword(c: UserController, u: User)
    requires AuthMiddleware.VerifiesOwnTokens(c.service.sign, c.service.verify, c.service.Secret())
    ensures var v := c.service.verify(Some(c.Token(u)), c.service.Secret());
      v.Verified? && UserService.DecodedId(v.decoded) == Some(u.id)
  {
    assert c.Token(u) == c.service.sign(Claims(Some(u.email), Some(RoleName(u.role)), Some(u.id)), c.service.Secret(), None);
  }
}
