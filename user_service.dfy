/** `UserService`: the account operations over the `users` collection. The
    collection is kept in natural order, which is the order `findOne` scans. */
module UserService {
  import opened Wrappers
  import opened Http
  import opened JsString
  import opened UserSchema
  import opened Dto

  // ---- queries ----------------------------------------------------------

  /** A `findOne` filter. Mongoose drops an `undefined` value from a filter,
      so `ByEmail(None)` is the empty filter and matches every document. */
  datatype Filter = ByEmail(email: Option<string>) | ByPhone(phone: string) | ById(id: string)

  predicate Matches(f: Filter, u: User) {
    match f
    case ByEmail(None) => true
    case ByEmail(Some(e)) => u.email == e
    case ByPhone(p) => u.phone == Some(p)
    case ById(id) => u.id == id
  }

  /** `UserModel.findOne(filter)`: the position of the first matching document. */
  function FindFirst(users: seq<User>, f: Filter): (i: Option<nat>)
    ensures i.None? <==> forall j :: 0 <= j < |users| ==> !Matches(f, users[j])
    ensures i.Some? ==> i.value < |users| && Matches(f, users[i.value]) &&
                        forall j :: 0 <= j < i.value ==> !Matches(f, users[j])
    decreases |users|
  {
    if users == [] then None
    else if Matches(f, users[0]) then Some(0)
    else
      match FindFirst(users[1..], f)
      case None => None
      case Some(k) => Some(k + 1)
  }

  /** `UserModel.findById(id)`: `findById(undefined)` finds nothing. */
  function FindById(users: seq<User>, id: Option<string>): (i: Option<nat>)
    ensures i.Some? ==> id.Some? && i.value < |users| && users[i.value].id == id.value
    ensures id.Some? && (exists j :: 0 <= j < |users| && users[j].id == id.value) ==> i.Some?
  {
    match id
    case None => None
    case Some(x) => FindFirst(users, ById(x))
  }

  /** The collection's invariant: the schema holds for every document, and
      `_id` and the `unique` email index admit no duplicates. */
  predicate ValidUsers(users: seq<User>) {
    (forall i :: 0 <= i < |users| ==> SchemaValid(users[i])) &&
    (forall i, j :: 0 <= i < j < |users| ==> users[i].id != users[j].id && users[i].email != users[j].email)
  }

  /** With unique emails, the document an email finds is the one holding it. */
  lemma {:induction false} UniqueEmailFound(users: seq<User>, i: nat)
    requires ValidUsers(users) && i < |users|
    ensures FindFirst(users, ByEmail(Some(users[i].email))) == Some(i)
  {
    var r := FindFirst(users, ByEmail(Some(users[i].email)));
    assert Matches(ByEmail(Some(users[i].email)), users[i]);
  }

  /** With unique ids, the document an id finds is the one holding it. */
  lemma {:induction false} UniqueIdFound(users: seq<User>, i: nat)
    requires ValidUsers(users) && i < |users|
    ensures FindById(users, Some(users[i].id)) == Some(i)
  {
    var r := FindFirst(users, ById(users[i].id));
    assert Matches(ById(users[i].id), users[i]);
  }

  /** A document appended after every earlier one is found only when no earlier
      one matches. */
  lemma {:induction false} FindFirstAppend(users: seq<User>, u: User, f: Filter)
    ensures FindFirst(users + [u], f)
         == match FindFirst(users, f) case Some(i) => Some(i) case None => if Matches(f, u) then Some(|users|) else None
  {
    var s := users + [u];
    assert forall j :: 0 <= j < |users| ==> s[j] == users[j];
    assert s[|users|] == u;
  }

  /** Replacing a document by one that matches the same filters the same way
      leaves every lookup where it was. */
  lemma {:induction false} FindFirstReplace(users: seq<User>, i: nat, u: User, f: Filter)
    requires i < |users| && Matches(f, u) == Matches(f, users[i])
    ensures FindFirst(users[i := u], f) == FindFirst(users, f)
  {
    if i == 0 {
      assert users[i := u][1..] == users[1..];
    } else {
      assert users[i := u][1..] == users[1..][i - 1 := u];
      FindFirstReplace(users[1..], i - 1, u, f);
    }
  }

  /** Two collections of the same length that differ at most at index `i`. */
  predicate OthersUnchanged(before: seq<User>, after: seq<User>, i: nat) {
    |after| == |before| && forall k :: 0 <= k < |before| && k != i ==> after[k] == before[k]
  }

  /** Appending a valid document with a fresh id and a fresh email keeps the invariant. */
  lemma AppendKeepsValid(users: seq<User>, u: User)
    requires ValidUsers(users) && SchemaValid(u)
    requires forall j :: 0 <= j < |users| ==> users[j].id != u.id && users[j].email != u.email
    ensures ValidUsers(users + [u])
  {
    var s := users + [u];
    assert forall j :: 0 <= j < |users| ==> s[j] == users[j];
  }

  /** Replacing a document by a valid one with the same id and email keeps the invariant. */
  lemma ReplaceKeepsValid(users: seq<User>, i: nat, u: User)
    requires ValidUsers(users) && i < |users| && SchemaValid(u)
    requires u.id == users[i].id && u.email == users[i].email
    ensures ValidUsers(users[i := u])
  {
  }

  // ---- writes -----------------------------------------------------------

  /** The error of a write rejected by the `_id` or the `unique: true` email index. */
  const DuplicateKey: Thrown := OtherErr("MongoServerError", "E11000 duplicate key error")

  /** `UserModel.create(fields)` with `_id` `newId` (the `shortid` the default
      would generate): schema validation, then the unique indexes. */
  function Inserted(users: seq<User>, newId: string, f: NewUser): (r: Result<User, Thrown>)
    ensures r.Ok? ==> NewRecord(newId, f) == Ok(r.value)
    ensures r.Ok? ==> forall j :: 0 <= j < |users| ==> users[j].id != newId && users[j].email != r.value.email
    ensures NewRecord(newId, f).Err? ==> r == NewRecord(newId, f)
  {
    match NewRecord(newId, f)
    case Err(e) => Err(e)
    case Ok(u) =>
      if FindFirst(users, ById(newId)).Some? || FindFirst(users, ByEmail(Some(u.email))).Some? then Err(DuplicateKey)
      else
        assert forall j :: 0 <= j < |users| ==> !Matches(ById(newId), users[j]) && !Matches(ByEmail(Some(u.email)), users[j]);
        Ok(u)
  }

  /** A successful `create` keeps the collection's invariant. */
  lemma InsertedKeepsValid(users: seq<User>, newId: string, f: NewUser)
    requires ValidUsers(users) && Inserted(users, newId, f).Ok?
    ensures ValidUsers(users + [Inserted(users, newId, f).value])
  {
    AppendKeepsValid(users, Inserted(users, newId, f).value);
  }

  /** `new HTTPError(404, 'User not found', context)`. */
  function NotFound(context: string): Thrown {
    HttpErr(HttpError(404, "User not found", Some(context)))
  }

  const ExistingEmail: Thrown := HttpErr(HttpError(400, "Existing email", None))
  const ExistingPhone: Thrown := HttpErr(HttpError(400, "Existing phone", None))

  /** The fields `createUser` hands to `create` for a registration. */
  function RegisterFields(dto: RegisterDto, rounds: Option<int>): NewUser {
    NewUser(Some(dto.email), Some(dto.name), Some(dto.phone), dto.provider, Hash(dto.password, rounds))
  }

  /** The fields the Google strategy hands to `create` for a first login. */
  function GoogleFields(email: Option<string>, displayName: Option<string>, profileId: string, rounds: Option<int>): NewUser {
    NewUser(email, displayName, None, Some("google"), Hash(profileId, rounds))
  }

  /** `new UserService(configService)` over the collection's documents; `sign`
      and `verify` are `jsonwebtoken`'s. */
  class UserService {
    var users: seq<User>
    const config: Config
    const sign: SignFn
    const verify: VerifyFn

    predicate Valid()
      reads this
    {
      ValidUsers(users)
    }

    constructor(config: Config, sign: SignFn, verify: VerifyFn, users: seq<User>)
      requires ValidUsers(users)
      ensures Valid() && this.users == users
      ensures this.config == config && this.sign == sign && this.verify == verify
    {
      this.config := config;
      this.sign := sign;
      this.verify := verify;
      this.users := users;
    }

    /** `+configService.get('SALT')`: `None` when the value is not a number. */
    function Salt(): Option<int> {
      ToNumber(ConfigGet(config, "SALT"))
    }

    function Secret(): Option<string> {
      ConfigGet(config, "SECRET")
    }

    /** `create` and the write it performs. */
    method Create(f: NewUser, newId: string) returns (r: Result<User, Thrown>)
      requires Valid()
      modifies this
      ensures Valid()
      ensures r == Inserted(old(users), newId, f)
      ensures users == if r.Ok? then old(users) + [r.value] else old(users)
    {
      r := Inserted(users, newId, f);
      if r.Ok? {
        InsertedKeepsValid(users, newId, f);
        users := users + [r.value];
      }
    }

    /** `user.save()` of the `i`th document after it was modified in memory. */
    method Save(i: nat, u: User) returns (r: Result<User, Thrown>)
      requires Valid() && i < |users| && u.id == users[i].id && u.email == users[i].email
      modifies this
      ensures Valid()
      ensures r == Revalidate(u)
      ensures users == if r.Ok? then old(users)[i := u] else old(users)
    {
      r := Revalidate(u);
      if r.Ok? {
        ReplaceKeepsValid(users, i, u);
        users := users[i := u];
      }
    }

    /** `createUser(dto)`: refuses an email or a phone already in use, then
        creates the user with the password hashed at cost `+SALT`. A new
        account logs in with the password it registered with. */
    method CreateUser(dto: RegisterDto, newId: string) returns (r: Result<User, Thrown>)
      requires Valid()
      modifies this
      ensures Valid()
      ensures FindFirst(old(users), ByEmail(Some(dto.email))).Some? ==> r == Err(ExistingEmail) && users == old(users)
      ensures FindFirst(old(users), ByEmail(Some(dto.email))).None? && FindFirst(old(users), ByPhone(dto.phone)).Some? ==>
                r == Err(ExistingPhone) && users == old(users)
      ensures FindFirst(old(users), ByEmail(Some(dto.email))).None? && FindFirst(old(users), ByPhone(dto.phone)).None? ==>
                r == Inserted(old(users), newId, RegisterFields(dto, Salt())) &&
                users == if r.Ok? then old(users) + [r.value] else old(users)
      ensures r.Ok? ==> r.value.role == USER && ValidateUser(dto.email, dto.password) == Ok(r.value)
    {
      var byEmail := FindFirst(users, ByEmail(Some(dto.email)));
      var byPhone := FindFirst(users, ByPhone(dto.phone));
      if byEmail.Some? {
        return Err(ExistingEmail);
      }
      if byPhone.Some? {
        return Err(ExistingPhone);
      }
      ghost var before := users;
      r := Create(RegisterFields(dto, Salt()), newId);
      if r.Ok? {
        FindFirstAppend(before, r.value, ByEmail(Some(dto.email)));
      }
    }

    /** `updateUser(id, { name, phone })`: a truthy phone already held by any
        document (the caller's own included) is refused; otherwise the name
        and phone given replace the stored ones and the document is saved. */
    method UpdateUser(id: Option<string>, name: Option<string>, phone: Option<string>) returns (r: Result<User, Thrown>)
      requires Valid()
      modifies this
      ensures Valid()
      ensures FindById(old(users), id).None? ==> r == Err(NotFound("UPDATE USER")) && users == old(users)
      ensures FindById(old(users), id).Some? ==>
        var i := FindById(old(users), id).value;
        var u := old(users)[i];
        var updated := u.(name := name.GetOr(u.name), phone := if phone.Some? then phone else u.phone);
        if phone.Some? && phone.value != "" && FindFirst(old(users), ByPhone(phone.value)).Some? then
          r == Err(HttpErr(HttpError(400, "Existing phone", Some("UPDATE USER")))) && users == old(users)
        else
          r == Revalidate(updated) && users == if r.Ok? then old(users)[i := updated] else old(users)
      // the caller's own current phone counts as taken
      ensures (FindById(old(users), id).Some? && phone.Some? && phone.value != "" &&
               old(users)[FindById(old(users), id).value].phone == phone) ==> r.Err?
      ensures r.Ok? ==> id == Some(r.value.id)
      ensures |users| == |old(users)| &&
              forall j :: 0 <= j < |users| ==> users[j].email == old(users)[j].email && users[j].password == old(users)[j].password
    {
      var found := FindById(users, id);
      if found.None? {
        return Err(NotFound("UPDATE USER"));
      }
      var i := found.value;
      if phone.Some? && phone.value != "" {
        var byPhone := FindFirst(users, ByPhone(phone.value));
        if byPhone.Some? {
          return Err(HttpErr(HttpError(400, "Existing phone", Some("UPDATE USER"))));
        }
      }
      var u := users[i];
      u := u.(name := name.GetOr(u.name), phone := if phone.Some? then phone else u.phone);
      r := Save(i, u);
    }

    /** `updatePassword(id, { password, newPassword })`: the current password
        must match; the new one is hashed at cost `+SALT` and saved. Afterwards
        the new password logs in and, unless they are equal, the old one no
        longer does. */
    method UpdatePassword(id: Option<string>, password: string, newPassword: string) returns (r: Result<User, Thrown>)
      requires Valid()
      modifies this
      ensures Valid()
      ensures FindById(old(users), id).None? ==> r == Err(NotFound("UPDATE PASSWORD")) && users == old(users)
      ensures FindById(old(users), id).Some? ==>
        var i := FindById(old(users), id).value;
        var u := old(users)[i];
        if !Compare(password, u.password) then
          r == Err(HttpErr(HttpError(400, "Incorrect password", Some("UPDATE PASSWORD")))) && users == old(users)
        else
          r == Ok(u.(password := Hash(newPassword, Salt()))) && users == old(users)[i := r.value]
      ensures r.Ok? ==> id == Some(r.value.id) && ValidateUser(r.value.email, newPassword) == Ok(r.value)
      ensures r.Ok? && password != newPassword ==> ValidateUser(r.value.email, password).Err?
    {
      var found := FindById(users, id);
      if found.None? {
        return Err(NotFound("UPDATE PASSWORD"));
      }
      var i := found.value;
      var u := users[i];
      if !Compare(password, u.password) {
        return Err(HttpErr(HttpError(400, "Incorrect password", Some("UPDATE PASSWORD"))));
      }
      u := u.(password := Hash(newPassword, Salt()));
      r := Save(i, u);
      UniqueEmailFound(users, i);
    }

    /** `signJWT(email, role, id, secret)`: an HS256 token with claims
        `{ email, role, _id }` and no expiry. */
    function SignJWT(email: string, role: Role, id: string, secret: Option<string>): (token: string)
    {
      sign(Claims(Some(email), Some(RoleName(role)), Some(id)), secret, None)
    }

    /** `validateUser({ email, password })`: the user holding the email, when
        the password matches its hash. A soft-deleted user still passes here. */
    function ValidateUser(email: string, password: string): (r: Result<User, Thrown>)
      reads this
      ensures r == Err(NotFound("VALIDATE USER")) <==> forall j :: 0 <= j < |users| ==> users[j].email != email
      ensures r.Ok? ==> r.value in users && r.value.email == email && Compare(password, r.value.password)
      ensures r.Err? ==> r.error == NotFound("VALIDATE USER") ||
                         r.error == HttpErr(HttpError(401, "Email or password is incorrect", Some("VALIDATE USER")))
      ensures Valid() ==>
        (r.Ok? <==> exists j :: 0 <= j < |users| && users[j].email == email && Compare(password, users[j].password))
    {
      match FindFirst(users, ByEmail(Some(email)))
      case None => Err(NotFound("VALIDATE USER"))
      case Some(i) =>
        if !Compare(password, users[i].password) then
          Err(HttpErr(HttpError(401, "Email or password is incorrect", Some("VALIDATE USER"))))
        else
          Ok(users[i])
    }

    /** `getCurrentUser(email)`: the user holding the email; an `undefined`
        email finds the first document. */
    function GetCurrentUser(email: Option<string>): (r: Result<User, Thrown>)
      reads this
      ensures r.Ok? <==> exists j :: 0 <= j < |users| && Matches(ByEmail(email), users[j])
      ensures r.Ok? ==> r.value in users && (email.Some? ==> r.value.email == email.value)
      ensures r.Err? ==> r.error == NotFound("VALIDATE USER")
    {
      match FindFirst(users, ByEmail(email))
      case None => Err(NotFound("VALIDATE USER"))
      case Some(i) => Ok(users[i])
    }

    /** The reset token `forgotPassword` issues: `{ _id }`, valid for an hour. */
    function ResetToken(id: string): string {
      sign(Claims(None, None, Some(id)), Secret(), Some("1h"))
    }

    /** `forgotPassword({ email })`: the front end's URL with the query
        `?resetPassword=open&token=<reset token>` for the user holding the
        email. */
    function ForgotPassword(email: string): (r: Result<string, Thrown>)
      reads this
      ensures r.Ok? <==> exists j :: 0 <= j < |users| && users[j].email == email
      ensures r.Err? ==> r.error == NotFound("FORGOT PASSWORD")
      ensures r.Ok? ==> exists j :: 0 <= j < |users| && users[j].email == email &&
                          r.value == Template(ConfigGet(config, "FRONTEND_URL")) + "?resetPassword=open&token=" + ResetToken(users[j].id)
    {
      match FindFirst(users, ByEmail(Some(email)))
      case None => Err(NotFound("FORGOT PASSWORD"))
      case Some(i) =>
        Ok(Template(ConfigGet(config, "FRONTEND_URL")) + "?resetPassword=open&token=" + ResetToken(users[i].id))
    }

    /** The `_id` a verified token names: an object payload's `_id` claim;
        `._id` of a string payload is `undefined`. */
    static function DecodedId(d: Decoded): Option<string> {
      match d
      case ObjectPayload(c) => c.id
      case OtherPayload => None
    }

    /** `resetPassword({ token, password })`: any token that verifies with the
        secret and names an existing `_id` sets that user's password (hashed at
        cost 10) and returns the `_id`; the new password then logs in. */
    method ResetPassword(token: string, password: string) returns (r: Result<string, Thrown>)
      requires Valid()
      modifies this
      ensures Valid()
      ensures verify(Some(token), Secret()).VerifyFailed? ==>
        r == Err(HttpErr(HttpError(422, "Incorrect or expired token", Some("RESET PASSWORD")))) && users == old(users)
      ensures verify(Some(token), Secret()).Verified? ==>
        var found := FindById(old(users), DecodedId(verify(Some(token), Secret()).decoded));
        if found.None? then r == Err(NotFound("RESET PASSWORD")) && users == old(users)
        else
          var u := old(users)[found.value];
          r == Ok(u.id) && users == old(users)[found.value := u.(password := Hash(password, Some(10)))]
      ensures r.Ok? ==> exists j :: 0 <= j < |users| && users[j].id == r.value && ValidateUser(users[j].email, password) == Ok(users[j])
    {
      var result := verify(Some(token), Secret());
      if result.VerifyFailed? {
        return Err(HttpErr(HttpError(422, "Incorrect or expired token", Some("RESET PASSWORD"))));
      }
      var found := FindById(users, DecodedId(result.decoded));
      if found.None? {
        return Err(NotFound("RESET PASSWORD"));
      }
      var i := found.value;
      var u := users[i];
      u := u.(password := Hash(password, Some(10)));
      var saved := Save(i, u);
      UniqueEmailFound(users, i);
      r := Ok(u.id);
    }

    /** The Google strategy's verify callback: the user holding the profile's
        first email, or else a new `google` user named after the profile with
        its id hashed as password. With no email on the profile the filter
        is empty and the first document of the collection is returned. */
    method GoogleCallback(email: Option<string>, displayName: Option<string>, profileId: string, newId: string)
      returns (r: Result<User, Thrown>)
      requires Valid()
      modifies this
      ensures Valid()
      ensures FindFirst(old(users), ByEmail(email)).Some? ==>
        r == Ok(old(users)[FindFirst(old(users), ByEmail(email)).value]) && users == old(users)
      ensures FindFirst(old(users), ByEmail(email)).None? ==>
        r == Inserted(old(users), newId, GoogleFields(email, displayName, profileId, Salt())) &&
        users == if r.Ok? then old(users) + [r.value] else old(users)
      ensures email.None? && |old(users)| > 0 ==> r == Ok(old(users)[0])
      ensures r.Ok? && FindFirst(old(users), ByEmail(email)).None? ==> r.value.provider == GoogleProvider
    {
      var found := FindFirst(users, ByEmail(email));
      if found.Some? {
        return Ok(users[found.value]);
      }
      r := Create(GoogleFields(email, displayName, profileId, Salt()), newId);
    }

    /** `googleLogin(dto)`: the user holding `dto.email`; an `undefined` email
        finds the first document. */
    function GoogleLogin(email: Option<string>): (r: Result<User, Thrown>)
      reads this
      ensures r.Ok? <==> exists j :: 0 <= j < |users| && Matches(ByEmail(email), users[j])
      ensures r.Ok? ==> r.value in users && (email.Some? ==> r.value.email == email.value)
      ensures r.Err? ==> r.error == NotFound("GOOGLE LOGIN")
    {
      match FindFirst(users, ByEmail(email))
      case None => Err(NotFound("GOOGLE LOGIN"))
      case Some(i) => Ok(users[i])
    }
  }
}
