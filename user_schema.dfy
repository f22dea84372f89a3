/** The `User` Mongoose model: the stored record, its defaults, and the schema
    validation `create` and `save` run before writing. */
module UserSchema {
  import opened Wrappers
  import opened Http

  /** `UserRole`. */
  datatype Role = ADMIN | USER | MODERATOR

  /** The string each role is stored and signed as. */
  function RoleName(r: Role): string {
    match r
    case ADMIN => "ADMIN"
    case USER => "USER"
    case MODERATOR => "MODERATOR"
  }

  /** The role schema's `enum` check: a string is a role exactly when it is
      one of the three names. */
  function ParseRole(s: string): (r: Option<Role>)
    ensures r.Some? ==> RoleName(r.value) == s
  {
    if s == "ADMIN" then Some(ADMIN)
    else if s == "USER" then Some(USER)
    else if s == "MODERATOR" then Some(MODERATOR)
    else None
  }

  /** Every role's name parses back to it, so distinct roles have distinct names. */
  lemma RoleNameRoundTrip(r: Role, q: Role)
    ensures ParseRole(RoleName(r)) == Some(r)
    ensures RoleName(r) == RoleName(q) ==> r == q
  {
    match r
    case ADMIN =>
    case USER =>
    case MODERATOR =>
  }

  /** `provider: 'email' | 'google'`. */
  datatype Provider = EmailProvider | GoogleProvider

  function ProviderName(p: Provider): string {
    match p
    case EmailProvider => "email"
    case GoogleProvider => "google"
  }

  /** The provider schema's `enum: ['email', 'google']`. */
  function ParseProvider(s: string): (p: Option<Provider>)
    ensures p.Some? ==> ProviderName(p.value) == s
  {
    if s == "email" then Some(EmailProvider)
    else if s == "google" then Some(GoogleProvider)
    else None
  }

  lemma ProviderNameRoundTrip(p: Provider)
    ensures ParseProvider(ProviderName(p)) == Some(p)
  {
    match p
    case EmailProvider =>
    case GoogleProvider =>
  }

  /** A bcrypt hash, kept symbolically: which password it was made from and the
      cost it was given (`+SALT`, which is not a number when `SALT` is unset). */
  datatype PasswordHash = Bcrypt(input: string, rounds: Option<int>)

  /** `hash(password, rounds)`. */
  function Hash(password: string, rounds: Option<int>): PasswordHash {
    Bcrypt(password, rounds)
  }

  /** `compare(password, hash)`: true exactly for the password the hash was made from. */
  predicate Compare(password: string, h: PasswordHash) {
    h.input == password
  }

  /** A hash accepts the password it was made from and no other, whatever its cost. */
  lemma HashCompare(password: string, attempt: string, rounds: Option<int>)
    ensures Compare(attempt, Hash(password, rounds)) <==> attempt == password
  {
  }

  /** A stored user document. `phone` is absent for users created through Google. */
  datatype User = User(
    id: string,
    email: string,
    password: PasswordHash,
    name: string,
    role: Role,
    phone: Option<string>,
    deleted: bool,
    phoneConfirmed: bool,
    provider: Provider)

  /** The fields handed to `UserModel.create`; any of them may be `undefined`. */
  datatype NewUser = NewUser(
    email: Option<string>,
    name: Option<string>,
    phone: Option<string>,
    provider: Option<string>,
    password: PasswordHash)

  /** `required: true` on a `String` path: present and not the empty string. */
  predicate RequiredString(v: Option<string>) {
    v.Some? && v.value != ""
  }

  /** The per-path messages of the schema's validators, in path order
      (`email`, `name`, `provider`; `password` is always a non-empty hash). */
  function PathErrors(email: Option<string>, name: Option<string>, provider: Option<string>): (ms: seq<string>)
    ensures ms == [] <==>
      RequiredString(email) && RequiredString(name) && (provider.None? || ParseProvider(provider.value).Some?)
  {
    (if RequiredString(email) then [] else ["email: Path `email` is required."])
    + (if RequiredString(name) then [] else ["name: Path `name` is required."])
    + (if provider.None? || ParseProvider(provider.value).Some? then []
       else ["provider: `" + provider.value + "` is not a valid enum value for path `provider`."])
  }

  /** `xs.join(', ')`. */
  function JoinComma(ms: seq<string>): string
    decreases |ms|
  {
    if |ms| == 0 then ""
    else if |ms| == 1 then ms[0]
    else ms[0] + ", " + JoinComma(ms[1..])
  }

  /** The Mongoose `ValidationError` for the failing paths. */
  function ValidationFailure(ms: seq<string>): Thrown {
    OtherErr("ValidationError", "User validation failed: " + JoinComma(ms))
  }

  /** What every stored document satisfies. */
  predicate SchemaValid(u: User) {
    u.email != "" && u.name != ""
  }

  /** `UserModel.create(fields)` before the write: the defaults are applied
      (`role` USER, `deleted` and `phoneConfirmed` false, `provider` 'email'),
      then the schema is checked. */
  function NewRecord(id: string, f: NewUser): (r: Result<User, Thrown>)
    ensures r.Ok? <==> PathErrors(f.email, f.name, f.provider) == []
    ensures r.Err? ==> r.error == ValidationFailure(PathErrors(f.email, f.name, f.provider))
    ensures r.Ok? ==>
      SchemaValid(r.value) &&
      r.value.id == id && Some(r.value.email) == f.email && Some(r.value.name) == f.name &&
      r.value.phone == f.phone && r.value.password == f.password &&
      r.value.role == USER && !r.value.deleted && !r.value.phoneConfirmed &&
      ProviderName(r.value.provider) == f.provider.GetOr("email")
  {
    var ms := PathErrors(f.email, f.name, f.provider);
    if ms != [] then Err(ValidationFailure(ms))
    else
      var provider := if f.provider.None? then EmailProvider else ParseProvider(f.provider.value).value;
      Ok(User(id, f.email.value, f.password, f.name.value, USER, f.phone, false, false, provider))
  }

  /** `user.save()` re-runs the schema's validators on the modified document. */
  function Revalidate(u: User): (r: Result<User, Thrown>)
    ensures r.Ok? <==> SchemaValid(u)
    ensures r.Ok? ==> r.value == u
    ensures r.Err? ==> r.error.OtherErr? && r.error.name == "ValidationError"
  {
    var ms := PathErrors(Some(u.email), Some(u.name), Some(ProviderName(u.provider)));
    ProviderNameRoundTrip(u.provider);
    if ms == [] then Ok(u) else Err(ValidationFailure(ms))
  }

  /** A new record always starts as a plain, active user: no path through
      `create` makes an administrator. */
  lemma NewRecordIsPlainUser(id: string, f: NewUser)
    requires NewRecord(id, f).Ok?
    ensures NewRecord(id, f).value.role != ADMIN && NewRecord(id, f).value.role != MODERATOR
    ensures !NewRecord(id, f).value.deleted
  {
  }
}
