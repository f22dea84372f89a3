/** The request DTOs as declarative rule tables (the class-validator
    decorators), the validator that checks a JSON body against a table, and
    the typed DTO records the handlers receive once a body has passed. */
module Dto {
  import opened Wrappers
  import opened Json

  /** class-validator's `ValidationError`: the property, the messages of the
      violated constraints (`Object.values(constraints)`), and the nested
      errors; either of the last two may be `undefined`. */
  datatype ValidationError = ValidationError(
    property: string,
    constraints: Option<seq<string>>,
    children: Option<seq<ValidationError>>)

  /** One decorator with its message. */
  datatype Check =
    | IsEmail(message: string)
    | IsString(message: string)
    | MinLength(min: nat, message: string)
    | IsEnum(allowed: seq<string>, message: string)

  /** The decorators on one property; `optional` is `@IsOptional()`. */
  datatype PropertyRules = PropertyRules(property: string, optional: bool, checks: seq<Check>)

  type Schema = seq<PropertyRules>

  /** Whether one constraint holds of a property value (`None` is `undefined`).
      Every constraint used here demands a string first; `isEmail` is the
      e-mail syntax test of the validator library. */
  predicate Holds(c: Check, v: Option<Json>, isEmail: string -> bool) {
    v.Some? && v.value.JStr? &&
    match c
    case IsEmail(_) => isEmail(v.value.s)
    case IsString(_) => true
    case MinLength(n, _) => |v.value.s| >= n
    case IsEnum(allowed, _) => v.value.s in allowed
  }

  /** The messages of the violated constraints, in the order class-validator
      registered the decorators. TypeScript applies a property's decorators
      bottom-up, so a rule list names them from the lowest to the highest. */
  function Violations(checks: seq<Check>, v: Option<Json>, isEmail: string -> bool): (ms: seq<string>)
    ensures ms == [] <==> forall i :: 0 <= i < |checks| ==> Holds(checks[i], v, isEmail)
    ensures |ms| <= |checks|
  {
    if checks == [] then []
    else
      (if Holds(checks[0], v, isEmail) then [] else [checks[0].message])
      + Violations(checks[1..], v, isEmail)
  }

  /** `@IsOptional()` skips every other constraint for `null` or `undefined`. */
  predicate Skipped(r: PropertyRules, v: Option<Json>) {
    r.optional && (v.None? || v == Some(JNull))
  }

  /** The messages recorded for one property of the body. */
  function PropertyViolations(r: PropertyRules, body: Json, isEmail: string -> bool): seq<string> {
    var v := Field(body, r.property);
    if Skipped(r, v) then [] else Violations(r.checks, v, isEmail)
  }

  /** `validate(plainToInstance(Dto, body))`: one error per property with at
      least one violated constraint, in declaration order, each with an empty
      `children` list (these DTOs have no nested objects). */
  function Validate(schema: Schema, body: Json, isEmail: string -> bool): (errs: seq<ValidationError>)
    ensures |errs| <= |schema|
    ensures forall i :: 0 <= i < |errs| ==>
              errs[i].children == Some([]) && errs[i].constraints.Some? && errs[i].constraints.value != []
  {
    if schema == [] then []
    else
      var ms := PropertyViolations(schema[0], body, isEmail);
      (if ms == [] then [] else [ValidationError(schema[0].property, Some(ms), Some([]))])
        + Validate(schema[1..], body, isEmail)
  }

  /** A body passes exactly when no property has a violated constraint. */
  lemma {:induction false} ValidateEmpty(schema: Schema, body: Json, isEmail: string -> bool)
    ensures Validate(schema, body, isEmail) == []
      <==> forall i :: 0 <= i < |schema| ==> PropertyViolations(schema[i], body, isEmail) == []
  {
    if schema != [] {
      ValidateEmpty(schema[1..], body, isEmail);
      var ms := PropertyViolations(schema[0], body, isEmail);
      var rest := Validate(schema[1..], body, isEmail);
      assert Validate(schema, body, isEmail) == (if ms == [] then [] else [ValidationError(schema[0].property, Some(ms), Some([]))]) + rest;
      assert forall i :: 1 <= i < |schema| ==> schema[i] == schema[1..][i - 1];
    }
  }

  // ---- the rule tables -------------------------------------------------

  /** The DTO classes the routes validate against. */
  datatype DtoName =
    | UserRegister | UserLogin | UserUpdate | UserUpdatePassword
    | UserForgotPassword | UserResetPassword | UserGoogleLogin

  /** `UserRegisterDto`. Note that the provider enum admits 'google' and
      'basic', while the user schema admits 'email' and 'google'. */
  function RegisterSchema(): Schema {
    [ PropertyRules("email", false, [IsEmail("email")]),
      PropertyRules("phone", false, [IsString("phone")]),
      PropertyRules("password", false, [MinLength(6, "min length 6"), IsString("pass")]),
      PropertyRules("name", false, [IsString("ad")]),
      PropertyRules("provider", true, [IsEnum(["google", "basic"], "provider")]) ]
  }

  function LoginSchema(): Schema {
    [ PropertyRules("email", false, [IsEmail("email")]),
      PropertyRules("password", false, [IsString("password")]) ]
  }

  function UpdateSchema(): Schema {
    [ PropertyRules("name", false, [IsString("name")]),
      PropertyRules("phone", false, [IsString("phone")]) ]
  }

  function UpdatePasswordSchema(): Schema {
    [ PropertyRules("password", false, [IsString("password")]),
      PropertyRules("newPassword", false, [IsString("new password")]) ]
  }

  function ForgotPasswordSchema(): Schema {
    [ PropertyRules("email", false, [IsString("email")]) ]
  }

  function ResetPasswordSchema(): Schema {
    [ PropertyRules("password", false, [IsString("password")]),
      PropertyRules("token", false, [IsString("token")]) ]
  }

  function GoogleLoginSchema(): Schema {
    [ PropertyRules("email", false, [IsEmail("Email")]),
      PropertyRules("name", false, [IsString("Name")]),
      PropertyRules("googleId", false, [IsString("googleId")]) ]
  }

  function SchemaOf(d: DtoName): Schema {
    match d
    case UserRegister => RegisterSchema()
    case UserLogin => LoginSchema()
    case UserUpdate => UpdateSchema()
    case UserUpdatePassword => UpdatePasswordSchema()
    case UserForgotPassword => ForgotPasswordSchema()
    case UserResetPassword => ResetPasswordSchema()
    case UserGoogleLogin => GoogleLoginSchema()
  }

  // ---- the register rules, field by field -------------------------------

  /** What each register field contributes, written field by field from the
      decorators: e-mail syntax ('email'), a string phone ('phone'), a
      password of at least six characters ('min length 6', registered first)
      that is a string ('pass'), a string name ('ad'), and an optional
      provider that must be 'google' or 'basic' ('provider'). */
  function RegisterFieldMessages(property: string, v: Option<Json>, isEmail: string -> bool): seq<string> {
    var isStr := v.Some? && v.value.JStr?;
    if property == "email" then (if isStr && isEmail(v.value.s) then [] else ["email"])
    else if property == "phone" then (if isStr then [] else ["phone"])
    else if property == "password" then
      (if isStr && |v.value.s| >= 6 then [] else ["min length 6"]) + (if isStr then [] else ["pass"])
    else if property == "name" then (if isStr then [] else ["ad"])
    else if property == "provider" then
      (if v.None? || v == Some(JNull) || (isStr && v.value.s in ["google", "basic"]) then [] else ["provider"])
    else []
  }

  /** The register table records, for every field, exactly the messages the
      field-by-field reading gives. */
  lemma RegisterMessages(body: Json, isEmail: string -> bool, i: nat)
    requires i < |RegisterSchema()|
    ensures var r := RegisterSchema()[i];
      PropertyViolations(r, body, isEmail) == RegisterFieldMessages(r.property, Field(body, r.property), isEmail)
  {
    if i == 2 {
      RegisterPasswordMessages(Field(body, "password"), isEmail);
    }
  }

  /** The password's two rules, 'min length 6' first. */
  lemma RegisterPasswordMessages(v: Option<Json>, isEmail: string -> bool)
    ensures Violations(RegisterSchema()[2].checks, v, isEmail) == RegisterFieldMessages("password", v, isEmail)
  {
    var checks := [MinLength(6, "min length 6"), IsString("pass")];
    assert RegisterSchema()[2].checks == checks;
    assert checks[1..] == [IsString("pass")];
    assert checks[1..][1..] == [];
  }

  /** A password string shorter than six characters is reported under
      'password' with the single message 'min length 6'. */
  lemma RegisterShortPassword(body: Json, isEmail: string -> bool, pw: string)
    requires Field(body, "password") == Some(JStr(pw)) && |pw| < 6
    ensures PropertyViolations(RegisterSchema()[2], body, isEmail) == ["min length 6"]
  {
    RegisterMessages(body, isEmail, 2);
  }

  /** 'basic' passes the provider rule. */
  lemma RegisterAcceptsBasicProvider(body: Json, isEmail: string -> bool)
    requires Field(body, "provider") == Some(JStr("basic"))
    ensures PropertyViolations(RegisterSchema()[4], body, isEmail) == []
  {
    RegisterMessages(body, isEmail, 4);
  }

  // ---- typed DTOs -------------------------------------------------------

  datatype RegisterDto = RegisterDto(email: string, phone: string, password: string, name: string, provider: Option<string>)
  datatype LoginDto = LoginDto(email: string, password: string)
  datatype UpdateDto = UpdateDto(name: string, phone: string)
  datatype UpdatePasswordDto = UpdatePasswordDto(password: string, newPassword: string)
  datatype ForgotPasswordDto = ForgotPasswordDto(email: string)
  datatype ResetPasswordDto = ResetPasswordDto(password: string, token: string)

  /** A string member of the body. */
  function Str(body: Json, key: string): Option<string> {
    match Field(body, key)
    case Some(JStr(s)) => Some(s)
    case _ => None
  }

  /** `plainToInstance(UserRegisterDto, body)` for a body whose fields have the
      declared types; a `null` or missing provider is absent. */
  function ParseRegister(body: Json): (d: Option<RegisterDto>)
    ensures d.Some? ==>
      Field(body, "email") == Some(JStr(d.value.email)) && Field(body, "phone") == Some(JStr(d.value.phone)) &&
      Field(body, "password") == Some(JStr(d.value.password)) && Field(body, "name") == Some(JStr(d.value.name))
    ensures d.Some? ==>
      if d.value.provider.Some? then Field(body, "provider") == Some(JStr(d.value.provider.value))
      else Field(body, "provider") in {None, Some(JNull)}
  {
    var provider := Field(body, "provider");
    if Str(body, "email").Some? && Str(body, "phone").Some? && Str(body, "password").Some?
      && Str(body, "name").Some?
      && (provider.None? || provider == Some(JNull) || provider.value.JStr?)
    then Some(RegisterDto(Str(body, "email").value, Str(body, "phone").value,
      Str(body, "password").value, Str(body, "name").value,
      if provider.Some? && provider.value.JStr? then Some(provider.value.s) else None))
    else None
  }

  /** A body that passes the register rules has the declared shape, and its
      fields satisfy every rule: an e-mail, a password of six characters or
      more, and a provider, when present, of 'google' or 'basic'. */
  lemma RegisterValidParses(body: Json, isEmail: string -> bool)
    requires Validate(RegisterSchema(), body, isEmail) == []
    ensures ParseRegister(body).Some?
    ensures var d := ParseRegister(body).value;
      isEmail(d.email) && |d.password| >= 6 && (d.provider.Some? ==> d.provider.value in ["google", "basic"])
  {
    var s := RegisterSchema();
    ValidateEmpty(s, body, isEmail);
    assert PropertyViolations(s[0], body, isEmail) == [];
    assert PropertyViolations(s[1], body, isEmail) == [];
    assert PropertyViolations(s[2], body, isEmail) == [];
    assert PropertyViolations(s[3], body, isEmail) == [];
    assert PropertyViolations(s[4], body, isEmail) == [];
    FieldPasses(body, isEmail, 0);
    FieldPasses(body, isEmail, 1);
    FieldPasses(body, isEmail, 2);
    FieldPasses(body, isEmail, 3);
    FieldPasses(body, isEmail, 4);
    var email, phone, password, name := Str(body, "email"), Str(body, "phone"), Str(body, "password"), Str(body, "name");
    assert email.Some? && phone.Some? && password.Some? && name.Some?;
  }

  /** What passing one register field's rules says about the field. */
  lemma FieldPasses(body: Json, isEmail: string -> bool, i: nat)
    requires i < 5 && PropertyViolations(RegisterSchema()[i], body, isEmail) == []
    ensures i == 0 ==> Str(body, "email").Some? && isEmail(Str(body, "email").value)
    ensures i == 1 ==> Str(body, "phone").Some?
    ensures i == 2 ==> Str(body, "password").Some? && |Str(body, "password").value| >= 6
    ensures i == 3 ==> Str(body, "name").Some?
    ensures i == 4 ==> var v := Field(body, "provider");
      v.None? || v == Some(JNull) || (v.value.JStr? && v.value.s in ["google", "basic"])
  {
    RegisterMessages(body, isEmail, i);
  }

  /** A string-only DTO: a body passes exactly when every listed member is a string. */
  lemma {:induction false} StringSchemaValid(schema: Schema, body: Json, isEmail: string -> bool)
    requires forall i :: 0 <= i < |schema| ==> !schema[i].optional && |schema[i].checks| == 1 && schema[i].checks[0].IsString?
    ensures Validate(schema, body, isEmail) == [] <==> forall i :: 0 <= i < |schema| ==> Str(body, schema[i].property).Some?
  {
    ValidateEmpty(schema, body, isEmail);
    forall i | 0 <= i < |schema|
      ensures PropertyViolations(schema[i], body, isEmail) == [] <==> Str(body, schema[i].property).Some?
    {
      assert Violations(schema[i].checks, Field(body, schema[i].property), isEmail)
        == Violations(schema[i].checks[1..], Field(body, schema[i].property), isEmail)
          + (if Holds(schema[i].checks[0], Field(body, schema[i].property), isEmail) then [] else [schema[i].checks[0].message]);
    }
  }

  function ParseLogin(body: Json): (d: Option<LoginDto>)
    ensures d.Some? ==> Field(body, "email") == Some(JStr(d.value.email)) && Field(body, "password") == Some(JStr(d.value.password))
  {
    if Str(body, "email").Some? && Str(body, "password").Some?
    then Some(LoginDto(Str(body, "email").value, Str(body, "password").value)) else None
  }

  function ParseUpdate(body: Json): (d: Option<UpdateDto>)
    ensures d.Some? ==> Field(body, "name") == Some(JStr(d.value.name)) && Field(body, "phone") == Some(JStr(d.value.phone))
  {
    if Str(body, "name").Some? && Str(body, "phone").Some?
    then Some(UpdateDto(Str(body, "name").value, Str(body, "phone").value)) else None
  }

  function ParseUpdatePassword(body: Json): (d: Option<UpdatePasswordDto>)
    ensures d.Some? ==>
      Field(body, "password") == Some(JStr(d.value.password)) && Field(body, "newPassword") == Some(JStr(d.value.newPassword))
  {
    if Str(body, "password").Some? && Str(body, "newPassword").Some?
    then Some(UpdatePasswordDto(Str(body, "password").value, Str(body, "newPassword").value)) else None
  }

  function ParseForgotPassword(body: Json): (d: Option<ForgotPasswordDto>)
    ensures d.Some? ==> Field(body, "email") == Some(JStr(d.value.email))
  {
    if Str(body, "email").Some? then Some(ForgotPasswordDto(Str(body, "email").value)) else None
  }

  function ParseResetPassword(body: Json): (d: Option<ResetPasswordDto>)
    ensures d.Some? ==> Field(body, "password") == Some(JStr(d.value.password)) && Field(body, "token") == Some(JStr(d.value.token))
  {
    if Str(body, "password").Some? && Str(body, "token").Some?
    then Some(ResetPasswordDto(Str(body, "password").value, Str(body, "token").value)) else None
  }

  /** The string-only DTOs: a body passes validation exactly when it parses. */
  lemma UpdateParses(body: Json, isEmail: string -> bool)
    ensures Validate(UpdateSchema(), body, isEmail) == [] <==> ParseUpdate(body).Some?
  {
    StringSchemaValid(UpdateSchema(), body, isEmail);
  }

  lemma UpdatePasswordParses(body: Json, isEmail: string -> bool)
    ensures Validate(UpdatePasswordSchema(), body, isEmail) == [] <==> ParseUpdatePassword(body).Some?
  {
    StringSchemaValid(UpdatePasswordSchema(), body, isEmail);
  }

  lemma ForgotPasswordParses(body: Json, isEmail: string -> bool)
    ensures Validate(ForgotPasswordSchema(), body, isEmail) == [] <==> ParseForgotPassword(body).Some?
  {
    StringSchemaValid(ForgotPasswordSchema(), body, isEmail);
  }

  lemma ResetPasswordParses(body: Json, isEmail: string -> bool)
    ensures Validate(ResetPasswordSchema(), body, isEmail) == [] <==> ParseResetPassword(body).Some?
  {
    StringSchemaValid(ResetPasswordSchema(), body, isEmail);
  }

  /** A login body passes exactly when it parses and its email passes the
      e-mail test. */
  lemma LoginValidParses(body: Json, isEmail: string -> bool)
    ensures Validate(LoginSchema(), body, isEmail) == []
        <==> ParseLogin(body).Some? && isEmail(ParseLogin(body).value.email)
  {
    ValidateEmpty(LoginSchema(), body, isEmail);
  }
}
