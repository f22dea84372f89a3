/** `ValidateMiddleware`: validates the body against a DTO and either lets the
    request through or answers 422 with the violated constraints flattened
    into one `property -> messages` object. */
module ValidateMiddleware {
  import opened Wrappers
  import opened Json
  import opened Http
  import opened Dto

  /** `errorsObject: Record<string, string[]>`, in key insertion order. */
  type ErrorsObject = seq<(string, seq<string>)>

  /** The errors whose `property -> constraints` one top-level error writes:
      itself when its `children` list is empty, its children when it has some,
      and nothing when `children` is `undefined`. */
  function Writes(e: ValidationError): seq<ValidationError> {
    match e.children
    case None => []
    case Some(cs) => if cs == [] then [e] else cs
  }

  /** Every write of the two loops, in the order they happen. */
  function AllWrites(errors: seq<ValidationError>): seq<ValidationError> {
    if errors == [] then [] else Writes(errors[0]) + AllWrites(errors[1..])
  }

  /** Performing a list of writes; `None` once a write meets an error whose
      `constraints` is `undefined` (`Object.values(undefined)` throws). */
  function PutAll(obj: ErrorsObject, ws: seq<ValidationError>): Option<ErrorsObject>
    decreases |ws|
  {
    if ws == [] then Some(obj)
    else if ws[0].constraints.None? then None
    else PutAll(Put(obj, ws[0].property, ws[0].constraints.value), ws[1..])
  }

  /** The object the loops build from an empty one. */
  function Flatten(errors: seq<ValidationError>): Option<ErrorsObject> {
    PutAll([], AllWrites(errors))
  }

  /** The constraints of the last write to a property, if any. */
  function LastWrite(ws: seq<ValidationError>, k: string): Option<seq<string>>
    decreases |ws|
  {
    if ws == [] then None
    else
      match LastWrite(ws[1..], k)
      case Some(v) => Some(v)
      case None => if ws[0].property == k then ws[0].constraints else None
  }

  lemma AllWritesAt(errors: seq<ValidationError>, i: nat)
    requires i < |errors|
    ensures AllWrites(errors[i..]) == Writes(errors[i]) + AllWrites(errors[i + 1..])
  {
    assert errors[i..][1..] == errors[i + 1..];
  }

  /** The two nested `forEach` loops of the middleware, filling `errorsObject`
      in place. `None` when a write throws. */
  method FlattenErrors(errors: seq<ValidationError>) returns (result: Option<ErrorsObject>)
    ensures result == Flatten(errors)
  {
    var obj: ErrorsObject := [];
    var i := 0;
    while i < |errors|
      invariant 0 <= i <= |errors|
      invariant PutAll(obj, AllWrites(errors[i..])) == Flatten(errors)
    {
      var err := errors[i];
      var rest := AllWrites(errors[i + 1..]);
      AllWritesAt(errors, i);
      if err.children == Some([]) {
        assert ([err] + rest)[0] == err;
        assert ([err] + rest)[1..] == rest;
        if err.constraints.None? {
          return None;
        }
        obj := Put(obj, err.property, err.constraints.value);
      } else if err.children.Some? {
        var cs := err.children.value;
        var j := 0;
        assert cs[0..] == cs;
        while j < |cs|
          invariant 0 <= j <= |cs|
          invariant PutAll(obj, cs[j..] + rest) == Flatten(errors)
        {
          assert (cs[j..] + rest)[0] == cs[j];
          assert (cs[j..] + rest)[1..] == cs[j + 1..] + rest;
          if cs[j].constraints.None? {
            return None;
          }
          obj := Put(obj, cs[j].property, cs[j].constraints.value);
          j := j + 1;
        }
        assert cs[j..] + rest == rest;
      } else {
        assert Writes(err) + rest == rest;
      }
      i := i + 1;
    }
    assert errors[i..] == [];
    result := Some(obj);
  }

  /** Every written error has constraints. */
  predicate AllConstrained(ws: seq<ValidationError>) {
    forall i :: 0 <= i < |ws| ==> ws[i].constraints.Some?
  }

  /** The writes succeed exactly when every written error has constraints. */
  lemma {:induction false} PutAllSucceeds(obj: ErrorsObject, ws: seq<ValidationError>)
    ensures PutAll(obj, ws).Some? <==> AllConstrained(ws)
    decreases |ws|
  {
    if ws != [] && ws[0].constraints.Some? {
      PutAllSucceeds(Put(obj, ws[0].property, ws[0].constraints.value), ws[1..]);
      assert forall i :: 1 <= i < |ws| ==> ws[i] == ws[1..][i - 1];
    }
  }

  /** After the writes, a property holds the constraints of its last write,
      and a property nobody wrote keeps its earlier value: a later error or
      child with the same property overwrites an earlier one. */
  lemma {:induction false} PutAllGet(obj: ErrorsObject, ws: seq<ValidationError>, k: string)
    requires PutAll(obj, ws).Some?
    ensures Get(PutAll(obj, ws).value, k)
         == match LastWrite(ws, k) case Some(v) => Some(v) case None => Get(obj, k)
    decreases |ws|
  {
    if ws != [] {
      var c := ws[0].constraints.value;
      PutAllGet(Put(obj, ws[0].property, c), ws[1..], k);
      PutGet(obj, ws[0].property, c, k);
    }
  }

  /** The flattened object never repeats a key. */
  lemma {:induction false} PutAllDistinct(obj: ErrorsObject, ws: seq<ValidationError>)
    requires DistinctKeys(obj) && PutAll(obj, ws).Some?
    ensures DistinctKeys(PutAll(obj, ws).value)
    decreases |ws|
  {
    if ws != [] {
      var c := ws[0].constraints.value;
      PutDistinct(obj, ws[0].property, c);
      PutAllDistinct(Put(obj, ws[0].property, c), ws[1..]);
    }
  }

  /** The flattened object: keys are unique and each holds its last write. */
  lemma {:induction false} FlattenLastWrite(errors: seq<ValidationError>, k: string)
    ensures Flatten(errors).Some?
        <==> AllConstrained(AllWrites(errors))
    ensures Flatten(errors).Some? ==>
      DistinctKeys(Flatten(errors).value) && Get(Flatten(errors).value, k) == LastWrite(AllWrites(errors), k)
  {
    var ws := AllWrites(errors);
    assert Flatten(errors) == PutAll([], ws);
    PutAllSucceeds([], ws);
    if PutAll([], ws).Some? {
      var obj := PutAll([], ws).value;
      PutAllGet([], ws, k);
      assert Get<seq<string>>([], k) == None;
      assert Get(obj, k) == LastWrite(ws, k);
      PutAllDistinct([], ws);
      assert DistinctKeys(obj);
    }
  }

  /** An error with an empty `children` list writes its own property, one
      with children writes each child's property and not its own, and one
      whose `children` is `undefined` writes nothing. */
  lemma WritesOfOneError(e: ValidationError)
    ensures e.children == Some([]) ==> AllWrites([e]) == [e]
    ensures e.children.Some? && e.children.value != [] ==> AllWrites([e]) == e.children.value
    ensures e.children.None? ==> Flatten([e]) == Some([])
  {
    assert AllWrites([e]) == Writes(e) + AllWrites([]);
  }

  /** The error list of a DTO validation is written one error at a time. */
  lemma {:induction false} DtoWrites(errors: seq<ValidationError>)
    requires forall i :: 0 <= i < |errors| ==> errors[i].children == Some([]) && errors[i].constraints.Some?
    ensures AllWrites(errors) == errors
  {
    if errors != [] {
      DtoWrites(errors[1..]);
    }
  }

  // ---- the middleware ---------------------------------------------------

  /** `errorsObject` as JSON. */
  function ErrorsJson(obj: ErrorsObject): (j: Json)
    ensures j.JObj? && Keys(j.fields) == Keys(obj)
    ensures forall k :: Field(j, k) == match Get(obj, k) case Some(ms) => Some(StrArray(ms)) case None => None
  {
    if obj == [] then JObj([])
    else
      var rest := ErrorsJson(obj[1..]);
      JObj([(obj[0].0, StrArray(obj[0].1))] + rest.fields)
  }

  /** `res.status(422).send({ errors: errorsObject })`. */
  function Unprocessable(obj: ErrorsObject): Response {
    JsonResponse(422, JObj([("errors", ErrorsJson(obj))]))
  }

  /** What the middleware does with the validator's error list: `next()` for
      none, otherwise a 422 answer and no `next` call; when flattening throws
      inside the promise callback, neither happens. */
  function ValidateStep(errors: seq<ValidationError>): Step {
    if |errors| > 0 then
      match Flatten(errors)
      case None => Stall
      case Some(obj) => Reply(Unprocessable(obj))
    else Continue
  }

  /** The middleware calls `next()` exactly when there is no error, and it
      never throws. */
  lemma ValidateStepContinues(errors: seq<ValidationError>)
    ensures ValidateStep(errors) == Continue <==> errors == []
    ensures !ValidateStep(errors).Raise?
  {
  }

  /** `new ValidateMiddleware(classToValidate)`. */
  datatype ValidateMiddleware = ValidateMiddleware(classToValidate: DtoName) {

    /** `exec`: validates the body, then calls `next()` or answers 422. */
    method Exec(body: Json, isEmail: string -> bool) returns (s: Step)
      ensures s == ValidateStep(Validate(SchemaOf(classToValidate), body, isEmail))
      ensures s == Continue <==> Validate(SchemaOf(classToValidate), body, isEmail) == []
      ensures s.Reply? <==> Validate(SchemaOf(classToValidate), body, isEmail) != []
      ensures s.Reply? ==> exists obj :: s.response == Unprocessable(obj)
    {
      var errors := Validate(SchemaOf(classToValidate), body, isEmail);
      if |errors| > 0 {
        DtoWrites(errors);
        FlattenLastWrite(errors, "");
        var obj := FlattenErrors(errors);
        if obj.None? {
          s := Stall;
        } else {
          s := Reply(Unprocessable(obj.value));
        }
      } else {
        s := Continue;
      }
    }
  }

  /** Distinct property names in a rule table. */
  predicate DistinctProperties(schema: Schema) {
    forall i, j :: 0 <= i < j < |schema| ==> schema[i].property != schema[j].property
  }

  /** Over DTO errors, the last write to a property is the one error for it. */
  lemma {:induction false} DtoLastWrite(schema: Schema, body: Json, isEmail: string -> bool, i: nat)
    requires DistinctProperties(schema) && i < |schema|
    ensures var ms := PropertyViolations(schema[i], body, isEmail);
      LastWrite(Validate(schema, body, isEmail), schema[i].property) == if ms == [] then None else Some(ms)
  {
    var errs := Validate(schema, body, isEmail);
    var head := PropertyViolations(schema[0], body, isEmail);
    var here := if head == [] then [] else [ValidationError(schema[0].property, Some(head), Some([]))];
    var tail := Validate(schema[1..], body, isEmail);
    assert errs == here + tail;
    if head != [] {
      assert errs[0] == here[0];
      assert errs[1..] == tail;
    } else {
      assert errs == tail;
    }
    if i == 0 {
      assert forall j :: 0 <= j < |schema[1..]| ==> schema[1..][j] == schema[j + 1];
      NoWriteOf(schema[1..], body, isEmail, schema[0].property);
    } else {
      assert schema[1..][i - 1] == schema[i];
      assert forall a, b :: 0 <= a < b < |schema[1..]| ==> schema[1..][a] == schema[a + 1] && schema[1..][b] == schema[b + 1];
      DtoLastWrite(schema[1..], body, isEmail, i - 1);
      assert schema[0].property != schema[i].property;
    }
  }

  /** A property absent from a rule table is never written. */
  lemma {:induction false} NoWriteOf(schema: Schema, body: Json, isEmail: string -> bool, k: string)
    requires forall i :: 0 <= i < |schema| ==> schema[i].property != k
    ensures LastWrite(Validate(schema, body, isEmail), k) == None
  {
    if schema != [] {
      assert forall j :: 0 <= j < |schema[1..]| ==> schema[1..][j] == schema[j + 1];
      NoWriteOf(schema[1..], body, isEmail, k);
      var head := PropertyViolations(schema[0], body, isEmail);
      var errs := Validate(schema, body, isEmail);
      var tail := Validate(schema[1..], body, isEmail);
      if head != [] {
        assert errs[0].property == schema[0].property;
        assert errs[1..] == tail;
      } else {
        assert errs == tail;
      }
    }
  }

  /** For a DTO's rule table with distinct properties, a failing body is
      answered 422, and its `errors` object maps each failing property to
      its messages and holds no passing property. */
  lemma DtoErrorsResponse(schema: Schema, body: Json, isEmail: string -> bool, i: nat)
    requires DistinctProperties(schema) && i < |schema|
    requires Validate(schema, body, isEmail) != []
    ensures var s := ValidateStep(Validate(schema, body, isEmail));
      var ms := PropertyViolations(schema[i], body, isEmail);
      s.Reply? && s.response.status == 422 &&
      Get(Flatten(Validate(schema, body, isEmail)).value, schema[i].property) == (if ms == [] then None else Some(ms))
  {
    var errs := Validate(schema, body, isEmail);
    DtoWrites(errs);
    FlattenLastWrite(errs, schema[i].property);
    DtoLastWrite(schema, body, isEmail, i);
  }

  /** For a rule table with distinct properties, one failing property is
      enough for a 422 whose `errors` maps that property to its messages. */
  lemma {:induction false} FailingPropertyResponse(schema: Schema, body: Json, isEmail: string -> bool, i: nat)
    requires DistinctProperties(schema) && i < |schema|
    requires PropertyViolations(schema[i], body, isEmail) != []
    ensures var errs := Validate(schema, body, isEmail);
      errs != [] && ValidateStep(errs).Reply? &&
      Get(Flatten(errs).value, schema[i].property) == Some(PropertyViolations(schema[i], body, isEmail))
  {
    ValidateEmpty(schema, body, isEmail);
    DtoErrorsResponse(schema, body, isEmail, i);
  }

  /** The register table's properties are distinct. */
  lemma RegisterDistinct()
    ensures DistinctProperties(RegisterSchema()) && RegisterSchema()[2].property == "password"
  {
  }

  /** A short password is answered 422 with `errors.password == ['min length 6']`. */
  lemma RegisterShortPasswordResponse(body: Json, isEmail: string -> bool, pw: string)
    requires Field(body, "password") == Some(JStr(pw)) && |pw| < 6
    ensures var errs := Validate(RegisterSchema(), body, isEmail);
      errs != [] && ValidateStep(errs).Reply? &&
      Get(Flatten(errs).value, "password") == Some(["min length 6"])
  {
    RegisterShortPassword(body, isEmail, pw);
    RegisterDistinct();
    FailingPropertyResponse(RegisterSchema(), body, isEmail, 2);
  }
}
