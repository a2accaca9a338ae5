/**
 * Schema-driven validation of request fields (backend/src/middleware/validate.ts):
 * `ValidateField` checks one value against one rule and reports at most one
 * violation; the `Validate` middleware checks every declared field of every
 * declared surface and either rejects the request with all violations or lets
 * it through.
 */
module Validate {
  import opened Wrappers

  datatype FieldType = StringField | NumberField | StellarAddress

  /** A FieldRule; JavaScript numbers in the schema are reals, absent ones `None`. */
  datatype FieldRule = FieldRule(
    kind: FieldType,
    required: bool,
    min: Option<real>,
    max: Option<real>,
    minLength: Option<real>,
    maxLength: Option<real>,
    integer: bool)

  datatype Surface = Params | Query | Body

  datatype FieldEntry = FieldEntry(name: string, rule: FieldRule)

  /** One surface of a schema with its fields, in declaration order. */
  datatype SurfaceEntry = SurfaceEntry(surface: Surface, fields: seq<FieldEntry>)

  /** A ValidationSchema as `Object.entries` lists it: surfaces, then fields, in declaration order. */
  type ValidationSchema = seq<SurfaceEntry>

  datatype ValidationError = ValidationError(field: string, message: string)

  /** The result of JavaScript's `Number(value)`. */
  datatype JsNumber = NaN | Finite(x: real) | Infinity(positive: bool)

  /** A request value as Express hands it over. */
  datatype Value =
    | Undefined
    | Null
    | Str(s: string)
    | Num(n: JsNumber)
    | Bool(b: bool)
    | Composite(id: nat)

  /**
   * What the validator takes from its JavaScript runtime and from the Stellar
   * SDK: `Number(value)`, `String(value)`, the text of a number inside a
   * message, and `StrKey.isValidEd25519PublicKey`.
   */
  datatype Host = Host(
    toNumber: Value -> JsNumber,
    toText: Value -> string,
    numberText: real -> string,
    isValidEd25519PublicKey: string -> bool)

  /** The data of one surface of a request (`req.params`, `req.query`, `req.body`). */
  type Record = map<string, Value>

  /** A request: the surfaces it carries. A surface it lacks is read as `{}`. */
  type Request = map<Surface, Record>

  datatype ErrorBody = ErrorBody(error: string, details: seq<ValidationError>)

  /** What the middleware does: answer with a status and JSON body, or call `next()`. */
  datatype Verdict = Respond(status: nat, body: ErrorBody) | Next

  // ---------------------------------------------------------------------------
  // One field

  /** `value === undefined || value === null || value === ''` */
  predicate IsEmpty(value: Value) {
    value.Undefined? || value.Null? || value == Str("")
  }

  /** `Number.isInteger` */
  predicate IsInteger(n: JsNumber) {
    n.Finite? && n.x.Floor as real == n.x
  }

  /** `n < bound` for a number that is not NaN. */
  predicate Below(n: JsNumber, bound: real) {
    match n
    case NaN => false
    case Finite(x) => x < bound
    case Infinity(positive) => !positive
  }

  /** `n > bound` for a number that is not NaN. */
  predicate Above(n: JsNumber, bound: real) {
    match n
    case NaN => false
    case Finite(x) => x > bound
    case Infinity(positive) => positive
  }

  /** Why a field was rejected; each has its own message. */
  datatype Violation =
    | Missing
    | NotAPublicKey
    | NotANumber
    | NotAnInteger
    | BelowMin(min: real)
    | AboveMax(max: real)
    | TooShort(minLength: real)
    | TooLong(maxLength: real)

  function Message(field: string, v: Violation, host: Host): string {
    match v
    case Missing => field + " is required"
    case NotAPublicKey => field + " must be a valid Stellar public key"
    case NotANumber => field + " must be a number"
    case NotAnInteger => field + " must be an integer"
    case BelowMin(m) => field + " must be at least " + host.numberText(m)
    case AboveMax(m) => field + " must be at most " + host.numberText(m)
    case TooShort(n) => field + " must be at least " + host.numberText(n) + " characters"
    case TooLong(n) => field + " must be at most " + host.numberText(n) + " characters"
  }

  /** The numeric checks, in the order integer, min, max. */
  function NumberViolation(n: JsNumber, rule: FieldRule): Option<Violation> {
    if n.NaN? then Some(NotANumber)
    else if rule.integer && !IsInteger(n) then Some(NotAnInteger)
    else if rule.min.Some? && Below(n, rule.min.value) then Some(BelowMin(rule.min.value))
    else if rule.max.Some? && Above(n, rule.max.value) then Some(AboveMax(rule.max.value))
    else None
  }

  /** The length checks, minLength before maxLength. */
  function LengthViolation(str: string, rule: FieldRule): Option<Violation> {
    if rule.minLength.Some? && (|str| as real) < rule.minLength.value then Some(TooShort(rule.minLength.value))
    else if rule.maxLength.Some? && (|str| as real) > rule.maxLength.value then Some(TooLong(rule.maxLength.value))
    else None
  }

  /** The first check that `value` fails under `rule`, if any. */
  function FieldViolation(value: Value, rule: FieldRule, host: Host): Option<Violation> {
    if IsEmpty(value) then
      if rule.required then Some(Missing) else None
    else
      match rule.kind
      case StellarAddress =>
        if host.isValidEd25519PublicKey(host.toText(value)) then None else Some(NotAPublicKey)
      case NumberField => NumberViolation(host.toNumber(value), rule)
      case StringField => LengthViolation(host.toText(value), rule)
  }

  /** validateField: at most one error, always about the field it was given. */
  function ValidateField(value: Value, field: string, rule: FieldRule, host: Host): (r: Option<ValidationError>)
    ensures r.Some? ==> r.value.field == field
    ensures r.None? <==> FieldViolation(value, rule, host).None?
  {
    match FieldViolation(value, rule, host)
    case None => None
    case Some(v) => Some(ValidationError(field, Message(field, v, host)))
  }

  /** An empty value is reported as missing when required and otherwise accepted without any type check. */
  lemma EmptyValue(value: Value, field: string, rule: FieldRule, host: Host)
    requires IsEmpty(value)
    ensures rule.required ==> ValidateField(value, field, rule, host) == Some(ValidationError(field, field + " is required"))
    ensures !rule.required ==> ValidateField(value, field, rule, host) == None
  {
  }

  /** A number field whose coercion is NaN reports exactly the type error, never a range or integer error. */
  lemma NaNSupersedesRange(value: Value, field: string, rule: FieldRule, host: Host)
    requires rule.kind == NumberField && !IsEmpty(value) && host.toNumber(value) == NaN
    ensures ValidateField(value, field, rule, host) == Some(ValidationError(field, field + " must be a number"))
  {
  }

  /** The numeric checks run integer, then min, then max; only the first failing one is reported. */
  lemma NumericCheckOrder(value: Value, rule: FieldRule, host: Host)
    requires rule.kind == NumberField && !IsEmpty(value)
    requires host.toNumber(value) != NaN
    ensures var n := host.toNumber(value);
      var intFails := rule.integer && !IsInteger(n);
      var minFails := rule.min.Some? && Below(n, rule.min.value);
      var maxFails := rule.max.Some? && Above(n, rule.max.value);
      && (intFails ==> FieldViolation(value, rule, host) == Some(NotAnInteger))
      && (!intFails && minFails ==> FieldViolation(value, rule, host) == Some(BelowMin(rule.min.value)))
      && (!intFails && !minFails && maxFails ==> FieldViolation(value, rule, host) == Some(AboveMax(rule.max.value)))
      && (FieldViolation(value, rule, host).None? <==> !intFails && !minFails && !maxFails)
  {
  }

  /** minLength is checked before maxLength: a value breaking both reports only minLength. */
  lemma LengthCheckOrder(value: Value, rule: FieldRule, host: Host)
    requires rule.kind == StringField && !IsEmpty(value)
    ensures var len := |host.toText(value)| as real;
      var short := rule.minLength.Some? && len < rule.minLength.value;
      var long := rule.maxLength.Some? && len > rule.maxLength.value;
      && (short ==> FieldViolation(value, rule, host) == Some(TooShort(rule.minLength.value)))
      && (!short && long ==> FieldViolation(value, rule, host) == Some(TooLong(rule.maxLength.value)))
      && (FieldViolation(value, rule, host).None? <==> !short && !long)
  {
  }

  /** A Stellar-address field is rejected exactly when the SDK's key check fails. */
  lemma StellarAddressCheck(value: Value, field: string, rule: FieldRule, host: Host)
    requires rule.kind == StellarAddress && !IsEmpty(value)
    ensures host.isValidEd25519PublicKey(host.toText(value)) ==> ValidateField(value, field, rule, host) == None
    ensures !host.isValidEd25519PublicKey(host.toText(value)) ==>
              ValidateField(value, field, rule, host) == Some(ValidationError(field, field + " must be a valid Stellar public key"))
  {
  }

  // ---------------------------------------------------------------------------
  // The middleware

  /** `req[source] || {}` */
  function SurfaceData(req: Request, surface: Surface): Record {
    if surface in req then req[surface] else map[]
  }

  /** `data[field]`, undefined when the key is absent. */
  function Lookup(data: Record, name: string): Value {
    if name in data then data[name] else Undefined
  }

  function CheckEntry(data: Record, entry: FieldEntry, host: Host): Option<ValidationError> {
    ValidateField(Lookup(data, entry.name), entry.name, entry.rule, host)
  }

  /** The errors of `fields` against `data`, in field order. */
  function FieldErrors(fields: seq<FieldEntry>, data: Record, host: Host): seq<ValidationError> {
    if fields == [] then []
    else
      var rest := FieldErrors(fields[..|fields| - 1], data, host);
      match CheckEntry(data, fields[|fields| - 1], host)
      case None => rest
      case Some(e) => rest + [e]
  }

  /** The errors of a whole schema, surface after surface. */
  function CollectErrors(schema: ValidationSchema, req: Request, host: Host): seq<ValidationError> {
    if schema == [] then []
    else
      var last := schema[|schema| - 1];
      CollectErrors(schema[..|schema| - 1], req, host) + FieldErrors(last.fields, SurfaceData(req, last.surface), host)
  }

  /**
   * validate(schema) applied to one request: checks every declared field of
   * every declared surface, collecting all errors, then answers 400 with the
   * whole list or passes control on.
   */
  method Validate(schema: ValidationSchema, req: Request, host: Host) returns (verdict: Verdict)
    ensures verdict.Next? <==> CollectErrors(schema, req, host) == []
    ensures verdict.Respond? ==>
              verdict == Respond(400, ErrorBody("Validation failed", CollectErrors(schema, req, host)))
  {
    var errors: seq<ValidationError> := [];
    var i := 0;
    while i < |schema|
      invariant 0 <= i <= |schema|
      invariant errors == CollectErrors(schema[..i], req, host)
    {
      var data := SurfaceData(req, schema[i].surface);
      var fields := schema[i].fields;
      var j := 0;
      while j < |fields|
        invariant 0 <= j <= |fields|
        invariant errors == CollectErrors(schema[..i], req, host) + FieldErrors(fields[..j], data, host)
      {
        var error := ValidateField(Lookup(data, fields[j].name), fields[j].name, fields[j].rule, host);
        if error.Some? {
          errors := errors + [error.value];
        }
        assert fields[..j + 1][..j] == fields[..j];
        j := j + 1;
      }
      assert fields[..j] == fields;
      assert schema[..i + 1][..i] == schema[..i];
      i := i + 1;
    }
    assert schema[..i] == schema;
    if |errors| > 0 {
      return Respond(400, ErrorBody("Validation failed", errors));
    }
    return Next;
  }

  // ---------------------------------------------------------------------------
  // Properties of the collected list

  /** Each field contributes its own error, if any: membership in the list is exactly "some field failed with it". */
  lemma {:induction false} FieldErrorsAreFieldResults(fields: seq<FieldEntry>, data: Record, host: Host, e: ValidationError)
    ensures e in FieldErrors(fields, data, host) <==>
              exists j :: 0 <= j < |fields| && CheckEntry(data, fields[j], host) == Some(e)
    decreases |fields|
  {
    if fields != [] {
      var init := fields[..|fields| - 1];
      FieldErrorsAreFieldResults(init, data, host, e);
      if exists j :: 0 <= j < |init| && CheckEntry(data, init[j], host) == Some(e) {
        var j :| 0 <= j < |init| && CheckEntry(data, init[j], host) == Some(e);
        assert fields[j] == init[j];
      }
      if exists j :: 0 <= j < |fields| && CheckEntry(data, fields[j], host) == Some(e) {
        var j :| 0 <= j < |fields| && CheckEntry(data, fields[j], host) == Some(e);
        if j < |init| {
          assert init[j] == fields[j];
        }
      }
    }
  }

  /** No field is skipped and no error is made up: the list holds exactly the failing fields' errors. */
  lemma {:induction false} CollectedErrorsAreFieldResults(schema: ValidationSchema, req: Request, host: Host, e: ValidationError)
    ensures e in CollectErrors(schema, req, host) <==>
              exists i, j :: 0 <= i < |schema| && 0 <= j < |schema[i].fields| &&
                CheckEntry(SurfaceData(req, schema[i].surface), schema[i].fields[j], host) == Some(e)
    decreases |schema|
  {
    if schema != [] {
      var init := schema[..|schema| - 1];
      var last := schema[|schema| - 1];
      CollectedErrorsAreFieldResults(init, req, host, e);
      FieldErrorsAreFieldResults(last.fields, SurfaceData(req, last.surface), host, e);
      if exists i, j :: 0 <= i < |init| && 0 <= j < |init[i].fields| &&
           CheckEntry(SurfaceData(req, init[i].surface), init[i].fields[j], host) == Some(e) {
        var i, j :| 0 <= i < |init| && 0 <= j < |init[i].fields| &&
           CheckEntry(SurfaceData(req, init[i].surface), init[i].fields[j], host) == Some(e);
        assert schema[i] == init[i];
      }
      if exists j :: 0 <= j < |last.fields| && CheckEntry(SurfaceData(req, last.surface), last.fields[j], host) == Some(e) {
        var j :| 0 <= j < |last.fields| && CheckEntry(SurfaceData(req, last.surface), last.fields[j], host) == Some(e);
        assert schema[|schema| - 1].fields[j] == last.fields[j];
      }
      if exists i, j :: 0 <= i < |schema| && 0 <= j < |schema[i].fields| &&
           CheckEntry(SurfaceData(req, schema[i].surface), schema[i].fields[j], host) == Some(e) {
        var i, j :| 0 <= i < |schema| && 0 <= j < |schema[i].fields| &&
           CheckEntry(SurfaceData(req, schema[i].surface), schema[i].fields[j], host) == Some(e);
        if i < |init| {
          assert init[i] == schema[i];
        }
      }
    }
  }

  /** The request passes exactly when every declared field passes on its own. */
  lemma PassesIffEveryFieldPasses(schema: ValidationSchema, req: Request, host: Host)
    ensures CollectErrors(schema, req, host) == [] <==>
              forall i, j :: 0 <= i < |schema| && 0 <= j < |schema[i].fields| ==>
                CheckEntry(SurfaceData(req, schema[i].surface), schema[i].fields[j], host).None?
  {
    var errs := CollectErrors(schema, req, host);
    if errs != [] {
      CollectedErrorsAreFieldResults(schema, req, host, errs[0]);
    }
    if exists i, j :: 0 <= i < |schema| && 0 <= j < |schema[i].fields| &&
         CheckEntry(SurfaceData(req, schema[i].surface), schema[i].fields[j], host).Some? {
      var i, j :| 0 <= i < |schema| && 0 <= j < |schema[i].fields| &&
         CheckEntry(SurfaceData(req, schema[i].surface), schema[i].fields[j], host).Some?;
      CollectedErrorsAreFieldResults(schema, req, host,
        CheckEntry(SurfaceData(req, schema[i].surface), schema[i].fields[j], host).value);
    }
  }

  /** Surfaces are reported in declaration order: the errors of a schema are those of its parts, in order. */
  lemma {:induction false} CollectErrorsAppend(a: ValidationSchema, b: ValidationSchema, req: Request, host: Host)
    ensures CollectErrors(a + b, req, host) == CollectErrors(a, req, host) + CollectErrors(b, req, host)
    decreases |b|
  {
    if b == [] {
      assert a + b == a;
    } else {
      var b' := b[..|b| - 1];
      assert (a + b)[..|a + b| - 1] == a + b';
      assert (a + b)[|a + b| - 1] == b[|b| - 1];
      CollectErrorsAppend(a, b', req, host);
    }
  }

  function FieldCount(schema: ValidationSchema): nat {
    if schema == [] then 0 else FieldCount(schema[..|schema| - 1]) + |schema[|schema| - 1].fields|
  }

  lemma {:induction false} FieldErrorsBound(fields: seq<FieldEntry>, data: Record, host: Host)
    ensures |FieldErrors(fields, data, host)| <= |fields|
    decreases |fields|
  {
    if fields != [] {
      FieldErrorsBound(fields[..|fields| - 1], data, host);
    }
  }

  /** At most one error per declared field. */
  lemma {:induction false} CollectErrorsBound(schema: ValidationSchema, req: Request, host: Host)
    ensures |CollectErrors(schema, req, host)| <= FieldCount(schema)
    decreases |schema|
  {
    if schema != [] {
      var last := schema[|schema| - 1];
      CollectErrorsBound(schema[..|schema| - 1], req, host);
      FieldErrorsBound(last.fields, SurfaceData(req, last.surface), host);
    }
  }

  /** "{field} is required" for each required field, in order. */
  function RequiredErrors(fields: seq<FieldEntry>): seq<ValidationError> {
    if fields == [] then []
    else
      var last := fields[|fields| - 1];
      RequiredErrors(fields[..|fields| - 1]) +
        (if last.rule.required then [ValidationError(last.name, last.name + " is required")] else [])
  }

  /** A surface missing from the request is read as empty: every required field under it is reported as required, and nothing else. */
  lemma {:induction false} MissingSurfaceReportsRequired(fields: seq<FieldEntry>, req: Request, surface: Surface, host: Host)
    requires surface !in req
    ensures FieldErrors(fields, SurfaceData(req, surface), host) == RequiredErrors(fields)
    decreases |fields|
  {
    if fields != [] {
      MissingSurfaceReportsRequired(fields[..|fields| - 1], req, surface, host);
    }
  }

  /** A required number field with min 1, given 0, yields exactly one error, "amount must be at least 1". */
  lemma AmountBelowMinScenario(host: Host)
    requires host.toNumber(Num(Finite(0.0))) == Finite(0.0)
    requires host.numberText(1.0) == "1"
    ensures var rule := FieldRule(NumberField, true, Some(1.0), None, None, None, false);
      var schema := [SurfaceEntry(Body, [FieldEntry("amount", rule)])];
      var req := map[Body := map["amount" := Num(Finite(0.0))]];
      CollectErrors(schema, req, host) == [ValidationError("amount", "amount must be at least 1")]
  {
    var rule := FieldRule(NumberField, true, Some(1.0), None, None, None, false);
    var fields := [FieldEntry("amount", rule)];
    var data := map["amount" := Num(Finite(0.0))];
    assert fields[..0] == [];
    assert Lookup(data, "amount") == Num(Finite(0.0));
    assert FieldViolation(Num(Finite(0.0)), rule, host) == Some(BelowMin(1.0));
    assert "amount" + " must be at least " + "1" == "amount must be at least 1";
    assert CheckEntry(data, fields[0], host) == Some(ValidationError("amount", "amount must be at least 1"));
    assert FieldErrors(fields, data, host) == [ValidationError("amount", "amount must be at least 1")];
    var schema := [SurfaceEntry(Body, fields)];
    assert schema[..0] == [];
    assert SurfaceData(map[Body := data], Body) == data;
  }
}
