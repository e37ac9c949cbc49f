/**
 * The request/response vocabulary shared by the Laravel controllers:
 * request values, the error kinds a controller answers with, and the subset
 * of Laravel's validation rules the controllers use
 * (`required`, `sometimes`, `nullable`, `string`, `numeric`, `integer`,
 * `min`, `max`, `in`).
 */
module Http {
  import opened Wrappers
  import Text

  /** One request value after JSON decoding. */
  datatype Value = Null | Str(s: string) | Num(x: real)

  /** `$request->all()`: the request's keys and values. */
  type Attrs = map<string, Value>

  /** How a controller fails; `Code` is the HTTP status it answers with. */
  datatype Error =
    | Invalid                    // failed validation, 422
    | NotFound                   // findOrFail missed, 404
    | Forbidden                  // explicit ownership refusal, 403
    | BadRequest(message: string) // abort(400) / json(..., 400)
    | ServerError(message: string) // caught exception, 500
    | Crash                      // uncaught PHP error, 500
  {
    function Code(): nat
    {
      match this
      case Invalid => 422
      case NotFound => 404
      case Forbidden => 403
      case BadRequest(_) => 400
      case ServerError(_) => 500
      case Crash => 500
    }
  }

  datatype Result<+T> = Ok(value: T) | Err(error: Error)

  /** The type rule of a field. */
  datatype Kind = Text | Numeric | Integer | OneOf(options: set<string>)

  /**
   * One field's rule string. A rule that is not `required` behaves as
   * `sometimes`: an absent key passes.
   */
  datatype FieldRule = FieldRule(required: bool, nullable: bool, kind: Kind, min: Option<real>, maxLen: Option<nat>)

  predicate IsInteger(v: Value)
  {
    v.Num? && v.x.Floor as real == v.x
  }

  predicate KindOk(v: Value, k: Kind)
  {
    match k
    case Text => v.Str?
    case Numeric => v.Num?
    case Integer => IsInteger(v)
    case OneOf(options) => v.Str? && v.s in options
  }

  /** An empty or all-blank string, which `required` refuses. */
  predicate BlankValue(x: Value)
  {
    match x
    case Str(s) => Text.Blank(s)
    case _ => false
  }

  predicate SizeOk(x: Value, r: FieldRule)
  {
    match x
    case Num(n) => r.min.Some? ==> n >= r.min.value
    case Str(s) => r.min.None? && (r.maxLen.Some? ==> |s| <= r.maxLen.value)
    case Null => false
  }

  /** Whether the value found under a key (None when the key is absent) passes the rule. */
  predicate Passes(v: Option<Value>, r: FieldRule)
    ensures v.None? ==> (Passes(v, r) <==> !r.required)
    ensures v == Some(Null) ==> (Passes(v, r) <==> !r.required && r.nullable)
    ensures Passes(v, r) && v.Some? && v.value != Null ==>
              KindOk(v.value, r.kind) && (r.required ==> !BlankValue(v.value))
    ensures Passes(v, r) && v.Some? && v.value.Num? && r.min.Some? ==> v.value.x >= r.min.value
    ensures Passes(v, r) && v.Some? && v.value.Str? && r.maxLen.Some? ==> |v.value.s| <= r.maxLen.value
  {
    if v.None? then !r.required
    else if v.value == Null then !r.required && r.nullable
    else
      && (r.required ==> !BlankValue(v.value))
      && KindOk(v.value, r.kind)
      && SizeOk(v.value, r)
      && (r.maxLen.Some? ==> v.value.Str?)
  }

  /** A value usable as a row id: a non-negative whole number. */
  function AsId(v: Value): (r: Option<nat>)
    ensures r.Some? <==> IsInteger(v) && v.x >= 0.0
    ensures r.Some? ==> r.value as real == v.x
  {
    if IsInteger(v) && v.x >= 0.0 then Some(v.x.Floor as nat) else None
  }

  /** `$request->key` for a string field (empty when absent or not a string). */
  function StrOf(a: Attrs, key: string): string
  {
    if key in a && a[key].Str? then a[key].s else ""
  }

  /** `$request->key` for a numeric field (zero when absent or not a number). */
  function NumOf(a: Attrs, key: string): real
  {
    if key in a && a[key].Num? then a[key].x else 0.0
  }

  function Lookup(a: Attrs, key: string): Option<Value>
  {
    if key in a then Some(a[key]) else None
  }

  /** A rule set: field name to rule. */
  type Rules = map<string, FieldRule>

  /** `$request->validate($rules)` succeeds. */
  predicate Validates(a: Attrs, rules: Rules)
    ensures Validates(a, rules) ==> forall k :: k in rules && rules[k].required ==> k in a && a[k] != Null
    ensures a == map[] ==> (Validates(a, rules) <==> forall k :: k in rules ==> !rules[k].required)
  {
    forall k :: k in rules ==> Passes(Lookup(a, k), rules[k])
  }

  /** What `validate` returns on success: the present keys that have a rule. */
  function Validated(a: Attrs, rules: Rules): (d: Attrs)
    ensures d.Keys == a.Keys * rules.Keys
    ensures forall k :: k in d ==> d[k] == a[k]
  {
    map k | k in a && k in rules :: a[k]
  }

  /** The validated part of a request passes the rules the whole request passed. */
  lemma ValidatedValidates(a: Attrs, rules: Rules)
    requires Validates(a, rules)
    ensures Validates(Validated(a, rules), rules)
  {
    var d := Validated(a, rules);
    forall k | k in rules
      ensures Passes(Lookup(d, k), rules[k])
    {
      assert Lookup(d, k) == Lookup(a, k);
    }
  }

  /** A required field's value is present and not null. */
  lemma RequiredIsPresent(a: Attrs, rules: Rules, key: string)
    requires Validates(a, rules)
    requires key in rules && rules[key].required
    ensures key in a && a[key] != Null && KindOk(a[key], rules[key].kind)
  {
    assert Passes(Lookup(a, key), rules[key]);
  }

  /** A present field that passed a rule with a lower bound is a number at or above it. */
  lemma MinHolds(a: Attrs, rules: Rules, key: string)
    requires Validates(a, rules)
    requires key in rules && rules[key].min.Some? && !rules[key].nullable
    requires key in a
    ensures a[key].Num? && a[key].x >= rules[key].min.value
  {
    assert Passes(Lookup(a, key), rules[key]);
  }
}
