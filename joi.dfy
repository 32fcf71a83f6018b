/**
 * The part of the Joi validation library the request schemas use, as an interpreter
 * over JSON bodies. `Joi.object({...})` rejects keys it does not declare, a missing
 * `.required()` key and any value its rule rejects; absent keys with a `.default(v)`
 * are filled in. `Joi.string()` rejects the empty string unless told otherwise.
 */
module Joi {
  import opened Wrappers
  import opened Json

  /** A check on one value. `valid == []` means any value of the type. */
  datatype Check =
    | Str(minLength: nat, maxLength: Option<nat>, uri: bool, valid: seq<string>)
    | Num(integer: bool, min: Option<int>, max: Option<int>)
    | Boolean
    | Date
    | StrArray
    | AnyObject
    | StrMap

  /** A declared key: its rule, whether `.required()`, and its `.default(...)`. */
  datatype Key<R> = Key(rule: R, required: bool, default: Option<Json>)

  /** The rule of a top-level key: a check, or a nested `Joi.object({...})` of checks. */
  datatype Rule = Leaf(check: Check) | Object(keys: map<string, Key<Check>>)

  type Schema = map<string, Key<Rule>>

  function AnyStr(): Check {
    Str(0, None, false, [])
  }

  function MaxStr(max: nat): Check {
    Str(0, Some(max), false, [])
  }

  function UriStr(): Check {
    Str(0, None, true, [])
  }

  function OneOf(valid: seq<string>): Check {
    Str(0, None, false, valid)
  }

  function Optional(c: Check): Key<Rule> {
    Key(Leaf(c), false, None)
  }

  function Required(c: Check): Key<Rule> {
    Key(Leaf(c), true, None)
  }

  predicate IsAlpha(c: char) {
    ('a' <= c <= 'z') || ('A' <= c <= 'Z')
  }

  predicate IsSchemeChar(c: char) {
    IsAlpha(c) || ('0' <= c <= '9') || c == '+' || c == '-' || c == '.'
  }

  /**
   * `Joi.string().uri()`, reduced to the shape of an absolute URI in RFC 3986 section 3:
   * a scheme (a letter, then letters, digits, '+', '-' or '.'), a colon, and a
   * non-empty remainder free of spaces.
   */
  predicate IsUri(s: string) {
    exists k :: 1 <= k < |s| - 1 && s[k] == ':' && IsAlpha(s[0])
      && (forall i :: 0 <= i < k ==> IsSchemeChar(s[i]))
      && (forall i :: k < i < |s| ==> s[i] != ' ')
  }

  predicate IsInteger(n: real) {
    n.Floor as real == n
  }

  predicate StrOk(s: string, min: nat, max: Option<nat>, uri: bool, valid: seq<string>) {
    && s != ""
    && min <= |s|
    && (max.Some? ==> |s| <= max.value)
    && (uri ==> IsUri(s))
    && (valid != [] ==> s in valid)
  }

  /** `Number.MAX_SAFE_INTEGER`: without `.unsafe()`, `Joi.number()` rejects a value beyond it either way. */
  const MaxSafeInteger: int := 9007199254740991

  predicate NumOk(n: real, integer: bool, min: Option<int>, max: Option<int>) {
    && -MaxSafeInteger as real <= n <= MaxSafeInteger as real
    && (integer ==> IsInteger(n))
    && (min.Some? ==> n >= min.value as real)
    && (max.Some? ==> n <= max.value as real)
  }

  /** Whether one check accepts one value. */
  predicate CheckAccepts(c: Check, v: Json) {
    match c
    case Str(min, max, uri, valid) => v.JStr? && StrOk(v.s, min, max, uri, valid)
    case Num(integer, min, max) => v.JNum? && NumOk(v.n, integer, min, max)
    case Boolean => v.JBool?
    case Date => v.JNum? || (v.JStr? && v.s != "")
    case StrArray => v.JArr? && forall i :: 0 <= i < |v.items| ==> v.items[i].JStr? && v.items[i].s != ""
    case AnyObject => v.JObj?
    case StrMap => v.JObj? && forall k :: k in v.fields ==> v.fields[k].JStr? && v.fields[k].s != ""
  }

  /** `Joi.object(keys)` on the fields of an object: no undeclared key, no missing required one. */
  predicate ObjectAccepts<R>(keys: map<string, Key<R>>, fields: map<string, Json>, accepts: (R, Json) -> bool) {
    && (forall k :: k in fields ==> k in keys)
    && (forall k :: k in keys && keys[k].required ==> k in fields)
    && (forall k :: k in fields && k in keys ==> accepts(keys[k].rule, fields[k]))
  }

  predicate RuleAccepts(rule: Rule, v: Json) {
    match rule
    case Leaf(c) => CheckAccepts(c, v)
    case Object(keys) => v.JObj? && ObjectAccepts(keys, v.fields, CheckAccepts)
  }

  predicate Accepted(schema: Schema, fields: map<string, Json>) {
    ObjectAccepts(schema, fields, RuleAccepts)
  }

  /** The body with every absent defaulted key filled in. */
  function WithDefaults<R>(schema: map<string, Key<R>>, fields: map<string, Json>): (r: map<string, Json>)
    ensures forall k :: k in fields ==> k in r && r[k] == fields[k]
    ensures forall k :: k in r ==> k in fields || (k in schema && schema[k].default.Some?)
    ensures forall k :: k in schema && k !in fields && schema[k].default.Some? ==>
              k in r && r[k] == schema[k].default.value
  {
    map k | k in fields.Keys + (set k | k in schema && schema[k].default.Some?) ::
      if k in fields then fields[k] else schema[k].default.value
  }

  /** `schema.validate(body)`: the body with its defaults filled in, or a validation error. */
  function Validate(schema: Schema, body: Json): (r: Result<map<string, Json>>)
    ensures r.Success? <==> body.JObj? && Accepted(schema, body.fields)
    ensures r.Success? ==> r.value == WithDefaults(schema, body.fields)
  {
    if body.JObj? && Accepted(schema, body.fields) then Success(WithDefaults(schema, body.fields))
    else Failure("\"value\" failed validation")
  }

  /** A body that validates holds every required key, accepted by that key's rule. */
  lemma RequiredKeyAccepted(schema: Schema, body: Json, k: string)
    requires Validate(schema, body).Success? && k in schema && schema[k].required
    ensures body.JObj? && k in body.fields && RuleAccepts(schema[k].rule, body.fields[k])
  {
  }

  /** A key present in a body that validates is a declared key, accepted by its rule. */
  lemma PresentKeyAccepted(schema: Schema, body: Json, k: string)
    requires Validate(schema, body).Success? && body.JObj? && k in body.fields
    ensures k in schema && RuleAccepts(schema[k].rule, body.fields[k])
  {
  }

  /** `schema.fork(names, s => s.optional())`: the named keys stop being required. */
  function MakeOptional<R>(schema: map<string, Key<R>>, names: set<string>): (r: map<string, Key<R>>)
    ensures r.Keys == schema.Keys
    ensures forall k :: k in schema ==> r[k].rule == schema[k].rule && r[k].default == schema[k].default
    ensures forall k :: k in schema ==> r[k].required == (schema[k].required && k !in names)
  {
    map k | k in schema :: if k in names then schema[k].(required := false) else schema[k]
  }

  /** Making keys optional can only widen what a schema accepts, and keeps its defaults. */
  lemma MakeOptionalWidens(schema: Schema, names: set<string>, fields: map<string, Json>)
    requires Accepted(schema, fields)
    ensures Accepted(MakeOptional(schema, names), fields)
    ensures WithDefaults(MakeOptional(schema, names), fields) == WithDefaults(schema, fields)
  {
  }

  /** A schema without required keys accepts the empty body. */
  lemma EmptyBodyAccepted(schema: Schema)
    requires forall k :: k in schema ==> !schema[k].required
    ensures Validate(schema, JObj(map[])).Success?
  {
  }
}
