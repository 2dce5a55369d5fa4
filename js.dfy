/**
 * The JavaScript values that the extension reads out of parsed JSON, and the
 * three pieces of JavaScript semantics its conditions rely on: truthiness,
 * property reads (which throw on `undefined` and `null`) and the string
 * conversion that `'text' + value` performs.
 */
module Js {
  import opened Wrappers
  import opened Text

  /** A value produced by `JSON.parse`. Numbers are integral in this model. */
  datatype Json =
    | JNull
    | JBool(b: bool)
    | JNum(n: int)
    | JStr(s: string)
    | JArr(items: seq<Json>)
    | JObj(fields: map<string, Json>)

  /** A JavaScript value: `None` is `undefined`. */
  type Value = Option<Json>

  /** The result of a property read: a value, or a thrown TypeError. */
  datatype Read = Got(v: Value) | Throws

  /** How a JavaScript computation ends: with a value, or by throwing. */
  datatype Completion<T> = Normal(value: T) | Threw

  /** `!!v` in JavaScript. */
  predicate Truthy(v: Value)
  {
    match v
    case None => false
    case Some(j) =>
      match j
      case JNull => false
      case JBool(b) => b
      case JNum(n) => n != 0
      case JStr(s) => s != ""
      case JArr(_) => true
      case JObj(_) => true
  }

  /**
   * `v.name` for a property name that is neither an array index nor `length`
   * (every name the extension reads is such a name). Reading from `undefined`
   * or `null` throws; primitives and arrays have no such own property.
   */
  function Get(v: Value, name: string): (r: Read)
    ensures r.Throws? <==> (v == None || v == Some(JNull))
    ensures r.Got? && r.v.Some? ==> v.Some? && v.value.JObj? && name in v.value.fields
  {
    match v
    case None => Throws
    case Some(j) =>
      match j
      case JNull => Throws
      case JObj(m) => Got(if name in m then Some(m[name]) else None)
      case _ => Got(None)
  }

  /** `v[0]`: the first element of an array, the first character of a string, or the property "0" of an object. */
  function First(v: Value): (r: Read)
    ensures r.Throws? <==> (v == None || v == Some(JNull))
  {
    match v
    case None => Throws
    case Some(j) =>
      match j
      case JNull => Throws
      case JArr(a) => Got(if |a| > 0 then Some(a[0]) else None)
      case JStr(s) => Got(if |s| > 0 then Some(JStr([s[0]])) else None)
      case JObj(m) => Got(if "0" in m then Some(m["0"]) else None)
      case _ => Got(None)
  }

  /** `a && a.name`, read as a truthiness test: false when `a` is falsy, otherwise the truthiness of `a.name`. */
  predicate TruthyField(v: Value, name: string)
  {
    Truthy(v) && Get(v, name).Got? && Truthy(Get(v, name).v)
  }

  /** The field `name` of a value that is known to be truthy (so the read cannot throw). */
  function Field(v: Value, name: string): (r: Value)
    requires Truthy(v)
    ensures Truthy(r) ==> TruthyField(v, name)
  {
    Get(v, name).v
  }

  /** Decimal digits of a natural number. */
  function NatToString(n: nat): (r: string)
    ensures |r| > 0
    ensures forall i :: 0 <= i < |r| ==> '0' <= r[i] <= '9'
    decreases n
  {
    if n < 10 then [Digit(n)] else NatToString(n / 10) + [Digit(n % 10)]
  }

  function Digit(d: nat): (c: char)
    requires d < 10
    ensures '0' <= c <= '9'
  {
    ['0', '1', '2', '3', '4', '5', '6', '7', '8', '9'][d]
  }

  /** `String(n)` for an integer. */
  function IntToString(n: int): string
  {
    if n < 0 then "-" + NatToString(-n) else NatToString(n)
  }

  /** `'' + v`: the string conversion JavaScript applies when concatenating. */
  function ToString(v: Value): string
  {
    match v
    case None => "undefined"
    case Some(j) => JsonToString(j)
  }

  function JsonToString(j: Json): string
  {
    match j
    case JNull => "null"
    case JBool(b) => if b then "true" else "false"
    case JNum(n) => IntToString(n)
    case JStr(s) => s
    case JArr(a) => Join(a)
    case JObj(_) => "[object Object]"
  }

  /** `Array.prototype.join(',')`: `null` elements become the empty string. */
  function Join(a: seq<Json>): string
    decreases a, 0
  {
    if a == [] then ""
    else
      var head := if a[0] == JNull then "" else JsonToString(a[0]);
      if |a| == 1 then head else head + "," + Join(a[1..])
  }

  /** `v == 0` under JavaScript's loose equality: strings and arrays are compared through their numeric value. */
  predicate LooselyZero(v: Value)
  {
    match v
    case None => false
    case Some(j) =>
      match j
      case JNull => false
      case JBool(b) => !b
      case JNum(n) => n == 0
      case JStr(s) => NumericZero(s)
      case JArr(a) => NumericZero(Join(a))
      case JObj(_) => false
  }

  /** `Number(s) == 0`: blank text, or a numeral whose value is zero. */
  predicate NumericZero(s: string)
  {
    var t := Trim(s);
    t == "" || ZeroNumeral(t)
  }

  /** A decimal zero with an optional sign and exponent, or a hexadecimal, octal or binary zero. */
  predicate ZeroNumeral(t: string)
  {
    || UnsignedZero(t)
    || (|t| > 0 && (t[0] == '+' || t[0] == '-') && UnsignedZero(t[1..]))
    || (|t| > 2 && t[0] == '0' && t[1] in "xXoObB" && forall i | 2 <= i < |t| :: t[i] == '0')
  }

  predicate UnsignedZero(u: string)
  {
    exists k | 0 <= k <= |u| :: ZeroMantissa(u[..k]) && (k == |u| || Exponent(u[k..]))
  }

  /** Zeros with at most one decimal point, at least one zero among them. */
  predicate ZeroMantissa(m: string)
  {
    (forall i | 0 <= i < |m| :: m[i] == '0' || m[i] == '.') && multiset(m)['.'] <= 1 && '0' in m
  }

  predicate Exponent(e: string)
  {
    |e| >= 2 && (e[0] == 'e' || e[0] == 'E') && Digits(if e[1] == '+' || e[1] == '-' then e[2..] else e[1..])
  }

  predicate Digits(d: string)
  {
    |d| > 0 && forall i | 0 <= i < |d| :: '0' <= d[i] <= '9'
  }

  /**
   * `a === b` for values read out of separately parsed JSON: equal
   * primitives (or both `undefined`); arrays and objects are distinct
   * objects and never identical.
   */
  predicate StrictEquals(a: Value, b: Value)
  {
    a == b && (a.None? || !(a.value.JArr? || a.value.JObj?))
  }

  /** `isArray`: `Array.isArray(v)`. */
  predicate IsArray(v: Value) { v.Some? && v.value.JArr? }

  /** Converting a decimal numeral back to its value: the partner of `NatToString`. */
  function DigitsValue(s: string): int
  {
    if s == [] then 0 else DigitsValue(s[..|s| - 1]) * 10 + (s[|s| - 1] as int - '0' as int)
  }

  lemma {:induction false} NatToStringRoundTrip(n: nat)
    ensures DigitsValue(NatToString(n)) == n
    decreases n
  {
    if n >= 10 {
      NatToStringRoundTrip(n / 10);
      var s := NatToString(n / 10) + [Digit(n % 10)];
      assert s[..|s| - 1] == NatToString(n / 10);
    }
  }
}
