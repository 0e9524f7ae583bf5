/** JavaScript values as the connector sees them: loosely typed settings,
    criteria, stored documents and promise outcomes. */
module JsValue {

  /** A JavaScript value. Numbers are modelled as integers. */
  datatype Value =
    | Undefined
    | Null
    | Bool(b: bool)
    | Num(n: int)
    | Str(s: string)
    | Arr(items: seq<Value>)
    | Obj(fields: map<string, Value>)

  datatype Option<T> = None | Some(value: T)

  /** The outcome of a settled promise. */
  datatype Settled = Fulfilled(value: Value) | Rejected(reason: Value)

  /** JavaScript truthiness: undefined, null, false, 0 and '' are falsy. */
  predicate Truthy(v: Value) {
    match v
    case Undefined => false
    case Null => false
    case Bool(b) => b
    case Num(n) => n != 0
    case Str(s) => s != ""
    case Arr(_) => true
    case Obj(_) => true
  }

  /** `null` or `undefined`: the values on which a property access or a
      method call throws a TypeError. */
  predicate Nullish(v: Value) {
    v.Null? || v.Undefined?
  }

  /** `a || b` */
  function Or(a: Value, b: Value): Value {
    if Truthy(a) then a else b
  }

  /** `o[k]` on a plain object: a missing key reads as undefined. */
  function Get(o: map<string, Value>, k: string): Value {
    if k in o then o[k] else Undefined
  }

  /** `v[k]` on any non-nullish value: object keys, and the `length` of a
      string or an array. Other inherited properties and numeric indexes
      into strings and arrays read as undefined here. */
  function GetProp(v: Value, k: string): Value {
    match v
    case Obj(m) => Get(m, k)
    case Str(s) => if k == "length" then Num(|s|) else Undefined
    case Arr(items) => if k == "length" then Num(|items|) else Undefined
    case _ => Undefined
  }

  function DigitChar(d: int): char
    requires 0 <= d < 10
  {
    "0123456789"[d]
  }

  /** Decimal digits of a natural number, most significant first. */
  function NatToString(n: nat): (s: string)
    ensures |s| > 0
  {
    if n < 10 then [DigitChar(n)] else NatToString(n / 10) + [DigitChar(n % 10)]
  }

  /** `String(n)` for an integral number. */
  function IntToString(i: int): (s: string)
    ensures s != ""
  {
    if i < 0 then "-" + NatToString(-i) else NatToString(i)
  }

  /** `array.join(',')`, applied to the already converted elements. */
  function JoinWithComma(parts: seq<string>): string {
    if |parts| == 0 then ""
    else if |parts| == 1 then parts[0]
    else parts[0] + "," + JoinWithComma(parts[1..])
  }

  /** `String(v)`: the string form that `toString()` yields for a
      non-nullish value. An array joins its elements with commas, writing
      a null or undefined element as ''; a plain object is
      '[object Object]'. */
  function Stringify(v: Value): string
    decreases v
  {
    match v
    case Undefined => "undefined"
    case Null => "null"
    case Bool(b) => if b then "true" else "false"
    case Num(n) => IntToString(n)
    case Str(s) => s
    case Arr(items) =>
      JoinWithComma(seq(|items|, i requires 0 <= i < |items| =>
        if Nullish(items[i]) then "" else Stringify(items[i])))
    case Obj(_) => "[object Object]"
  }

  /** A one-element array is written as its element. */
  lemma StringifySingleton(s: string)
    ensures Stringify(Arr([Str(s)])) == s
  {
    var parts := seq(1, i requires 0 <= i < 1 => if Nullish([Str(s)][i]) then "" else Stringify([Str(s)][i]));
    assert parts == [s];
  }
}
