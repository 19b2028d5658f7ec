/** The few JavaScript value semantics the server's option handling relies on:
    truthiness, `typeof`, `== null`, reading an absent property, lodash's
    `defaults`, and number-to-string conversion. */
module JsValues {

  /** A JavaScript value. Numbers are integers (NaN and fractions are not used
      by the option handling modelled here); functions are known by name only. */
  datatype Value =
    | Undefined
    | Null
    | Bool(b: bool)
    | Num(n: int)
    | Str(s: string)
    | Func(name: string)
    | Arr(items: seq<Value>)
    | Obj(fields: map<string, Value>)

  /** `!!v` */
  predicate Truthy(v: Value) {
    match v
    case Undefined => false
    case Null => false
    case Bool(b) => b
    case Num(n) => n != 0
    case Str(s) => s != ""
    case _ => true
  }

  /** `v == null` (loose equality matches exactly undefined and null). */
  predicate IsNullish(v: Value) {
    v.Undefined? || v.Null?
  }

  /** `typeof v` */
  function TypeOf(v: Value): string {
    match v
    case Undefined => "undefined"
    case Null => "object"
    case Bool(_) => "boolean"
    case Num(_) => "number"
    case Str(_) => "string"
    case Func(_) => "function"
    case Arr(_) => "object"
    case Obj(_) => "object"
  }

  /** `o[key]` on a plain object: an absent property reads as undefined. */
  function Get(fields: map<string, Value>, key: string): Value {
    if key in fields then fields[key] else Undefined
  }

  /** `a || b` */
  function Or(a: Value, b: Value): (r: Value)
    ensures Truthy(a) ==> r == a
    ensures !Truthy(a) ==> r == b
  {
    if Truthy(a) then a else b
  }

  /** lodash `defaults(target, source)`: every key of `source` whose value in
      `target` is undefined (or absent) is copied over; nothing else changes. */
  function Defaults(target: map<string, Value>, source: map<string, Value>): (r: map<string, Value>)
    ensures r.Keys == target.Keys + source.Keys
    ensures forall k :: k in target && target[k] != Undefined ==> r[k] == target[k]
    ensures forall k :: k in source && Get(target, k) == Undefined ==> r[k] == source[k]
  {
    map k | k in target.Keys + source.Keys ::
      if k in target && target[k] != Undefined then target[k]
      else if k in source then source[k]
      else target[k]
  }

  /** `String(v)`, as string concatenation applies it. */
  function ToText(v: Value): string
    decreases v, 1
  {
    match v
    case Undefined => "undefined"
    case Null => "null"
    case Bool(b) => if b then "true" else "false"
    case Num(n) => IntToString(n)
    case Str(s) => s
    case Func(name) => "function " + name + "() { [native code] }"
    case Arr(items) => JoinItems(v, items)
    case Obj(_) => "[object Object]"
  }

  /** `items.join(",")`, where undefined and null items print as nothing. */
  function JoinItems(whole: Value, items: seq<Value>): string
    requires forall i :: 0 <= i < |items| ==> items[i] < whole
    decreases whole, 0, |items|
  {
    if items == [] then ""
    else
      var head := if items[0].Undefined? || items[0].Null? then "" else ToText(items[0]);
      if |items| == 1 then head else head + "," + JoinItems(whole, items[1..])
  }

  function DigitChar(d: int): (c: char)
    requires 0 <= d < 10
    ensures '0' <= c <= '9' && (c - '0') as int == d
  {
    (d + '0' as int) as char
  }

  predicate IsDigitText(s: string) {
    forall i :: 0 <= i < |s| ==> '0' <= s[i] <= '9'
  }

  /** Decimal digits of a natural number, most significant first. */
  function NatToString(n: nat): (s: string)
    ensures 0 < |s|
    ensures IsDigitText(s)
    ensures n < 10 <==> |s| == 1
    decreases n
  {
    if n < 10 then [DigitChar(n)] else NatToString(n / 10) + [DigitChar(n % 10)]
  }

  /** `String(n)` for an integer. */
  function IntToString(n: int): (s: string)
    ensures n >= 0 ==> IsDigitText(s) && 0 < |s|
    ensures n < 0 ==> 1 < |s| && s[0] == '-' && IsDigitText(s[1..])
  {
    if n < 0 then "-" + NatToString(-n) else NatToString(n)
  }

  /** The digit sequence of a number is its value: reading the text back in
      base ten gives `n` again. */
  function DecimalValue(s: string): (v: nat)
    requires IsDigitText(s)
  {
    if s == [] then 0 else 10 * DecimalValue(s[..|s| - 1]) + (s[|s| - 1] - '0') as int
  }

  lemma {:induction false} NatToStringRoundTrip(n: nat)
    ensures DecimalValue(NatToString(n)) == n
    decreases n
  {
    var s := NatToString(n);
    if n >= 10 {
      NatToStringRoundTrip(n / 10);
      assert s[..|s| - 1] == NatToString(n / 10);
    }
  }
}
