/** The JavaScript value semantics the two flows rely on: truthiness, `String(v)`, number division. */
module Js {

  /** A property value of a plain options object. Numbers are integers here. */
  datatype Value = Undefined | Null | Bool(b: bool) | Num(n: int) | Str(s: string)

  /** An object, by its own enumerable properties. */
  type Object = map<string, Value>

  /** `obj[key]`: an absent property reads as `undefined`. */
  function Property(obj: Object, key: string): (v: Value)
    ensures key !in obj ==> v == Undefined
  {
    if key in obj then obj[key] else Undefined
  }

  /** `!!v`. */
  predicate Truthy(v: Value)
  {
    match v
    case Undefined => false
    case Null => false
    case Bool(b) => b
    case Num(n) => n != 0
    case Str(s) => s != []
  }

  function DigitChar(d: int): char
    requires 0 <= d < 10
  {
    "0123456789"[d]
  }

  predicate IsDigit(c: char)
  {
    '0' <= c <= '9'
  }

  /** Decimal text of a natural number, most significant digit first. */
  function NatToString(n: nat): (s: string)
    ensures |s| >= 1
    ensures forall i :: 0 <= i < |s| ==> IsDigit(s[i])
    ensures |s| > 1 ==> s[0] != '0'
  {
    if n < 10 then [DigitChar(n)] else NatToString(n / 10) + [DigitChar(n % 10)]
  }

  /** Reads back a string of decimal digits. */
  function ParseDigits(s: string): nat
    requires forall i :: 0 <= i < |s| ==> IsDigit(s[i])
  {
    if s == [] then 0
    else
      assert IsDigit(s[|s| - 1]);
      ParseDigits(s[..|s| - 1]) * 10 + (s[|s| - 1] as int - '0' as int)
  }

  /** The decimal text of `n` reads back as `n`. */
  lemma {:induction false} NatToStringRoundTrip(n: nat)
    ensures ParseDigits(NatToString(n)) == n
  {
    var s := NatToString(n);
    if n >= 10 {
      NatToStringRoundTrip(n / 10);
      assert s[..|s| - 1] == NatToString(n / 10);
    }
  }

  /** `String(n)` for an integer below 10^21 in magnitude (no exponent form). */
  function IntToString(n: int): (s: string)
    ensures |s| >= 1
    ensures n >= 0 ==> IsDigit(s[0])
    ensures n < 0 ==> s[0] == '-'
  {
    if n < 0 then "-" + NatToString(-n) else NatToString(n)
  }

  /** `String(v)` for an options value. */
  function ToString(v: Value): string
  {
    match v
    case Undefined => "undefined"
    case Null => "null"
    case Bool(b) => if b then "true" else "false"
    case Num(n) => IntToString(n)
    case Str(s) => s
  }

  /** A JavaScript number as the arithmetic of the flows produces it (hours as exact reals). */
  datatype Number = Finite(value: real) | NaN | Infinity | NegInfinity

  /** `a / b`: division by zero gives NaN for `0 / 0` and a signed infinity otherwise. */
  function Divide(a: real, b: real): (r: Number)
    ensures r.Finite? <==> b != 0.0
    ensures r.Finite? ==> r.value * b == a
    ensures r.NaN? <==> a == 0.0 && b == 0.0
  {
    if b != 0.0 then Finite(a / b)
    else if a == 0.0 then NaN
    else if a > 0.0 then Infinity
    else NegInfinity
  }

  /** Least integer not below `x`. */
  function Ceil(x: real): (c: int)
    ensures x <= c as real < x + 1.0
  {
    -((-x).Floor)
  }

  /** `Math.ceil(n * 100)`: a finite number becomes a whole percent, the others stay as they are. */
  function CeilPercent(n: Number): (r: Number)
    ensures n.Finite? ==> r.Finite? && r.value == r.value.Floor as real &&
                          r.value - 1.0 < n.value * 100.0 <= r.value
    ensures !n.Finite? ==> r == n
  {
    match n
    case Finite(x) => Finite(Ceil(x * 100.0) as real)
    case _ => n
  }

  /** `String(n)` for a whole number or a non-finite one. */
  function NumberToString(n: Number): (s: string)
    requires n.Finite? ==> n.value == n.value.Floor as real
  {
    match n
    case Finite(x) => IntToString(x.Floor)
    case NaN => "NaN"
    case Infinity => "Infinity"
    case NegInfinity => "-Infinity"
  }
}
