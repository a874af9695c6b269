/**
 * JavaScript numbers as far as the `limit` query parameter needs them:
 * `Number(string)` (StringToNumber of ECMAScript), `Math.min`, the comparison
 * `length >= x` and the end index `Array.prototype.slice(0, x)` computes.
 * A finite number is kept as an exact real; rounding to binary64 is not modelled.
 */
module JsNumber {
  import opened Wrappers
  import opened JsText

  datatype Number = NaN | PosInf | NegInf | Finite(v: real)

  predicate IsDigit(c: char) { '0' <= c <= '9' }

  function DigitVal(c: char): nat
    requires IsDigit(c)
  {
    c as int - '0' as int
  }

  predicate AllDigits(s: string) {
    forall i :: 0 <= i < |s| ==> IsDigit(s[i])
  }

  /** Length of the run of decimal digits `s` starts with. */
  function DigitRun(s: string): (n: nat)
    ensures n <= |s| && AllDigits(s[..n])
    ensures n < |s| ==> !IsDigit(s[n])
  {
    if |s| == 0 || !IsDigit(s[0]) then 0 else 1 + DigitRun(s[1..])
  }

  /** Value of a string of decimal digits, most significant first. */
  function DecimalValue(s: string): nat
    requires AllDigits(s)
  {
    if s == [] then 0 else 10 * DecimalValue(s[..|s| - 1]) + DigitVal(s[|s| - 1])
  }

  /** Value of digit `c` in base `radix` (2, 8 or 16), if it is one. */
  function RadixDigit(c: char, radix: nat): Option<nat> {
    var d :=
      if IsDigit(c) then DigitVal(c)
      else if 'a' <= c <= 'f' then c as int - 'a' as int + 10
      else if 'A' <= c <= 'F' then c as int - 'A' as int + 10
      else 16;
    if d < radix then Some(d) else None
  }

  /** Value of a non-empty run of base-`radix` digits, or nothing if some character is not one. */
  function RadixValue(s: string, radix: nat): Option<nat> {
    if s == [] then Some(0)
    else
      match (RadixValue(s[..|s| - 1], radix), RadixDigit(s[|s| - 1], radix))
      case (Some(hi), Some(lo)) => Some(radix * hi + lo)
      case _ => None
  }

  function Pow10Nat(e: nat): (r: real)
    ensures r >= 1.0
  {
    if e == 0 then 1.0 else 10.0 * Pow10Nat(e - 1)
  }

  function Pow10(e: int): real {
    if e >= 0 then Pow10Nat(e) else 1.0 / Pow10Nat(-e)
  }

  /** `digits × 10^e`, the value of a decimal literal. */
  function Scaled(digits: nat, e: int): (r: real)
    ensures e == 0 ==> r == digits as real
  {
    digits as real * Pow10(e)
  }

  /** ExponentPart of StrUnsignedDecimalLiteral: nothing, or `e`/`E`, an optional sign and at least one digit. */
  function Exponent(rest: string): Option<int> {
    if rest == [] then Some(0)
    else if rest[0] != 'e' && rest[0] != 'E' then None
    else
      var negative := |rest| > 1 && rest[1] == '-';
      var digits := if |rest| > 1 && (rest[1] == '-' || rest[1] == '+') then rest[2..] else rest[1..];
      if digits != [] && AllDigits(digits) then
        var m: int := DecimalValue(digits);
        Some(if negative then -m else m)
      else None
  }

  /** StrUnsignedDecimalLiteral without `Infinity`: digits, an optional fraction, an optional exponent. */
  function UnsignedDecimal(u: string): Option<real> {
    var i := DigitRun(u);
    var intPart := u[..i];
    var hasDot := i < |u| && u[i] == '.';
    var frac := if hasDot then u[i + 1..][..DigitRun(u[i + 1..])] else [];
    var rest := if hasDot then u[i + 1 + |frac|..] else u[i..];
    if intPart == [] && frac == [] then None
    else
      match Exponent(rest)
      case None => None
      case Some(e) => Some(Scaled(DecimalValue(intPart + frac), e - |frac|))
  }

  function RadixLiteral(digits: string, radix: nat): Number {
    if digits == [] then NaN
    else
      match RadixValue(digits, radix)
      case Some(v) => Finite(v as real)
      case None => NaN
  }

  /** StrNumericLiteral: a non-empty string without surrounding white space. */
  function NumericLiteral(t: string): Number
    requires t != []
  {
    if |t| >= 2 && t[0] == '0' && (t[1] == 'x' || t[1] == 'X') then RadixLiteral(t[2..], 16)
    else if |t| >= 2 && t[0] == '0' && (t[1] == 'o' || t[1] == 'O') then RadixLiteral(t[2..], 8)
    else if |t| >= 2 && t[0] == '0' && (t[1] == 'b' || t[1] == 'B') then RadixLiteral(t[2..], 2)
    else
      var negative := t[0] == '-';
      var u := if t[0] == '-' || t[0] == '+' then t[1..] else t;
      if u == "Infinity" then (if negative then NegInf else PosInf)
      else
        match UnsignedDecimal(u)
        case None => NaN
        case Some(v) => Finite(if negative then -v else v)
  }

  /** `Number(s)` for a string `s`: white space alone (or nothing) is zero. */
  function ToNumber(s: string): Number {
    var t := Trim(s);
    if t == [] then Finite(0.0) else NumericLiteral(t)
  }

  /** `Math.min(a, b)`. */
  function Min(a: Number, b: Number): (r: Number)
    ensures r.NaN? <==> a.NaN? || b.NaN?
    ensures r.Finite? && a.Finite? ==> r.v <= a.v
    ensures r.Finite? && b.Finite? ==> r.v <= b.v
    ensures !r.NaN? ==> r == a || r == b
    ensures r.PosInf? ==> a.PosInf? && b.PosInf?
  {
    match (a, b)
    case (NaN, _) => NaN
    case (_, NaN) => NaN
    case (NegInf, _) => NegInf
    case (_, NegInf) => NegInf
    case (PosInf, _) => b
    case (_, PosInf) => a
    case (Finite(x), Finite(y)) => if x <= y then a else b
  }

  /** `n >= x` for an array length `n`. */
  predicate AtLeast(n: nat, x: Number) {
    match x
    case NaN => false
    case PosInf => false
    case NegInf => true
    case Finite(v) => n as real >= v
  }

  /** Truncation toward zero, as ToIntegerOrInfinity does for finite numbers. */
  function Truncate(v: real): int {
    if v >= 0.0 then v.Floor else -((-v).Floor)
  }

  /** Length of `xs.slice(0, end)` for an array of length `len`. */
  function SliceEnd(len: nat, end: Number): (k: nat)
    ensures k <= len
    ensures end.Finite? && end.v >= 0.0 ==> k as real <= end.v
    ensures end.Finite? && end.v >= len as real ==> k == len
  {
    match end
    case NaN => 0
    case NegInf => 0
    case PosInf => len
    case Finite(v) =>
      var rel := Truncate(v);
      if rel < 0 then (if len + rel < 0 then 0 else len + rel)
      else if rel < len then rel else len
  }

  /** Canonical decimal text of a natural number: what `String(n)` gives. */
  function DecimalString(n: nat): (s: string)
    ensures s != [] && AllDigits(s)
  {
    if n < 10 then [('0' as int + n) as char] else DecimalString(n / 10) + [('0' as int + n % 10) as char]
  }

  lemma {:induction false} DecimalStringValue(n: nat)
    ensures DecimalValue(DecimalString(n)) == n
  {
    if n >= 10 {
      var s := DecimalString(n);
      DecimalStringValue(n / 10);
      assert s[..|s| - 1] == DecimalString(n / 10);
    }
  }

  lemma UnsignedDecimalOfDigits(s: string)
    requires s != [] && AllDigits(s)
    ensures UnsignedDecimal(s) == Some(DecimalValue(s) as real)
  {
    DigitRunAll(s);
    NoDot(s);
    assert Exponent(s[DigitRun(s)..]) == Some(0);
  }

  /** A string of digits is one run. */
  lemma {:induction false} DigitRunAll(s: string)
    requires AllDigits(s)
    ensures DigitRun(s) == |s|
  {
    if s != [] {
      assert AllDigits(s[1..]) by {
        assert forall i :: 0 <= i < |s| - 1 ==> s[1..][i] == s[i + 1];
      }
      DigitRunAll(s[1..]);
    }
  }

  /** The parts `UnsignedDecimal` cuts a run of digits into: all of it, no fraction, no exponent. */
  lemma NoDot(s: string)
    requires DigitRun(s) == |s|
    ensures s[..DigitRun(s)] == s && s[DigitRun(s)..] == [] && s + [] == s
  {
  }

  lemma DigitsLiteral(s: string)
    requires s != [] && AllDigits(s)
    ensures NumericLiteral(s) == Finite(DecimalValue(s) as real)
  {
    UnsignedDecimalOfDigits(s);
    assert IsDigit(s[0]);
    assert s != "Infinity";
  }

  lemma DigitsTrimmed(s: string)
    requires s != [] && AllDigits(s)
    ensures Trim(s) == s
  {
    assert IsDigit(s[0]) && IsDigit(s[|s| - 1]);
    TrimOfTrimmed(s);
  }

  /** `Number(String(n)) == n` for every natural number. */
  lemma DecimalStringToNumber(n: nat)
    ensures ToNumber(DecimalString(n)) == Finite(n as real)
  {
    var s := DecimalString(n);
    DecimalStringValue(n);
    DigitsTrimmed(s);
    DigitsLiteral(s);
  }
}
