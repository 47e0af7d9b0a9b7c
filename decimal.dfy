// String forms of numbers the indexer writes and reads back:
//   - base-10 integers, as Go's `%d`, `strconv.FormatInt` and `math.Int.String()` render them
//     and as `strconv.ParseInt(s, 10, 64)` reads them;
//   - fixed-point decimals with 18 fractional digits, as the Cosmos SDK's `LegacyDec`
//     renders (`String()`) and reads (`LegacyNewDecFromStr`) them. A decimal is
//     represented by its scaled integer value (value * 10^18).

module Decimal {
  import opened Wrappers

  predicate IsDigit(c: char) { '0' <= c <= '9' }

  predicate AllDigits(s: string) { forall i :: 0 <= i < |s| ==> IsDigit(s[i]) }

  function DigitChar(d: nat): (c: char)
    requires d < 10
    ensures IsDigit(c)
  {
    (d + '0' as int) as char
  }

  function DigitValue(c: char): nat
    requires IsDigit(c)
  {
    c as int - '0' as int
  }

  /** The number a string of digits spells, most significant digit first. */
  function DigitsValue(s: string): nat
    requires AllDigits(s)
  {
    if s == [] then 0 else DigitsValue(s[..|s| - 1]) * 10 + DigitValue(s[|s| - 1])
  }

  /** Decimal digits of `n` with no leading zero ("0" for zero). */
  function FormatNat(n: nat): (s: string)
    ensures |s| >= 1 && AllDigits(s)
    ensures s[0] == '0' ==> n == 0
  {
    if n < 10 then [DigitChar(n)] else FormatNat(n / 10) + [DigitChar(n % 10)]
  }

  /** `fmt.Sprintf("%d", n)`: a minus sign for negative numbers, then the digits. */
  function FormatInt(n: int): string
  {
    if n < 0 then "-" + FormatNat(-n) else FormatNat(n)
  }

  function ParseNat(s: string): Option<nat>
  {
    if |s| > 0 && AllDigits(s) then Some(DigitsValue(s)) else None
  }

  /** A base-10 integer with an optional sign and at least one digit, of any size. */
  function ParseInteger(s: string): Option<int>
  {
    if |s| > 0 && (s[0] == '-' || s[0] == '+') then
      match ParseNat(s[1..])
      case None => None
      case Some(n) => var v: int := if s[0] == '-' then -(n as int) else n; Some(v)
    else
      match ParseNat(s)
      case None => None
      case Some(n) => Some(n)
  }

  const MinInt64: int := -0x8000_0000_0000_0000
  const MaxInt64: int := 0x7FFF_FFFF_FFFF_FFFF

  /** `strconv.ParseInt(s, 10, 64)`: a base-10 integer that must fit in 64 signed bits. */
  function ParseInt64(s: string): (r: Result<int>)
    ensures r.Ok? ==> MinInt64 <= r.value <= MaxInt64 && ParseInteger(s) == Some(r.value)
    ensures r.Err? ==> ParseInteger(s).None? || !(MinInt64 <= ParseInteger(s).value <= MaxInt64)
  {
    match ParseInteger(s)
    case None => Err(ParseError(s))
    case Some(n) => if MinInt64 <= n <= MaxInt64 then Ok(n) else Err(ParseError(s))
  }

  lemma {:induction false} DigitsValueOfFormatNat(n: nat)
    ensures DigitsValue(FormatNat(n)) == n
    decreases n
  {
    if n >= 10 {
      var s := FormatNat(n / 10);
      DigitsValueOfFormatNat(n / 10);
      assert (s + [DigitChar(n % 10)])[..|s|] == s;
    }
  }

  /** Reading back what `%d` wrote gives the same integer. */
  lemma ParseFormatInt(n: int)
    ensures ParseInteger(FormatInt(n)) == Some(n)
  {
    DigitsValueOfFormatNat(if n < 0 then -n else n);
    if n < 0 {
      assert FormatInt(n)[1..] == FormatNat(-n);
    }
  }

  /** `%d` never renders two integers the same way. */
  lemma FormatIntInjective(m: int, n: int)
    ensures FormatInt(m) == FormatInt(n) ==> m == n
  {
    ParseFormatInt(m);
    ParseFormatInt(n);
  }

  lemma ParseInt64FormatInt(n: int)
    requires MinInt64 <= n <= MaxInt64
    ensures ParseInt64(FormatInt(n)) == Ok(n)
  {
    ParseFormatInt(n);
  }

  // ---------------------------------------------------------------------------------
  // LegacyDec

  const Precision: nat := 18
  const DecScale: nat := 1_000_000_000_000_000_000

  function Pow10(k: nat): (p: nat)
    ensures p >= 1
  {
    if k == 0 then 1 else 10 * Pow10(k - 1)
  }

  function Zeros(k: nat): (s: string)
    ensures |s| == k && AllDigits(s)
  {
    if k == 0 then [] else Zeros(k - 1) + ['0']
  }

  /** `s` preceded by as many zeros as make it `width` characters long. */
  function PadLeft(s: string, width: nat): (r: string)
    requires AllDigits(s)
    ensures AllDigits(r) && |r| == if |s| < width then width else |s|
  {
    if |s| < width then Zeros(width - |s|) + s else s
  }

  /** `LegacyDec.String()`: optional minus sign, the integer part without leading zeros,
      a point, and exactly 18 fractional digits. */
  function FormatDec(d: int): string
  {
    var a := if d < 0 then -d else d;
    var body := FormatNat(a / DecScale) + "." + PadLeft(FormatNat(a % DecScale), Precision);
    if d < 0 then "-" + body else body
  }

  /** `LegacyDec.String()` of equal values: stated as a lemma so that callers can hand
      the solver the equality of two differently computed arguments. */
  lemma FormatDecOfEqual(a: int, b: int)
    requires a == b
    ensures FormatDec(a) == FormatDec(b)
  {
  }

  /** Index of the first '.' in `s`, or |s| when there is none. */
  function DotIndex(s: string): (i: nat)
    ensures i <= |s|
    ensures i < |s| ==> s[i] == '.'
    ensures forall j :: 0 <= j < i ==> s[j] != '.'
  {
    if s == [] then 0 else if s[0] == '.' then 0 else 1 + DotIndex(s[1..])
  }

  /** `LegacyNewDecFromStr`: an optional leading minus, a non-empty integer part and,
      after at most one point, between 1 and 18 fractional digits. */
  function ParseDec(s: string): Option<int>
  {
    if |s| > 0 && s[0] == '-' then
      match ParseUnsignedDec(s[1..])
      case None => None
      case Some(v) => Some(-(v as int))
    else
      match ParseUnsignedDec(s)
      case None => None
      case Some(v) => Some(v)
  }

  function ParseUnsignedDec(body: string): Option<nat>
  {
    var i := DotIndex(body);
    if i == 0 || !AllDigits(body[..i]) then None
    else if i == |body| then Some(DecValue(body, ""))
    else
      var frac := body[i + 1..];
      if |frac| == 0 || |frac| > Precision || !AllDigits(frac) then None
      else Some(DecValue(body[..i], frac))
  }

  /** The scaled value of an integer part and a fraction of at most 18 digits. */
  function DecValue(whole: string, frac: string): nat
    requires AllDigits(whole) && AllDigits(frac) && |frac| <= Precision
  {
    DigitsValue(whole) * DecScale + DigitsValue(frac) * Pow10(Precision - |frac|)
  }

  lemma {:induction false} DigitsValueOfZeros(k: nat)
    ensures DigitsValue(Zeros(k)) == 0
  {
    if k > 0 {
      DigitsValueOfZeros(k - 1);
      assert Zeros(k)[..k - 1] == Zeros(k - 1);
    }
  }

  /** Leading zeros do not change the value of a digit string. */
  lemma {:induction false} DigitsValueLeadingZeros(k: nat, s: string)
    requires AllDigits(s)
    ensures DigitsValue(Zeros(k) + s) == DigitsValue(s)
    decreases |s|
  {
    if s == [] {
      assert Zeros(k) + s == Zeros(k);
      DigitsValueOfZeros(k);
    } else {
      var t := s[..|s| - 1];
      DigitsValueLeadingZeros(k, t);
      assert (Zeros(k) + s)[..|Zeros(k) + s| - 1] == Zeros(k) + t;
    }
  }

  lemma {:induction false} DotIndexAfterDigits(w: string, rest: string)
    requires AllDigits(w)
    ensures DotIndex(w + "." + rest) == |w|
    decreases |w|
  {
    if w != [] {
      DotIndexAfterDigits(w[1..], rest);
      assert (w + "." + rest)[1..] == w[1..] + "." + rest;
    }
  }

  lemma DotIndexDigits(s: string)
    requires AllDigits(s)
    ensures DotIndex(s) == |s|
  {
  }

  /** How `ParseDec` reads an unsigned integer part, a point and a fraction. */
  lemma ParseDecUnsigned(w: string, p: string)
    requires AllDigits(w) && AllDigits(p) && |w| > 0 && 0 < |p| <= Precision
    ensures ParseUnsignedDec(w + "." + p) == Some(DecValue(w, p))
  {
    var body := w + "." + p;
    DotIndexAfterDigits(w, p);
    assert body[..|w|] == w;
    assert body[|w| + 1..] == p;
  }

  /** The padded fraction `LegacyDec.String()` writes spells the remainder. */
  lemma FractionDigits(r: nat)
    requires r < DecScale
    ensures |PadLeft(FormatNat(r), Precision)| == Precision
    ensures DigitsValue(PadLeft(FormatNat(r), Precision)) == r
  {
    var f := FormatNat(r);
    DigitsValueOfFormatNat(r);
    DecScaleIsPow10();
    FormatNatLength(r, Precision);
    if |f| < Precision {
      DigitsValueLeadingZeros(Precision - |f|, f);
    }
  }

  /** Reading back what `LegacyDec.String()` wrote gives the same decimal. */
  lemma ParseFormatDec(d: int)
    ensures ParseDec(FormatDec(d)) == Some(d)
  {
    var a := if d < 0 then -d else d;
    var q, r := a / DecScale, a % DecScale;
    var w := FormatNat(q);
    var p := PadLeft(FormatNat(r), Precision);
    DigitsValueOfFormatNat(q);
    FractionDigits(r);
    assert Pow10(Precision - |p|) == 1;
    assert DecValue(w, p) == a;
    ParseDecUnsigned(w, p);
    if d < 0 {
      assert FormatDec(d)[1..] == w + "." + p;
    }
  }

  /** A number below 10^k has at most k digits. */
  lemma {:induction false} FormatNatLength(n: nat, k: nat)
    requires n < Pow10(k)
    ensures |FormatNat(n)| <= if k == 0 then 1 else k
    decreases k
  {
    if n >= 10 {
      assert k >= 2;
      FormatNatLength(n / 10, k - 1);
    }
  }

  lemma DecScaleIsPow10()
    ensures DecScale == Pow10(Precision)
  {
    assert Pow10(3) == 1000;
    assert Pow10(6) == 1000_000;
    assert Pow10(9) == 1000_000_000;
    assert Pow10(12) == 1000_000_000_000;
    assert Pow10(15) == 1000_000_000_000_000;
  }
}
