/** JavaScript numbers as the components use them. Finite values are exact
    reals (float rounding is not modelled); NaN and the two infinities are
    lumped into one absorbing value, because the code never tells them apart:
    it only displays them. */
module JsNumber {
  import opened Seqs

  datatype Num = Finite(v: real) | NonFinite

  /** `a + b`: NaN and infinities absorb every finite operand. */
  function Add(a: Num, b: Num): (r: Num)
    ensures r.Finite? <==> a.Finite? && b.Finite?
    ensures r.Finite? ==> r.v == a.v + b.v
  {
    if a.Finite? && b.Finite? then Finite(a.v + b.v) else NonFinite
  }

  /** `a - b`. */
  function Sub(a: Num, b: Num): (r: Num)
    ensures r.Finite? <==> a.Finite? && b.Finite?
    ensures r.Finite? ==> r.v + b.v == a.v
  {
    if a.Finite? && b.Finite? then Finite(a.v - b.v) else NonFinite
  }

  /** `-a`. */
  function Neg(a: Num): (r: Num)
    ensures r.Finite? <==> a.Finite?
    ensures r.Finite? ==> r.v + a.v == 0.0
  {
    if a.Finite? then Finite(-a.v) else NonFinite
  }

  /** `a * b`. */
  function Mul(a: Num, b: Num): (r: Num)
    ensures r.Finite? <==> a.Finite? && b.Finite?
    ensures r.Finite? ==> r.v == a.v * b.v
  {
    if a.Finite? && b.Finite? then Finite(a.v * b.v) else NonFinite
  }

  /** `a / b`: dividing by zero gives NaN (0 / 0) or an infinity. */
  function Div(a: Num, b: Num): (r: Num)
    ensures r.Finite? <==> a.Finite? && b.Finite? && b.v != 0.0
    ensures r.Finite? ==> r.v * b.v == a.v
  {
    if a.Finite? && b.Finite? && b.v != 0.0 then Finite(a.v / b.v) else NonFinite
  }

  /** A number is falsy when it is 0 or NaN; the model cannot tell NaN from
      the (truthy) infinities, so only finite truthiness is decided here. */
  predicate IsZero(n: Num) {
    n.Finite? && n.v == 0.0
  }

  predicate IsDigit(c: char) {
    '0' <= c <= '9'
  }

  /** The value of a string of decimal digits, most significant first. */
  function DigitsValue(ds: string): (r: nat)
    requires forall i :: 0 <= i < |ds| ==> IsDigit(ds[i])
  {
    if ds == [] then 0
    else
      assert IsDigit(ds[|ds| - 1]);
      DigitsValue(ds[..|ds| - 1]) * 10 + (ds[|ds| - 1] as int - '0' as int)
  }

  function Pow10(n: nat): (r: nat)
    ensures r > 0
  {
    if n == 0 then 1 else 10 * Pow10(n - 1)
  }

  /** The longest prefix of `s` made of digits. */
  function LeadingDigits(s: string): (r: string)
    ensures |r| <= |s| && r == s[..|r|]
    ensures forall i :: 0 <= i < |r| ==> IsDigit(r[i])
    ensures |r| < |s| ==> !IsDigit(s[|r|])
  {
    if s != [] && IsDigit(s[0]) then [s[0]] + LeadingDigits(s[1..]) else []
  }

  /** `parseFloat(s)` on a string of digits and dots (what the market-cap
      parser leaves after stripping everything else): the longest prefix of the
      form digits, optionally followed by a dot and more digits; NaN when that
      prefix holds no digit at all. */
  function ParseDecimal(s: string): (r: Num)
    requires forall i :: 0 <= i < |s| ==> IsDigit(s[i]) || s[i] == '.'
  {
    var whole := LeadingDigits(s);
    var frac := Fraction(s[|whole|..]);
    if whole == [] && frac == [] then NonFinite
    else if frac == [] then Finite(DigitsValue(whole) as real)
    else Finite(DigitsValue(whole) as real + DigitsValue(frac) as real / Pow10(|frac|) as real)
  }

  /** The digits after a leading dot, if `rest` starts with one. */
  function Fraction(rest: string): (r: string)
    ensures forall i :: 0 <= i < |r| ==> IsDigit(r[i])
  {
    if rest != [] && rest[0] == '.' then LeadingDigits(rest[1..]) else []
  }

  /** A non-empty run of digits is the number it spells. */
  lemma ParseDigits(s: string)
    requires s != [] && forall i :: 0 <= i < |s| ==> IsDigit(s[i])
    ensures ParseDecimal(s) == Finite(DigitsValue(s) as real)
  {
    LeadingDigitsAll(s);
    assert Fraction(s[|s|..]) == [];
  }

  lemma {:induction false} LeadingDigitsAll(s: string)
    requires forall i :: 0 <= i < |s| ==> IsDigit(s[i])
    ensures LeadingDigits(s) == s
  {
    if s != [] {
      LeadingDigitsAll(s[1..]);
    }
  }

  /** The empty string and a lone dot are not numbers. */
  lemma ParseNoDigits()
    ensures ParseDecimal("") == NonFinite
    ensures ParseDecimal(".") == NonFinite
  {
    assert LeadingDigits(".") == [];
    assert ".."[1..] == ".";
  }
}
