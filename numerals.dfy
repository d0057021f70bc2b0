/**
 * Decimal text and numbers: how `pd.to_numeric` reads a text cell, and the
 * text `astype(str)` gives a numeric cell.
 */
module Numerals {
  import opened Wrappers

  predicate IsDigit(c: char) {
    '0' <= c <= '9'
  }

  predicate AllDigits(s: string) {
    forall i :: 0 <= i < |s| ==> IsDigit(s[i])
  }

  function DigitChar(d: nat): (c: char)
    requires d < 10
    ensures IsDigit(c)
  {
    ('0' as int + d) as char
  }

  function DigitsValue(s: string): nat
    requires AllDigits(s)
  {
    if s == [] then 0 else DigitsValue(s[..|s| - 1]) * 10 + (s[|s| - 1] as int - '0' as int)
  }

  function Pow10(n: nat): (p: nat)
    ensures p >= 1
  {
    if n == 0 then 1 else 10 * Pow10(n - 1)
  }

  /** The decimal digits of `n`, without leading zeros. */
  function NatText(n: nat): (r: string)
    ensures |r| > 0 && AllDigits(r)
  {
    if n < 10 then [DigitChar(n)] else NatText(n / 10) + [DigitChar(n % 10)]
  }

  lemma {:induction false} NatTextRoundTrip(n: nat)
    ensures DigitsValue(NatText(n)) == n
  {
    if n >= 10 {
      var t := NatText(n);
      assert t[..|t| - 1] == NatText(n / 10);
      NatTextRoundTrip(n / 10);
    }
  }

  /** Index of the first '.' in `s`, or `|s|` when there is none. */
  function DotIndex(s: string): (i: nat)
    ensures i <= |s|
    ensures i < |s| ==> s[i] == '.'
    ensures forall k :: 0 <= k < i ==> s[k] != '.'
  {
    if s == [] || s[0] == '.' then 0 else 1 + DotIndex(s[1..])
  }

  /** Reads `digits[.digits]`, `.digits` or `digits.`: at least one digit, no sign. */
  function ParseUnsigned(s: string): (r: Option<real>)
    ensures r.Some? ==> r.value >= 0.0
    ensures r.Some? ==> |s| > 0 && (IsDigit(s[0]) || s[0] == '.')
  {
    var d := DotIndex(s);
    var whole := s[..d];
    var frac := if d < |s| then s[d + 1..] else [];
    if |whole| + |frac| > 0 && AllDigits(whole) && AllDigits(frac) then
      Some(DigitsValue(whole) as real + DigitsValue(frac) as real / Pow10(|frac|) as real)
    else
      None
  }

  /** A decimal number with an optional sign, as `pd.to_numeric` reads a text cell. */
  function ParseDecimal(s: string): (r: Option<real>)
    ensures r.Some? ==> |s| > 0 && (IsDigit(s[0]) || s[0] in "+-.")
  {
    if |s| > 0 && (s[0] == '-' || s[0] == '+') then
      match ParseUnsigned(s[1..])
      case None => None
      case Some(v) => Some(if s[0] == '-' then -v else v)
    else
      ParseUnsigned(s)
  }

  /**
   * The digits after the point of a fraction `0 <= f < 1`, at most `n` of
   * them, stopping once the rest is zero.
   */
  function FractionDigits(f: real, n: nat): (r: string)
    requires 0.0 <= f < 1.0
    ensures |r| <= n && AllDigits(r)
    decreases n
  {
    if n == 0 || f == 0.0 then []
    else
      var d := (f * 10.0).Floor;
      [DigitChar(d)] + FractionDigits(f * 10.0 - d as real, n - 1)
  }

  /**
   * The text of a number under `astype(str)`: sign, whole part, a point and
   * the fraction's digits (at most 17), or `0` after the point when the
   * number is whole.
   */
  function NumberText(x: real): (r: string)
    ensures |r| > 0 && (r[0] == '-' || IsDigit(r[0]))
    ensures IsDigit(r[|r| - 1])
  {
    var m := if x < 0.0 then -x else x;
    var whole := m.Floor;
    var f := m - whole as real;
    var fraction := if f == 0.0 then "0" else FractionDigits(f, 17);
    assert |fraction| > 0 by {
      if f != 0.0 {
        assert FractionDigits(f, 17)[0] == DigitChar((f * 10.0).Floor);
      }
    }
    (if x < 0.0 then "-" else "") + NatText(whole) + "." + fraction
  }

  /** The text `astype(str)` gives a whole number reads back as that number. */
  lemma WholeNumberRoundTrip(n: int)
    ensures ParseDecimal(NumberText(n as real)) == Some(n as real)
  {
    var m: nat := if n < 0 then -n else n;
    var u := NatText(m) + ".0";
    WholeNumberText(n);
    UnsignedWholeRoundTrip(m);
    var t := NumberText(n as real);
    if n < 0 {
      assert t == "-" + u && t[0] == '-' && t[1..] == u;
      assert ParseUnsigned(t[1..]) == Some(m as real);
      assert ParseDecimal(t) == Some(-(m as real));
    } else {
      assert t == u && !(t[0] == '-' || t[0] == '+');
    }
  }

  lemma WholeNumberText(n: int)
    ensures NumberText(n as real) == (if n < 0 then "-" else "") + NatText(if n < 0 then -n else n) + ".0"
  {
    var m: nat := if n < 0 then -n else n;
    assert (m as real).Floor == m;
  }

  lemma UnsignedWholeRoundTrip(m: nat)
    ensures ParseUnsigned(NatText(m) + ".0") == Some(m as real)
  {
    var digits := NatText(m);
    var u := digits + ".0";
    assert DotIndex(u) == |digits| by {
      assert u[|digits|] == '.';
      assert forall k :: 0 <= k < |digits| ==> u[k] == digits[k];
      DotIndexFirst(u, |digits|);
    }
    assert u[..|digits|] == digits;
    assert u[|digits| + 1..] == "0";
    NatTextRoundTrip(m);
    assert DigitsValue("0") == 0 by {
      assert "0"[..0] == [];
    }
  }

  lemma {:induction false} DotIndexFirst(s: string, i: nat)
    requires i < |s| && s[i] == '.'
    requires forall k :: 0 <= k < i ==> s[k] != '.'
    ensures DotIndex(s) == i
  {
    if i > 0 {
      DotIndexFirst(s[1..], i - 1);
    }
  }
}
