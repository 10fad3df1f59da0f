/** Decimal numerals: how `Number(digits)` reads them and how a template literal prints a number. */
module Numerals {
  predicate IsDigit(c: char) { '0' <= c <= '9' }

  /** The test `/^\d+$/`. */
  predicate IsNumeral(s: string) {
    s != "" && forall i :: 0 <= i < |s| ==> IsDigit(s[i])
  }

  function DigitChar(d: nat): (c: char)
    requires d < 10
    ensures IsDigit(c) && DigitValue(c) == d
  {
    (('0' as int) + d) as char
  }

  function DigitValue(c: char): nat
    requires IsDigit(c)
  {
    c as int - '0' as int
  }

  function ParseNat(s: string): nat
    requires forall i :: 0 <= i < |s| ==> IsDigit(s[i])
  {
    if s == "" then 0
    else 10 * ParseNat(s[..|s| - 1]) + DigitValue(s[|s| - 1])
  }

  function Decimal(n: nat): (s: string)
    ensures IsNumeral(s)
  {
    if n < 10 then [DigitChar(n)] else Decimal(n / 10) + [DigitChar(n % 10)]
  }

  lemma {:induction false} ParseDecimal(n: nat)
    ensures ParseNat(Decimal(n)) == n
  {
    if n < 10 {
      assert Decimal(n)[..0] == "";
    } else {
      ParseDecimal(n / 10);
      assert Decimal(n)[..|Decimal(n)| - 1] == Decimal(n / 10);
    }
  }

  /** Numbers from here on print in exponent form (section 6.1.6.1.20 of ECMA-262). */
  const EXPONENT_FORM_FROM: nat := 1_000_000_000_000_000_000_000

  function StripTrailingZeros(s: string): (r: string)
    requires IsNumeral(s)
    ensures IsNumeral(r)
  {
    if |s| > 1 && s[|s| - 1] == '0' then StripTrailingZeros(s[..|s| - 1]) else s
  }

  function ExponentForm(n: nat): string {
    var digits := Decimal(n);
    var significant := StripTrailingZeros(digits);
    [significant[0]] + (if |significant| == 1 then "" else "." + significant[1..])
    + "e+" + Decimal(|digits| - 1)
  }

  function PrintNumber(n: nat): string {
    if n < EXPONENT_FORM_FROM then Decimal(n) else ExponentForm(n)
  }

  predicate AllZeros(s: string) { forall i :: 0 <= i < |s| ==> s[i] == '0' }

  lemma {:induction false} StrippedExactly(s: string)
    requires IsNumeral(s)
    ensures var r := StripTrailingZeros(s);
            && 0 < |r| <= |s| && r == s[..|r|] && AllZeros(s[|r|..]) && (|r| == 1 || r[|r| - 1] != '0')
  {
    if |s| > 1 && s[|s| - 1] == '0' {
      var front := s[..|s| - 1];
      StrippedExactly(front);
      var r := StripTrailingZeros(front);
      assert s[|r|..] == front[|r|..] + ['0'];
    } else {
      assert s[..|s|] == s && s[|s|..] == "";
    }
  }

  /**
   * The exponent form has one digit before the point, the other digits up to the last that is not
   * zero behind it, and as exponent the number of all digits behind the first.
   */
  lemma ExponentFormExactly(n: nat) returns (rest: string, zeros: string)
    ensures var digits := Decimal(n);
            && digits == [digits[0]] + rest + zeros && AllZeros(zeros) && (rest != "" ==> rest[|rest| - 1] != '0')
            && ExponentForm(n) == [digits[0]] + (if rest == "" then "" else "." + rest) + "e+" + Decimal(|rest + zeros|)
  {
    var digits := Decimal(n);
    var significant := StripTrailingZeros(digits);
    StrippedExactly(digits);
    rest, zeros := significant[1..], digits[|significant|..];
    hide Decimal, StripTrailingZeros;
    assert significant == [digits[0]] + rest;
    assert digits == significant + zeros;
  }
}
