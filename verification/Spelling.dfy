/** Scaled decimals and their canonical spelling (internal/usage/pricing/decimal.go and the zero
    stripping of amount.go). */
module Spelling {
  import opened Decimal

  // ------------------------------------------------------------ scaled decimals

  // coefficient / 10^scale; a nil coefficient is zero.
  datatype Scaled = Scaled(coefficient: nat, scale: nat)

  /** The least scale that holds the value. */
  predicate Canonical(d: Scaled) {
    && (d.coefficient == 0 ==> d.scale == 0)
    && (d.scale > 0 ==> d.coefficient % 10 != 0)
  }

  /** The value in units of 10^-p. */
  function Units(d: Scaled, p: nat): nat
    requires d.scale <= p
  {
    d.coefficient * Pow10(p - d.scale)
  }

  /** formatNonnegativeScaledDecimal: the non-exponent spelling. */
  function Format(d: Scaled): string {
    if d.coefficient == 0 then "0"
    else
      var digits := Digits(d.coefficient);
      if d.scale == 0 then digits
      else if |digits| <= d.scale then "0." + Zeros(d.scale - |digits|) + digits
      else digits[..|digits| - d.scale] + "." + digits[|digits| - d.scale..]
  }

  /** Trailing zeros of the coefficient removed while there is scale to spend. */
  function Strip(coefficient: nat, scale: nat): Scaled {
    if coefficient == 0 then Scaled(0, 0)
    else if scale > 0 && coefficient % 10 == 0 then Strip(coefficient / 10, scale - 1)
    else Scaled(coefficient, scale)
  }

  lemma {:induction false} StripExact(coefficient: nat, scale: nat)
    ensures var d := Strip(coefficient, scale);
      Canonical(d) && d.scale <= scale && Units(d, scale) == coefficient
  {
    if coefficient != 0 && scale > 0 && coefficient % 10 == 0 {
      StripExact(coefficient / 10, scale - 1);
      var d := Strip(coefficient / 10, scale - 1);
      PowStep(scale - 1 - d.scale);
      assert 10 * (d.coefficient * Pow10(scale - 1 - d.scale)) == d.coefficient * Pow10(scale - d.scale);
    }
  }

  /** Units at a larger precision. */
  lemma UnitsShift(d: Scaled, p: nat, q: nat)
    requires d.scale <= p <= q
    ensures Units(d, q) == Units(d, p) * Pow10(q - p)
  {
    PowAdd(p - d.scale, q - p);
    assert d.coefficient * (Pow10(p - d.scale) * Pow10(q - p)) == d.coefficient * Pow10(p - d.scale) * Pow10(q - p);
  }

  lemma TimesTenDivides(c: nat, n: nat)
    requires n > 0
    ensures (c * Pow10(n)) % 10 == 0
  {
    assert c * Pow10(n) == 10 * (c * Pow10(n - 1));
  }

  lemma PowCancel(a: nat, b: nat, k: nat)
    requires a * Pow10(k) == b * Pow10(k)
    ensures a == b
  {}

  /** A canonical decimal is determined by its value. */
  lemma CanonicalUnique(a: Scaled, b: Scaled, p: nat)
    requires Canonical(a) && Canonical(b) && a.scale <= p && b.scale <= p && Units(a, p) == Units(b, p)
    ensures a == b
  {
    if a.scale < b.scale {
      LowerScale(a, b, p);
    } else if b.scale < a.scale {
      LowerScale(b, a, p);
    } else {
      PowCancel(a.coefficient, b.coefficient, p - a.scale);
    }
  }

  lemma LowerScale(a: Scaled, b: Scaled, p: nat)
    requires Canonical(b) && a.scale < b.scale <= p
    ensures Units(a, p) != Units(b, p)
  {
    UnitsShift(a, b.scale, p);
    TimesTenDivides(a.coefficient, b.scale - a.scale);
    if Units(a, p) == Units(b, p) {
      PowCancel(Units(a, b.scale), b.coefficient, p - b.scale);
    }
  }

  // ------------------------------------------------- spelling: whole and fraction

  function Join(whole: string, fraction: string): string {
    if fraction == [] then whole else whole + "." + fraction
  }

  /** A fraction that ends in a nonzero digit, or none. */
  predicate IsFraction(f: string) { AllDigits(f) && (f != [] ==> f[|f| - 1] != '0') }

  predicate IsSpelling(whole: string, fraction: string) { IsNumeral(whole) && IsFraction(fraction) }

  function Spelled(whole: string, fraction: string): Scaled
    requires AllDigits(whole) && AllDigits(fraction)
  {
    Scaled(ValueOf(whole + fraction), |fraction|)
  }

  lemma {:induction false} LeadingZeros(f: string)
    requires AllDigits(f) && ValueOf(f) > 0
    ensures |Digits(ValueOf(f))| <= |f| && f == Zeros(|f| - |Digits(ValueOf(f))|) + Digits(ValueOf(f))
    decreases |f|
  {
    hide ValueOf, Digits, Zeros, Pow10;
    EmptyValue();
    if f[0] != '0' {
      DigitsOfValue(f);
      assert f == Zeros(0) + f;
    } else {
      var rest := f[1..];
      assert f == ['0'] + rest;
      ZeroInFront(rest);
      LeadingZeros(rest);
      ZerosCons(|rest| - |Digits(ValueOf(rest))|, Digits(ValueOf(rest)));
    }
  }

  lemma EmptyValue()
    ensures ValueOf([]) == 0
  {}

  lemma ZeroInFront(s: string)
    requires AllDigits(s)
    ensures ValueOf(['0'] + s) == ValueOf(s)
  {
    ValueOfConcat(['0'], s);
    assert ValueOf(['0']) == 0 by { assert ['0'][..0] == []; }
  }

  lemma ZerosCons(k: nat, s: string)
    ensures ['0'] + (Zeros(k) + s) == Zeros(k + 1) + s
  {
    hide Zeros;
  }

  lemma LastDigit(s: string)
    requires AllDigits(s) && s != []
    ensures ValueOf(s) % 10 == DigitValue(s[|s| - 1])
  {
    hide ValueOf;
    UnfoldValue(s);
    LastOfTen(ValueOf(s[..|s| - 1]), DigitValue(s[|s| - 1]));
  }

  lemma UnfoldValue(s: string)
    requires AllDigits(s) && s != []
    ensures ValueOf(s) == 10 * ValueOf(s[..|s| - 1]) + DigitValue(s[|s| - 1])
  {}

  lemma LastOfTen(x: nat, d: nat)
    requires d < 10
    ensures (10 * x + d) % 10 == d
  {}

  lemma WholePrints(w: string)
    requires IsNumeral(w)
    ensures Canonical(Spelled(w, [])) && Format(Spelled(w, [])) == w
  {
    assert w + [] == w;
    DigitsOfValue(w);
    if ValueOf(w) == 0 {
      assert Digits(0) == "0";
    }
  }

  lemma ZeroDigit()
    ensures ValueOf("0") == 0
  {
    assert "0"[..0] == [];
  }

  lemma SmallPrints(f: string)
    requires IsFraction(f) && f != []
    ensures Canonical(Spelled("0", f)) && Format(Spelled("0", f)) == "0." + f
    ensures Spelled("0", f).coefficient == ValueOf(f)
  {
    hide ValueOf, Digits, Pow10, Zeros;
    ZeroDigit();
    ValueOfConcat("0", f);
    LastDigit(f);
    LeadingZeros(f);
    var v := ValueOf(f);
    assert "0." + Zeros(|f| - |Digits(v)|) + Digits(v) == "0." + f;
  }

  lemma LargePrints(w: string, f: string)
    requires IsSpelling(w, f) && w[0] != '0' && f != []
    ensures Canonical(Spelled(w, f)) && Format(Spelled(w, f)) == w + "." + f
  {
    LastDigit(w + f);
    DigitsOfValue(w + f);
    hide ValueOf;
    assert (w + f)[..|w|] == w && (w + f)[|w|..] == f;
  }

  /** Reading a spelling gives a canonical decimal that prints as that spelling. */
  lemma SpelledPrints(w: string, f: string)
    requires IsSpelling(w, f)
    ensures Canonical(Spelled(w, f)) && Format(Spelled(w, f)) == Join(w, f)
  {
    hide Format, Canonical, Spelled;
    if f == [] {
      WholePrints(w);
    } else if w[0] == '0' {
      assert w == "0";
      SmallPrints(f);
    } else {
      LargePrints(w, f);
    }
  }

  lemma PaddedSpelling(d: Scaled, digits: string) returns (f: string)
    requires Canonical(d) && d.scale > 0 && digits == Digits(d.coefficient) && |digits| <= d.scale
    ensures IsFraction(f) && |f| == d.scale && ValueOf("0" + f) == d.coefficient
  {
    hide ValueOf, Digits, Pow10, Zeros;
    ValueOfDigits(d.coefficient);
    LastDigit(digits);
    f := Zeros(d.scale - |digits|) + digits;
    ZeroDigit();
    ValueOfConcat("0", f);
    ZerosValue(d.scale - |digits|);
    ValueOfConcat(Zeros(d.scale - |digits|), digits);
  }

  lemma SplitSpelling(d: Scaled, digits: string) returns (w: string, f: string)
    requires Canonical(d) && d.scale > 0 && digits == Digits(d.coefficient) && |digits| > d.scale
    ensures IsSpelling(w, f) && |f| == d.scale && ValueOf(w + f) == d.coefficient
  {
    ValueOfDigits(d.coefficient);
    LastDigit(digits);
    w, f := digits[..|digits| - d.scale], digits[|digits| - d.scale..];
    assert w + f == digits;
    hide ValueOf, Digits;
  }

  /** Every canonical decimal has a spelling. */
  lemma CanonicalSpelling(d: Scaled) returns (w: string, f: string)
    requires Canonical(d)
    ensures IsSpelling(w, f) && Spelled(w, f) == d && Format(d) == Join(w, f)
  {
    hide ValueOf, Digits, Format;
    var digits := Digits(d.coefficient);
    if d.scale == 0 {
      ValueOfDigits(d.coefficient);
      w, f := digits, [];
      assert w + f == digits;
    } else if |digits| <= d.scale {
      w := "0";
      f := PaddedSpelling(d, digits);
    } else {
      w, f := SplitSpelling(d, digits);
    }
    SpelledPrints(w, f);
  }

  lemma JoinInjective(w: string, f: string, w': string, f': string)
    requires IsSpelling(w, f) && IsSpelling(w', f') && Join(w, f) == Join(w', f')
    ensures w == w' && f == f'
  {
    var s := Join(w, f);
    assert forall i :: 0 <= i < |w| ==> s[i] == w[i];
    assert forall i :: 0 <= i < |w'| ==> s[i] == w'[i];
    assert |w| < |s| ==> s[|w|] == '.';
    assert |w'| < |s| ==> s[|w'|] == '.';
    assert |w| == |w'|;
    assert w == s[..|w|] && w' == s[..|w'|];
    if f != [] {
      assert f == s[|w| + 1..] && f' == s[|w| + 1..];
    }
  }

  /** Printing is injective on canonical decimals. */
  lemma FormatInjective(a: Scaled, b: Scaled)
    requires Canonical(a) && Canonical(b) && Format(a) == Format(b)
    ensures a == b
  {
    var w, f := CanonicalSpelling(a);
    var w', f' := CanonicalSpelling(b);
    JoinInjective(w, f, w', f');
  }
}
