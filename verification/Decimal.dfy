/** Decimal text and exact scaled decimals: the arithmetic that rates, amounts and printed
    costs share (internal/usage/pricing/decimal.go).  A big.Int is a mathematical integer;
    big.Int.String is Digits and SetString(s, 10) is ValueOf. */
module Decimal {

  function Pow10(n: nat): (r: nat)
    ensures r > 0
  {
    if n == 0 then 1 else 10 * Pow10(n - 1)
  }

  predicate IsDigit(c: char) { '0' <= c <= '9' }

  predicate AllDigits(s: string) { forall i :: 0 <= i < |s| ==> IsDigit(s[i]) }

  function DigitValue(c: char): (d: nat)
    requires IsDigit(c)
    ensures d < 10
  {
    c as int - '0' as int
  }

  function DigitChar(d: nat): (c: char)
    requires d < 10
    ensures IsDigit(c) && DigitValue(c) == d
  {
    ('0' as int + d) as char
  }

  function ValueOf(s: string): nat
    requires AllDigits(s)
  {
    if s == [] then 0 else 10 * ValueOf(s[..|s| - 1]) + DigitValue(s[|s| - 1])
  }

  function Digits(n: nat): (s: string)
    ensures s != [] && AllDigits(s)
  {
    if n < 10 then [DigitChar(n)] else Digits(n / 10) + [DigitChar(n % 10)]
  }

  function Zeros(k: nat): (s: string)
    ensures |s| == k && AllDigits(s)
    ensures forall i :: 0 <= i < k ==> s[i] == '0'
  {
    if k == 0 then [] else Zeros(k - 1) + ['0']
  }

  /** A decimal numeral without a redundant leading zero. */
  predicate IsNumeral(s: string) { s != [] && AllDigits(s) && (|s| == 1 || s[0] != '0') }

  // ------------------------------------------------------------ text and value

  lemma PowStep(n: nat)
    ensures Pow10(n + 1) == 10 * Pow10(n)
  {}

  lemma {:induction false} PowAdd(a: nat, b: nat)
    ensures Pow10(a + b) == Pow10(a) * Pow10(b)
  {
    hide Pow10;
    if a == 0 {
      PowZero();
    } else {
      PowAdd(a - 1, b);
      PowStep(a - 1);
      PowStep(a - 1 + b);
      TenTimes(Pow10(a - 1), Pow10(b));
    }
  }

  lemma PowZero()
    ensures Pow10(0) == 1
  {}

  lemma TenTimes(x: nat, y: nat)
    ensures 10 * (x * y) == (10 * x) * y
  {}

  lemma {:induction false} PowMonotone(a: nat, b: nat)
    requires a <= b
    ensures Pow10(a) <= Pow10(b)
    decreases b
  {
    if a < b {
      PowMonotone(a, b - 1);
    }
  }

  lemma ValueOfNothing()
    ensures ValueOf([]) == 0
  {}

  lemma ValueSnoc(s: string, c: char)
    requires AllDigits(s) && IsDigit(c)
    ensures AllDigits(s + [c]) && ValueOf(s + [c]) == 10 * ValueOf(s) + DigitValue(c)
  {
    var whole := s + [c];
    assert whole[|s|] == c && whole[..|s|] == s;
  }

  lemma DigitsSnoc(v: nat, d: nat)
    requires d < 10
    ensures v > 0 ==> Digits(10 * v + d) == Digits(v) + [DigitChar(d)]
    ensures v == 0 ==> Digits(10 * v + d) == [DigitChar(d)]
  {
    TensAndOnes(v, d);
  }

  lemma TensAndOnes(v: nat, d: nat)
    requires d < 10
    ensures (10 * v + d) / 10 == v && (10 * v + d) % 10 == d
  {}

  lemma SameChar(c: char)
    requires IsDigit(c)
    ensures DigitChar(DigitValue(c)) == c
  {}

  lemma {:induction false} ValueOfDigits(n: nat)
    ensures ValueOf(Digits(n)) == n && IsNumeral(Digits(n))
    ensures n > 0 ==> Digits(n)[0] != '0'
  {
    if n >= 10 {
      ValueOfDigits(n / 10);
      var s := Digits(n);
      assert s[..|s| - 1] == Digits(n / 10);
    } else {
      assert Digits(n)[..0] == [];
    }
  }

  lemma {:induction false} DigitsOfValue(s: string)
    requires IsNumeral(s)
    ensures Digits(ValueOf(s)) == s
  {
    hide Digits, ValueOf, DigitChar, DigitValue;
    var init, last := s[..|s| - 1], s[|s| - 1];
    assert s == init + [last];
    ValueSnoc(init, last);
    DigitsSnoc(ValueOf(init), DigitValue(last));
    SameChar(last);
    if |s| > 1 {
      DigitsOfValue(init);
      PositiveValue(init);
    } else {
      assert init == [];
      ValueOfNothing();
    }
  }

  lemma {:induction false} PositiveValue(s: string)
    requires AllDigits(s) && s != [] && s[0] != '0'
    ensures ValueOf(s) > 0
  {
    if |s| > 1 {
      PositiveValue(s[..|s| - 1]);
    }
  }

  lemma ShiftTens(x: nat, y: nat, z: nat)
    ensures 10 * (x * y + z) == x * (10 * y) + 10 * z
  {}

  lemma {:induction false} ValueOfConcat(s: string, t: string)
    requires AllDigits(s) && AllDigits(t)
    ensures ValueOf(s + t) == ValueOf(s) * Pow10(|t|) + ValueOf(t)
  {
    hide ValueOf, Pow10;
    if t == [] {
      ValueOfNothing();
      PowZero();
      assert s + t == s;
    } else {
      var init, last := t[..|t| - 1], t[|t| - 1];
      assert t == init + [last];
      ValueOfConcat(s, init);
      ValueSnoc(init, last);
      assert s + t == (s + init) + [last];
      ValueSnoc(s + init, last);
      PowStep(|init|);
      ShiftTens(ValueOf(s), Pow10(|init|), ValueOf(init));
    }
  }

  lemma {:induction false} ValueBound(s: string)
    requires AllDigits(s)
    ensures ValueOf(s) < Pow10(|s|)
  {
    if s != [] {
      ValueBound(s[..|s| - 1]);
    }
  }

  lemma {:induction false} ZerosValue(k: nat)
    ensures ValueOf(Zeros(k)) == 0
  {
    if k > 0 {
      ZerosValue(k - 1);
      assert Zeros(k)[..k - 1] == Zeros(k - 1);
    }
  }

  /** A numeral has at most k digits exactly when its value is below 10^k. */
  lemma {:induction false} DigitCount(n: nat, k: nat)
    requires k > 0
    ensures |Digits(n)| <= k <==> n < Pow10(k)
  {
    if n < 10 {
      PowMonotone(1, k);
    } else if k == 1 {
    } else {
      DigitCount(n / 10, k - 1);
      assert n / 10 < Pow10(k - 1) <==> n < 10 * Pow10(k - 1);
    }
  }
}
