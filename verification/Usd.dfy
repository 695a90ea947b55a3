/** Half-up dollar printing to three decimals (internal/usage/reportcli/command.go). */
module Usd {
  import opened Decimal
  import opened Spelling

  /** floor(1000 * x + 1/2) for x = coefficient / 10^scale. */
  function Thousandths(d: Scaled): nat {
    HalfUp(1000 * d.coefficient, Pow10(d.scale))
  }

  /** floor(n / t + 1/2). */
  function HalfUp(n: nat, t: nat): nat
    requires t > 0
  {
    QuotientNat(2 * n + t, 2 * t);
    (2 * n + t) / (2 * t)
  }

  lemma QuotientNat(n: nat, d: nat)
    requires d > 0
    ensures n / d >= 0
  {}

  function Pad3(n: nat): (s: string)
    requires n < 1000
    ensures |s| == 3 && AllDigits(s)
  {
    [DigitChar(n / 100), DigitChar(n / 10 % 10), DigitChar(n % 10)]
  }

  /** q thousandths, with three decimals and no redundant leading zero. */
  function ThousandthsText(q: nat): string { Digits(q / 1000) + "." + Pad3(q % 1000) }

  function Nines(k: nat): (s: string)
    ensures |s| == k && AllDigits(s) && forall i :: 0 <= i < k ==> s[i] == '9'
  {
    if k == 0 then [] else Nines(k - 1) + ['9']
  }

  lemma {:induction false} NinesValue(k: nat)
    ensures ValueOf(Nines(k)) == Pow10(k) - 1
  {
    if k > 0 {
      NinesValue(k - 1);
      assert Nines(k)[..k - 1] == Nines(k - 1);
    }
  }

  lemma SplitValue(s: string, t: string, n: nat, m: nat)
    requires AllDigits(s) && AllDigits(t) && n == ValueOf(s) && m == ValueOf(t)
    ensures ValueOf(s + t) == n * Pow10(|t|) + m
  {
    ValueOfConcat(s, t);
  }

  lemma Successor(init: string, c: char)
    requires AllDigits(init) && IsDigit(c) && c != '9'
    ensures AllDigits(init + [c + 1 as char]) && ValueOf(init + [c + 1 as char]) == ValueOf(init + [c]) + 1
  {
    assert (init + [c])[..|init|] == init && (init + [c + 1 as char])[..|init|] == init;
  }

  /** Incrementing the digit before a run of nines, which become zeros, adds one. */
  lemma CarryStops(init: string, c: char, k: nat)
    requires AllDigits(init) && IsDigit(c) && c != '9'
    ensures AllDigits(init + [c + 1 as char] + Zeros(k))
    ensures ValueOf(init + [c + 1 as char] + Zeros(k)) == ValueOf(init + [c] + Nines(k)) + 1
  {
    hide ValueOf, Pow10, Nines, Zeros;
    Successor(init, c);
    NinesValue(k);
    ZerosValue(k);
    var a := ValueOf(init + [c]);
    SplitValue(init + [c], Nines(k), a, Pow10(k) - 1);
    SplitValue(init + [c + 1 as char], Zeros(k), a + 1, 0);
    assert (a + 1) * Pow10(k) == a * Pow10(k) + Pow10(k);
  }

  lemma CarryOut(k: nat)
    ensures AllDigits("1" + Zeros(k)) && ValueOf("1" + Zeros(k)) == ValueOf(Nines(k)) + 1
  {
    NinesValue(k);
    ZerosValue(k);
    assert "1"[..0] == [];
    assert ValueOf("1") == 1;
    SplitValue("1", Zeros(k), 1, 0);
  }

  lemma AllNines(s: string)
    requires forall k :: 0 <= k < |s| ==> s[k] == '9'
    ensures s == Nines(|s|)
  {}

  lemma AllZeros(s: string)
    requires forall k :: 0 <= k < |s| ==> s[k] == '0'
    ensures s == Zeros(|s|)
  {}

  /** incrementDecimal: adds one in place, growing by a leading one when every digit carries. */
  method IncrementDecimal(value: string) returns (r: string)
    requires AllDigits(value)
    ensures AllDigits(r) && ValueOf(r) == ValueOf(value) + 1
    ensures |r| == |value| || (|r| == |value| + 1 && r[0] == '1')
    ensures |r| == |value| + 1 <==> value == Nines(|value|)
  {
    hide ValueOf;
    var n := |value|;
    var digits := new char[n](i requires 0 <= i < n => value[i]);
    var index := n - 1;
    while index >= 0
      invariant -1 <= index < n
      invariant forall k :: 0 <= k <= index ==> digits[k] == value[k]
      invariant forall k :: index < k < n ==> digits[k] == '0' && value[k] == '9'
    {
      if digits[index] != '9' {
        var c := digits[index];
        digits[index] := digits[index] + 1 as char;
        r := digits[..];
        ghost var tail := n - index - 1;
        AllNines(value[index + 1..]);
        AllZeros(r[index + 1..]);
        assert value == value[..index] + [c] + Nines(tail);
        assert value[index] != Nines(n)[index];
        assert r == value[..index] + [c + 1 as char] + Zeros(tail);
        CarryStops(value[..index], c, tail);
        return;
      }
      digits[index] := '0';
      index := index - 1;
    }
    AllNines(value);
    AllZeros(digits[..]);
    CarryOut(n);
    r := "1" + digits[..];
  }

  // ------------------------------------------------------------------ rounding

  /** The rounding decision: v whole thousandths, then digit d, then a tail below it. */
  lemma RoundHalfUp(coefficient: nat, t: nat, v: nat, d: nat, tail: nat)
    requires t > 0 && d < 10 && tail < t && 10000 * coefficient == 10 * (v * t) + d * t + tail
    ensures (2000 * coefficient + t) / (2 * t) == if d >= 5 then v + 1 else v
  {
    var q := if d >= 5 then v + 1 else v;
    var r := 2000 * coefficient + t - q * (2 * t);
    Doubled(v, t);
    if d >= 5 { DigitRange(5, d, t); } else { DigitRange(d, 4, t); }
    Remainder(coefficient, t, v * t, d, d * t, tail, q * (2 * t));
    QuotientIs(2000 * coefficient + t, 2 * t, q, r);
  }

  lemma Doubled(v: nat, t: nat)
    ensures v * (2 * t) == 2 * (v * t) && (v + 1) * (2 * t) == 2 * (v * t) + 2 * t
  {}

  /** What rounding leaves, with every product named. */
  lemma Remainder(coefficient: nat, t: nat, vt: nat, d: nat, dt: nat, tail: nat, kept: nat)
    requires tail < t && 10000 * coefficient == 10 * vt + dt + tail && dt <= 9 * t
    requires if d >= 5 then 5 * t <= dt && kept == 2 * vt + 2 * t else dt <= 4 * t && kept == 2 * vt
    ensures 0 <= 2000 * coefficient + t - kept < 2 * t
  {}

  lemma DigitRange(a: nat, b: nat, t: nat)
    requires a <= b < 10
    ensures a * t <= b * t <= 9 * t
  {}

  lemma QuotientIs(n: nat, d: nat, q: nat, r: int)
    requires d > 0 && n == q * d + r && 0 <= r < d
    ensures n / d == q
  {
    var p, s := n / d, n % d;
    assert n == d * p + s;
    assert d * (p - q) == r - s;
    if p > q {
      Step(d, p - q);
    } else if p < q {
      Step(d, q - p);
    }
  }

  lemma Step(d: nat, k: nat)
    requires k > 0
    ensures d * k >= d
  {}

  /** The four digits kept: whole part, three decimals, and the digit that rounds. */
  lemma KeptDigits(w: string, f: string, g: string)
    requires IsSpelling(w, f) && g == f + "0000"
    ensures |g| >= 4 && AllDigits(w + g[..3])
    ensures var d := Spelled(w, f);
      Thousandths(d) == ValueOf(w + g[..3]) + if g[3] >= '5' then 1 else 0
  {
    var d := Spelled(w, f);
    var t := Pow10(d.scale);
    var v := ValueOf(w + g[..3]);
    var digit, rest := DigitValue(g[3]), g[4..];
    assert w + g == (w + f) + "0000";
    assert "0000" == Zeros(4) by { AllZeros("0000"); }
    ZerosValue(4);
    SplitValue(w + f, "0000", d.coefficient, 0);
    assert w + g == (w + g[..3]) + ([g[3]] + rest);
    ValueBound(rest);
    assert [g[3]][..0] == [];
    assert ValueOf([g[3]]) == digit;
    SplitValue([g[3]], rest, digit, ValueOf(rest));
    SplitValue(w + g[..3], [g[3]] + rest, v, digit * Pow10(|rest|) + ValueOf(rest));
    assert |rest| == d.scale;
    KeptValue(d, w + g, v, digit, ValueOf(rest));
  }

  lemma KeptValue(d: Scaled, text: string, v: nat, digit: nat, tail: nat)
    requires AllDigits(text) && digit < 10 && tail < Pow10(d.scale)
    requires ValueOf(text) == d.coefficient * Pow10(4)
    requires ValueOf(text) == v * Pow10(d.scale + 1) + (digit * Pow10(d.scale) + tail)
    ensures Thousandths(d) == if digit >= 5 then v + 1 else v
  {
    PowFour(d.scale);
    hide Pow10, ValueOf, AllDigits;
    var t := Pow10(d.scale);
    TenfoldOf(v, t);
    RoundHalfUp(d.coefficient, t, v, digit, tail);
  }

  lemma PowFour(n: nat)
    ensures Pow10(4) == 10000 && Pow10(n + 1) == 10 * Pow10(n)
  {
    assert Pow10(2) == 100;
  }

  lemma TenfoldOf(v: nat, t: nat)
    ensures v * (10 * t) == 10 * (v * t)
  {}

  lemma Pad3Value(s: string)
    requires |s| == 3 && AllDigits(s)
    ensures ValueOf(s) < 1000 && Pad3(ValueOf(s)) == s
  {
    ValueOfThree(s);
    hide ValueOf;
    Pad3Digits(DigitValue(s[0]), DigitValue(s[1]), DigitValue(s[2]));
  }

  lemma ValueOfThree(s: string)
    requires |s| == 3 && AllDigits(s)
    ensures ValueOf(s) == 100 * DigitValue(s[0]) + 10 * DigitValue(s[1]) + DigitValue(s[2])
  {
    assert s[..2][..1][..0] == [] && s[..2][0] == s[0] && s[..2][1] == s[1] && s[..2][..1][0] == s[0];
    assert ValueOf(s[..2][..1]) == DigitValue(s[0]);
    assert ValueOf(s[..2]) == 10 * DigitValue(s[0]) + DigitValue(s[1]);
  }

  lemma Pad3Digits(a: nat, b: nat, c: nat)
    requires a < 10 && b < 10 && c < 10
    ensures var v := 100 * a + 10 * b + c; v < 1000 && v / 100 == a && v / 10 % 10 == b && v % 10 == c
  {
    assert (100 * a + 10 * b + c) / 10 == 10 * a + b;
  }

  /** A numeral followed by three digits is the text of its value in thousandths. */
  lemma TextOfThousandths(u: string, s: string)
    requires IsNumeral(u) && |s| == 3 && AllDigits(s)
    ensures u + "." + s == ThousandthsText(ValueOf(u + s))
  {
    hide ValueOf, Pow10, Digits, Pad3;
    Pad3Value(s);
    DigitsOfValue(u);
    SplitValue(u, s, ValueOf(u), ValueOf(s));
    PowThree();
    assert (ValueOf(u) * 1000 + ValueOf(s)) / 1000 == ValueOf(u);
  }

  lemma PowThree()
    ensures Pow10(3) == 1000
  {
    assert Pow10(2) == 100;
  }

  lemma {:induction false} LeadingDigit(s: string)
    requires AllDigits(s) && s != []
    ensures s[0] != '0' <==> ValueOf(s) >= Pow10(|s| - 1)
  {
    if |s| == 1 {
      assert s[..0] == [];
      assert Pow10(0) == 1;
    } else {
      LeadingDigit(s[..|s| - 1]);
    }
  }

  /** Adding one never creates a redundant leading zero. */
  lemma StillNumeral(w: string, s: string, r: string)
    requires IsNumeral(w) && |s| == 3 && AllDigits(s) && AllDigits(r) && ValueOf(r) == ValueOf(w + s) + 1
    requires |r| == |w + s| || (|r| == |w + s| + 1 && r[0] == '1')
    ensures IsNumeral(r[..|r| - 3])
  {
    if |r| == |w| + 3 && |w| > 1 {
      LeadingDigit(w + s);
      LeadingDigit(r);
    }
  }

  /** formatUSD prints floor(1000 * x + 1/2) thousandths, for every canonical amount x. */
  method FormatUsd(amount: Scaled) returns (r: string)
    requires Canonical(amount)
    ensures r == ThousandthsText(Thousandths(amount))
  {
    hide ValueOf, Thousandths, ThousandthsText, Digits, Pad3, Nines, Zeros, Format, Canonical, FirstDot, CutAtDot, Pow10;
    var (whole, fraction) := CutAtDot(Format(amount));
    ghost var w, f := CanonicalSpelling(amount);
    CutSpelling(w, f);
    assert whole == w && fraction == f;
    fraction := fraction + "0000";
    var digits := whole + fraction[..3];
    KeptDigits(w, f, fraction);
    if fraction[3] >= '5' {
      ghost var before := digits;
      digits := IncrementDecimal(digits);
      StillNumeral(w, fraction[..3], digits);
    } else {
      assert digits[..|digits| - 3] == w;
    }
    r := digits[..|digits| - 3] + "." + digits[|digits| - 3..];
    TextOfThousandths(digits[..|digits| - 3], digits[|digits| - 3..]);
    assert digits[..|digits| - 3] + digits[|digits| - 3..] == digits;
  }

  function FirstDot(s: string): (i: nat)
    ensures i <= |s| && (i < |s| ==> s[i] == '.') && forall k :: 0 <= k < i ==> s[k] != '.'
  {
    if s == [] || s[0] == '.' then 0 else 1 + FirstDot(s[1..])
  }

  /** strings.Cut(s, "."). */
  function CutAtDot(s: string): (string, string) {
    var i := FirstDot(s);
    if i < |s| then (s[..i], s[i + 1..]) else (s, "")
  }

  lemma CutSpelling(w: string, f: string)
    requires IsSpelling(w, f)
    ensures CutAtDot(Join(w, f)) == (w, f)
  {
    var s := Join(w, f);
    assert forall k :: 0 <= k < |w| ==> s[k] == w[k];
    if f != [] {
      assert s[|w|] == '.' && s[..|w|] == w && s[|w| + 1..] == f;
    }
    assert FirstDot(s) == |w|;
  }
}
