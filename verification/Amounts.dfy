/** Exact dollar amounts (internal/usage/pricing/amount.go): parsing, exact addition and the
    bound on the canonical spelling.  Amounts are compared in units of 10^-24 dollars. */
module Amounts {
  import opened Wrappers
  import opened Decimal
  import opened Spelling

  const MAX_SCALE := 24
  const MAX_BYTES := 128

  /** The amounts the package builds: canonical, at most 24 fractional digits and 128 bytes. */
  predicate IsAmount(a: Scaled) { Canonical(a) && a.scale <= MAX_SCALE && |Format(a)| <= MAX_BYTES }

  const ZERO := Scaled(0, 0)

  type Amount = a: Scaled | IsAmount(a) witness Scaled(0, 0)

  function Worth(a: Amount): nat { Units(a, MAX_SCALE) }

  /** newAmount's overflow check. */
  function Fit(d: Scaled): Option<Amount>
    requires Canonical(d)
  {
    if d.scale > MAX_SCALE || |Format(d)| > MAX_BYTES then None else Some(d)
  }

  /** The amount worth u units of 10^-24 dollars, when it is representable. */
  function FromUnits(u: nat): (r: Option<Amount>)
    ensures r.Some? ==> Worth(r.value) == u
  {
    StripExact(u, MAX_SCALE);
    Fit(Strip(u, MAX_SCALE))
  }

  method NewAmount(coefficient: nat, scale: nat) returns (r: Option<Amount>)
    ensures Canonical(Strip(coefficient, scale)) && r == Fit(Strip(coefficient, scale))
  {
    StripExact(coefficient, scale);
    if coefficient == 0 {
      assert Format(ZERO) == "0";
      return Some(ZERO);
    }
    var c: nat, s: nat := coefficient, scale;
    while s > 0 && c % 10 == 0
      invariant c != 0 && Strip(c, s) == Strip(coefficient, scale)
      decreases s
    {
      c, s := c / 10, s - 1;
    }
    var amount := Scaled(c, s);
    if s > MAX_SCALE || |Format(amount)| > MAX_BYTES {
      return None;
    }
    return Some(amount);
  }

  /** An amount is determined by its worth. */
  lemma WorthFromUnits(a: Amount)
    ensures FromUnits(Worth(a)) == Some(a)
  {
    StripExact(Worth(a), MAX_SCALE);
    CanonicalUnique(Strip(Worth(a), MAX_SCALE), a, MAX_SCALE);
  }

  /** Any coefficient and scale up to 24 digits gives the amount of the same worth. */
  lemma StripIsFromUnits(coefficient: nat, scale: nat)
    requires scale <= MAX_SCALE
    ensures Strip(coefficient, scale) == Strip(coefficient * Pow10(MAX_SCALE - scale), MAX_SCALE)
  {
    hide Strip, Pow10, Canonical;
    var u := coefficient * Pow10(MAX_SCALE - scale);
    StripExact(coefficient, scale);
    StripExact(u, MAX_SCALE);
    UnitsShift(Strip(coefficient, scale), scale, MAX_SCALE);
    hide Units;
    CanonicalUnique(Strip(coefficient, scale), Strip(u, MAX_SCALE), MAX_SCALE);
  }

  lemma SumUnits(a: Amount, b: Amount, scale: nat)
    requires a.scale <= scale <= MAX_SCALE && b.scale <= scale
    ensures (Units(a, scale) + Units(b, scale)) * Pow10(MAX_SCALE - scale) == Worth(a) + Worth(b)
  {
    hide Units, Pow10, IsAmount;
    UnitsShift(a, scale, MAX_SCALE);
    UnitsShift(b, scale, MAX_SCALE);
    Distribute(Units(a, scale), Units(b, scale), Pow10(MAX_SCALE - scale));
  }

  lemma Distribute(a: nat, b: nat, c: nat)
    ensures (a + b) * c == a * c + b * c
  {}

  /** Add is exact: it returns the amount worth the sum, or reports overflow. */
  method Add(a: Amount, other: Amount) returns (r: Option<Amount>)
    ensures r == FromUnits(Worth(a) + Worth(other))
  {
    hide Format, Strip, Canonical, Pow10;
    var scale := a.scale;
    if other.scale > scale {
      scale := other.scale;
    }
    var left, right := a.coefficient, other.coefficient;
    assert Pow10(0) == 1 by { PowZero(); }
    if a.scale < scale {
      left := left * Pow10(scale - a.scale);
    }
    if other.scale < scale {
      right := right * Pow10(scale - other.scale);
    }
    assert left == Units(a, scale) && right == Units(other, scale);
    r := NewAmount(left + right, scale);
    StripIsFromUnits(left + right, scale);
    SumUnits(a, other, scale);
  }

  lemma PowZero()
    ensures Pow10(0) == 1
  {}

  // ---------------------------------------------------------- order of addition

  /** Adding a list of amounts one by one, from the left. */
  function SumFrom(start: Amount, amounts: seq<Amount>): Option<Amount>
    decreases |amounts|
  {
    if amounts == [] then Some(start)
    else
      var next := FromUnits(Worth(start) + Worth(amounts[0]));
      if next.None? then None else SumFrom(next.value, amounts[1..])
  }

  function TotalWorth(amounts: seq<Amount>): nat {
    if amounts == [] then 0 else Worth(amounts[0]) + TotalWorth(amounts[1..])
  }

  lemma {:induction false} SumIsExact(start: Amount, amounts: seq<Amount>)
    ensures var r := SumFrom(start, amounts);
      r.Some? ==> Worth(r.value) == Worth(start) + TotalWorth(amounts)
    decreases |amounts|
  {
    hide IsAmount, Worth, FromUnits;
    if amounts != [] && FromUnits(Worth(start) + Worth(amounts[0])).Some? {
      SumIsExact(FromUnits(Worth(start) + Worth(amounts[0])).value, amounts[1..]);
    }
  }

  lemma {:induction false} TotalWorthAt(amounts: seq<Amount>, i: nat)
    requires i < |amounts|
    ensures TotalWorth(amounts) == Worth(amounts[i]) + TotalWorth(amounts[..i] + amounts[i + 1..])
    decreases |amounts|
  {
    hide IsAmount, Worth;
    var rest := amounts[..i] + amounts[i + 1..];
    if i == 0 {
      assert rest == amounts[1..];
    } else {
      TotalWorthAt(amounts[1..], i - 1);
      assert rest[1..] == amounts[1..][..i - 1] + amounts[1..][i..];
    }
  }

  lemma WithoutOne(xs: seq<Amount>, ys: seq<Amount>) returns (i: nat, rest: seq<Amount>)
    requires multiset(xs) == multiset(ys) && xs != []
    ensures i < |ys| && ys[i] == xs[0] && rest == ys[..i] + ys[i + 1..]
    ensures multiset(xs[1..]) == multiset(rest)
  {
    hide IsAmount;
    assert xs[0] in multiset(ys);
    i :| 0 <= i < |ys| && ys[i] == xs[0];
    rest := ys[..i] + ys[i + 1..];
    assert ys == ys[..i] + [ys[i]] + ys[i + 1..];
    assert xs == [xs[0]] + xs[1..];
    assert multiset(rest) == multiset(ys) - multiset{xs[0]};
    assert multiset(xs[1..]) == multiset(xs) - multiset{xs[0]};
  }

  lemma {:induction false} TotalWorthOrder(xs: seq<Amount>, ys: seq<Amount>)
    requires multiset(xs) == multiset(ys)
    ensures TotalWorth(xs) == TotalWorth(ys)
    decreases |xs|
  {
    hide IsAmount, Worth;
    if xs == [] {
      assert |multiset(ys)| == |ys|;
    } else {
      var i, rest := WithoutOne(xs, ys);
      TotalWorthOrder(xs[1..], rest);
      TotalWorthAt(ys, i);
    }
  }

  /** Two orders of summation that both stay representable give the identical amount. */
  lemma SumOrderIndependent(start: Amount, xs: seq<Amount>, ys: seq<Amount>)
    requires multiset(xs) == multiset(ys) && SumFrom(start, xs).Some? && SumFrom(start, ys).Some?
    ensures SumFrom(start, xs) == SumFrom(start, ys)
  {
    SumIsExact(start, xs);
    SumIsExact(start, ys);
    TotalWorthOrder(xs, ys);
    CanonicalUnique(SumFrom(start, xs).value, SumFrom(start, ys).value, MAX_SCALE);
  }

  /** Anything below 10^100 units (10^76 dollars) is representable. */
  lemma SmallWorthFits(u: nat)
    requires u < Pow10(100)
    ensures FromUnits(u).Some?
  {
    hide Pow10, Strip, Canonical, Digits;
    StripExact(u, MAX_SCALE);
    var d := Strip(u, MAX_SCALE);
    NotLess(d.coefficient, Pow10(MAX_SCALE - d.scale));
    DigitCount(d.coefficient, 100);
    FormatLength(d);
  }

  lemma NotLess(c: nat, p: nat)
    requires p > 0
    ensures c <= c * p
  {}

  lemma FormatLength(d: Scaled)
    ensures |Format(d)| <= 2 + d.scale + |Digits(d.coefficient)|
  {
    hide Digits;
  }

  // -------------------------------------------------------------------- parsing

  /** What ParseAmount accepts: a numeral, optionally a nonempty fraction that does not end
      in zero, within the two bounds. */
  ghost predicate IsAmountText(raw: string) {
    |raw| <= MAX_BYTES && exists w, f :: IsSpelling(w, f) && |f| <= MAX_SCALE && Join(w, f) == raw
  }

  /** Position of the first dot, or the length: strings.Cut. */
  function DotIndex(s: string, from: nat): (i: nat)
    requires from <= |s|
    ensures from <= i <= |s| && (i < |s| ==> s[i] == '.')
    ensures forall k :: from <= k < i ==> s[k] != '.'
    decreases |s| - from
  {
    if from == |s| || s[from] == '.' then from else DotIndex(s, from + 1)
  }

  /** Scans one run of bytes, as the two range loops of ParseAmount do. */
  method CheckDigits(s: string) returns (ok: bool)
    ensures ok <==> AllDigits(s)
  {
    for i := 0 to |s|
      invariant forall k :: 0 <= k < i ==> IsDigit(s[k])
    {
      if s[i] < '0' || s[i] > '9' {
        return false;
      }
    }
    return true;
  }

  lemma TextParts(raw: string, w: string, f: string)
    requires IsSpelling(w, f) && Join(w, f) == raw
    ensures DotIndex(raw, 0) == |w| && raw[..|w|] == w
    ensures if f == [] then |w| == |raw| else |w| < |raw| && raw[|w| + 1..] == f
  {
    assert forall k :: 0 <= k < |w| ==> raw[k] == w[k];
    if f != [] {
      assert raw[|w|] == '.';
    }
  }

  lemma RejectedText(raw: string)
    requires var i := DotIndex(raw, 0);
      !IsNumeral(raw[..i]) || (i < |raw| && (raw[i + 1..] == [] || |raw[i + 1..]| > MAX_SCALE || !IsFraction(raw[i + 1..])))
    ensures !IsAmountText(raw)
  {
    forall w, f | IsSpelling(w, f) && |f| <= MAX_SCALE && Join(w, f) == raw
      ensures false
    {
      TextParts(raw, w, f);
    }
  }

  /** ParseAmount is the exact inverse of String on amounts, and accepts exactly the
      canonical spellings. */
  method ParseAmount(raw: string) returns (r: Option<Amount>)
    ensures r.Some? <==> IsAmountText(raw)
    ensures forall x: Amount :: r == Some(x) <==> Format(x) == raw
  {
    if raw == "" || |raw| > MAX_BYTES {
      EmptyText(raw);
      return None;
    }
    var cut := DotIndex(raw, 0);
    var dotted := cut < |raw|;
    var integer, fraction := raw[..cut], if dotted then raw[cut + 1..] else "";
    if integer == "" || integer[0] < '0' || integer[0] > '9' || (|integer| > 1 && integer[0] == '0') {
      RejectedText(raw);
      NoAmount(raw);
      return None;
    }
    var ok := CheckDigits(integer);
    if !ok {
      RejectedText(raw);
      NoAmount(raw);
      return None;
    }
    if dotted {
      if fraction == "" || |fraction| > MAX_SCALE || fraction[|fraction| - 1] == '0' {
        RejectedText(raw);
        NoAmount(raw);
        return None;
      }
      ok := CheckDigits(fraction);
      if !ok {
        RejectedText(raw);
        NoAmount(raw);
        return None;
      }
    }
    assert raw == Join(integer, fraction);
    var coefficient := ValueOf(integer + fraction);
    AcceptedText(raw, integer, fraction);
    if coefficient == 0 && raw != "0" {
      assert false;
    }
    r := Some(Scaled(coefficient, |fraction|));
  }

  lemma EmptyText(raw: string)
    requires raw == "" || |raw| > MAX_BYTES
    ensures !IsAmountText(raw) && forall x: Amount :: Format(x) != raw
  {}

  lemma NoAmount(raw: string)
    requires !IsAmountText(raw)
    ensures forall x: Amount :: Format(x) != raw
  {
    forall x: Amount | Format(x) == raw
      ensures false
    {
      var w, f := CanonicalSpelling(x);
    }
  }

  lemma AcceptedText(raw: string, w: string, f: string)
    requires IsSpelling(w, f) && |f| <= MAX_SCALE && Join(w, f) == raw && |raw| <= MAX_BYTES
    ensures IsAmountText(raw) && (Spelled(w, f).coefficient == 0 ==> raw == "0")
    ensures IsAmount(Spelled(w, f)) && forall x: Amount :: x == Spelled(w, f) <==> Format(x) == raw
  {
    SpelledPrints(w, f);
    forall x: Amount | Format(x) == raw
      ensures x == Spelled(w, f)
    {
      FormatInjective(x, Spelled(w, f));
    }
  }
}
