/** Exact dollar-per-million rates (internal/usage/pricing/rate.go): parsing of nonnegative
    JSON numbers (section 6 of RFC 8259) into canonical bounded decimals. */
module Rates {
  import opened Wrappers
  import opened Decimal
  import opened Spelling

  const MAX_EXPANDED_DIGITS := 18
  const MAX_SOURCE_BYTES := 128
  const MAX_EXPONENT := 36

  function IntegerDigits(d: Scaled): int {
    var n := |Digits(d.coefficient)| - d.scale;
    if n < 1 then 1 else n
  }

  predicate InBounds(d: Scaled) { IntegerDigits(d) <= MAX_EXPANDED_DIGITS && d.scale <= MAX_EXPANDED_DIGITS }

  /** The bounds are on the value: below ten to the eighteenth, with at most eighteen decimals. */
  lemma BoundsAre(d: Scaled)
    ensures InBounds(d) <==> d.coefficient < Pow10(18 + d.scale) && d.scale <= 18
  {
    DigitCount(d.coefficient, 18 + d.scale);
    hide Pow10;
  }

  predicate IsRate(d: Scaled) { Canonical(d) && InBounds(d) }

  type Rate = d: Scaled | IsRate(d) witness Scaled(0, 0)

  // -------------------------------------------------------------------- grammar

  datatype Exponent = Exponent(letter: char, sign: string, digits: string)

  // An empty fraction stands for no fraction at all.
  datatype Number = Number(integer: string, fraction: string, exponent: Option<Exponent>)

  predicate IsExponent(e: Exponent) {
    (e.letter == 'e' || e.letter == 'E') && (e.sign == "" || e.sign == "+" || e.sign == "-") && e.digits != [] && AllDigits(e.digits)
  }

  /** A nonnegative JSON number. */
  predicate IsNumber(n: Number) {
    IsNumeral(n.integer) && AllDigits(n.fraction) && (n.exponent.Some? ==> IsExponent(n.exponent.value))
  }

  function ExponentText(e: Option<Exponent>): string {
    match e
    case None => ""
    case Some(e) => [e.letter] + e.sign + e.digits
  }

  function Text(n: Number): string { Join(n.integer, n.fraction) + ExponentText(n.exponent) }

  function ExponentValue(e: Option<Exponent>): int
    requires e.Some? ==> IsExponent(e.value)
  {
    match e
    case None => 0
    case Some(e) => if e.sign == "-" then 0 - ValueOf(e.digits) else ValueOf(e.digits)
  }

  /** The source limits: 128 bytes, a two-digit exponent of at most 36. */
  predicate Small(n: Number)
    requires IsNumber(n)
  {
    && |Text(n)| <= MAX_SOURCE_BYTES
    && (n.exponent.Some? ==> |n.exponent.value.digits| <= 2 && ValueOf(n.exponent.value.digits) <= MAX_EXPONENT)
  }

  /** The least-scale decimal of coefficient * 10^-scale, for a scale of either sign. */
  function Reduced(coefficient: nat, scale: int): Scaled {
    if scale < 0 then Strip(coefficient * Pow10(-scale), 0) else Strip(coefficient, scale)
  }

  function NumberDecimal(n: Number): Scaled
    requires IsNumber(n)
  {
    Reduced(ValueOf(n.integer + n.fraction), |n.fraction| - ExponentValue(n.exponent))
  }

  /** The rate of a number, when its source and its expansion are within bounds. */
  function NumberRate(n: Number): Option<Scaled>
    requires IsNumber(n)
  {
    if Small(n) && InBounds(NumberDecimal(n)) then Some(NumberDecimal(n)) else None
  }

  // ------------------------------------------------------------------- scanning

  /** Where the run of digits that starts at i ends. */
  function RunEnd(s: string, i: nat): (r: nat)
    requires i <= |s|
    ensures i <= r <= |s| && AllDigits(s[i..r]) && (r < |s| ==> !IsDigit(s[r]))
    decreases |s| - i
  {
    if i < |s| && IsDigit(s[i]) then
      var r := RunEnd(s, i + 1);
      assert s[i..r] == [s[i]] + s[i + 1..r];
      r
    else i
  }

  /** A digit run is the only digit string there that a non-digit follows. */
  lemma {:induction false} RunIs(s: string, i: nat, r: nat)
    requires i <= r <= |s| && AllDigits(s[i..r]) && (r < |s| ==> !IsDigit(s[r]))
    ensures RunEnd(s, i) == r
    decreases r - i
  {
    if i < r {
      assert s[i] == s[i..r][0];
      assert s[i + 1..r] == s[i..r][1..];
      RunIs(s, i + 1, r);
    }
  }

  /** Reads an exponent part that starts at i and must reach the end. */
  function ScanExponent(s: string, i: nat): Option<Option<Exponent>>
    requires i <= |s|
  {
    if i == |s| then Some(None)
    else if s[i] != 'e' && s[i] != 'E' then None
    else
      var j := if i + 1 < |s| && (s[i + 1] == '+' || s[i + 1] == '-') then i + 2 else i + 1;
      if RunEnd(s, j) == j || RunEnd(s, j) != |s| then None
      else Some(Some(Exponent(s[i], s[i + 1..j], s[j..])))
  }

  function Scan(s: string): Option<Number> {
    var a := RunEnd(s, 0);
    if !IsNumeral(s[..a]) then None
    else if a < |s| && s[a] == '.' then
      var b := RunEnd(s, a + 1);
      if b == a + 1 || ScanExponent(s, b).None? then None
      else Some(Number(s[..a], s[a + 1..b], ScanExponent(s, b).value))
    else if ScanExponent(s, a).None? then None
    else Some(Number(s[..a], "", ScanExponent(s, a).value))
  }

  lemma ScanExponentSound(s: string, i: nat)
    requires i <= |s| && ScanExponent(s, i).Some?
    ensures var e := ScanExponent(s, i).value; (e.Some? ==> IsExponent(e.value)) && ExponentText(e) == s[i..]
  {
    if i < |s| {
      var j := if i + 1 < |s| && (s[i + 1] == '+' || s[i + 1] == '-') then i + 2 else i + 1;
      assert s[j..RunEnd(s, j)] == s[j..];
      assert s[i..] == [s[i]] + s[i + 1..j] + s[j..];
    }
  }

  /** What Scan reads is a JSON number spelled by the text. */
  lemma ScanSound(s: string)
    requires Scan(s).Some?
    ensures IsNumber(Scan(s).value) && Text(Scan(s).value) == s
  {
    hide ScanExponent, RunEnd, ExponentText, IsExponent;
    var a := RunEnd(s, 0);
    assert s[0..a] == s[..a];
    if a < |s| && s[a] == '.' {
      var b := RunEnd(s, a + 1);
      ScanExponentSound(s, b);
      assert s == s[..a] + "." + s[a + 1..b] + s[b..];
    } else {
      ScanExponentSound(s, a);
      assert s == s[..a] + s[a..];
    }
  }

  lemma ScanExponentComplete(s: string, i: nat, e: Option<Exponent>)
    requires i <= |s| && (e.Some? ==> IsExponent(e.value)) && s[i..] == ExponentText(e)
    ensures ScanExponent(s, i) == Some(e)
  {
    if e.Some? {
      var j := i + 1 + |e.value.sign|;
      ExponentParts(s, i, e.value);
      assert s[j..|s|] == s[j..];
      RunIs(s, j, |s|);
      hide RunEnd, AllDigits;
    }
  }

  /** Where the parts of an exponent lie. */
  lemma ExponentParts(s: string, i: nat, e: Exponent)
    requires i <= |s| && IsExponent(e) && s[i..] == ExponentText(Some(e))
    ensures var j := i + 1 + |e.sign|;
      && j < |s| && s[i] == e.letter && s[i + 1..j] == e.sign && s[j..] == e.digits && s[j] == e.digits[0]
      && (e.sign != "" ==> j == i + 2 && s[i + 1] == e.sign[0])
  {
    var head, n := [e.letter] + e.sign, 1 + |e.sign|;
    assert s[i..] == head + e.digits;
    SliceParts(s, i, head, e.digits);
    assert s[i] == s[i..i + n][0] && s[i + 1..i + n] == s[i..i + n][1..];
    assert s[i + n] == s[i + n..][0];
  }

  lemma SliceParts(s: string, i: nat, head: string, tail: string)
    requires i <= |s| && s[i..] == head + tail
    ensures i + |head| <= |s| && s[i..i + |head|] == head && s[i + |head|..] == tail
  {
    assert s[i..][..|head|] == head && s[i..][|head|..] == tail;
  }

  /** A text of two parts: where they lie, and the digit run that the first part may end in. */
  lemma TextParts(s: string, head: string, e: Option<Exponent>)
    requires s == head + ExponentText(e) && (e.Some? ==> IsExponent(e.value))
    ensures s[..|head|] == head && s[|head|..] == ExponentText(e) && (|head| < |s| ==> !IsDigit(s[|head|]) && s[|head|] != '.')
  {}

  lemma FractionParts(s: string, integer: string, fraction: string, b: nat)
    requires b == |integer| + 1 + |fraction| <= |s| && s[..b] == integer + "." + fraction
    ensures var a := |integer|; s[..a] == integer && s[a] == '.' && s[a + 1..b] == fraction
  {
    var head, a := s[..b], |integer|;
    assert head[..a] == integer && head[a] == '.' && head[a + 1..] == fraction;
  }

  /** Every JSON number is read back from its text: the grammar is unambiguous. */
  lemma ScanComplete(n: Number)
    requires IsNumber(n)
    ensures Scan(Text(n)) == Some(n)
  {
    hide ExponentText, IsExponent, ScanExponent, RunEnd;
    var s, a := Text(n), |n.integer|;
    if n.fraction == [] {
      assert s == n.integer + ExponentText(n.exponent);
      TextParts(s, n.integer, n.exponent);
      assert s[0..a] == s[..a];
      RunIs(s, 0, a);
      ScanExponentComplete(s, a, n.exponent);
    } else {
      var b := a + 1 + |n.fraction|;
      var head := n.integer + "." + n.fraction;
      assert s == head + ExponentText(n.exponent);
      TextParts(s, head, n.exponent);
      FractionParts(s, n.integer, n.fraction, b);
      assert s[0..a] == s[..a];
      RunIs(s, 0, a);
      RunIs(s, a + 1, b);
      ScanExponentComplete(s, b, n.exponent);
    }
  }

  // -------------------------------------------------------------------- parsing

  /** The rate a text denotes: None unless it is a JSON number within all bounds. */
  function TextRate(raw: string): Option<Scaled> {
    if Scan(raw).None? then None
    else
      ScanSound(raw);
      NumberRate(Scan(raw).value)
  }

  /** Strips trailing zeros as the last loop of ParseRate does. */
  method StripZeros(coefficient: nat, scale: nat) returns (d: Scaled)
    ensures d == Strip(coefficient, scale)
  {
    var c: nat, s: nat := coefficient, scale;
    while s > 0 && c != 0 && c % 10 == 0
      invariant Strip(c, s) == Strip(coefficient, scale)
      invariant c == 0 <==> coefficient == 0
      decreases s
    {
      c, s := c / 10, s - 1;
    }
    if c == 0 {
      s := 0;
    }
    d := Scaled(c, s);
  }

  /** Advances over a run of digits, as the inner loops of ParseRate do. */
  method SkipDigits(raw: string, start: nat) returns (index: nat)
    requires start <= |raw|
    ensures index == RunEnd(raw, start)
  {
    index := start;
    while index < |raw| && IsDigit(raw[index])
      invariant start <= index <= |raw| && RunEnd(raw, index) == RunEnd(raw, start)
    {
      index := index + 1;
    }
  }

  /** The digits of an exponent: more than two, or none, or a value above 36, is an error. */
  method ReadExponent(raw: string, start: nat) returns (ok: bool, index: nat, exponent: nat)
    requires start <= |raw|
    ensures ok <==> start < RunEnd(raw, start) <= start + 2 && ValueOf(raw[start..RunEnd(raw, start)]) <= MAX_EXPONENT
    ensures ok ==> index == RunEnd(raw, start) && exponent == ValueOf(raw[start..index])
  {
    ok, index, exponent := true, start, 0;
    assert raw[start..start] == [];
    while index < |raw| && IsDigit(raw[index])
      invariant start <= index <= |raw| && index <= start + 2 && RunEnd(raw, index) == RunEnd(raw, start)
      invariant AllDigits(raw[start..index]) && exponent == ValueOf(raw[start..index])
    {
      if index - start >= 2 {
        return false, index, exponent;
      }
      assert raw[start..index + 1][..index - start] == raw[start..index];
      exponent := exponent * 10 + DigitValue(raw[index]);
      index := index + 1;
    }
    ok := start != index && exponent <= MAX_EXPONENT;
  }

  /** The integer part: "0" alone, or a run that starts with another digit. */
  method ReadInteger(raw: string) returns (ok: bool, index: nat)
    requires raw != ""
    ensures ok <==> IsNumeral(raw[..RunEnd(raw, 0)])
    ensures ok ==> index == RunEnd(raw, 0)
  {
    index := 0;
    assert raw[0..RunEnd(raw, 0)] == raw[..RunEnd(raw, 0)];
    if raw[0] == '0' {
      index := 1;
      ok := !(index < |raw| && IsDigit(raw[index]));
      assert RunEnd(raw, 0) == RunEnd(raw, 1) && (!ok ==> RunEnd(raw, 1) == RunEnd(raw, 2));
    } else if '1' <= raw[0] <= '9' {
      index := SkipDigits(raw, 0);
      ok := true;
      assert RunEnd(raw, 0) == RunEnd(raw, 1);
    } else {
      assert RunEnd(raw, 0) == 0;
      ok := false;
    }
  }

  lemma NoExponent(raw: string, b: nat)
    requires b <= |raw|
    ensures b == |raw| ==> ScanExponent(raw, b) == Some(None)
    ensures b < |raw| && raw[b] != 'e' && raw[b] != 'E' ==> ScanExponent(raw, b).None?
  {}

  /** What the scan finds after the exponent letter and the sign. */
  lemma ExponentAt(raw: string, b: nat, start: nat)
    requires b < |raw| && (raw[b] == 'e' || raw[b] == 'E')
    requires start == if b + 1 < |raw| && (raw[b + 1] == '+' || raw[b + 1] == '-') then b + 2 else b + 1
    ensures raw[start..|raw|] == raw[start..]
    ensures ScanExponent(raw, b).Some? <==> start < RunEnd(raw, start) == |raw|
    ensures ScanExponent(raw, b).Some? ==> ScanExponent(raw, b).value.Some?
    ensures ScanExponent(raw, b).Some? ==>
      var e := ScanExponent(raw, b).value.value;
      IsExponent(e) && e.digits == raw[start..] && (e.sign == "-" <==> start == b + 2 && raw[b + 1] == '-')
  {
    if ScanExponent(raw, b).Some? { ScanExponentSound(raw, b); }
    hide IsExponent, RunEnd, AllDigits;
  }

  /** The exponent part, if any: everything from index b to the end of the number. */
  method ReadExponentPart(raw: string, b: nat) returns (ok: bool, exponent: int)
    requires b <= |raw|
    ensures ok <==> ScanExponent(raw, b).Some? && SmallExponent(ScanExponent(raw, b).value)
    ensures ok ==> exponent == ExponentValue(ScanExponent(raw, b).value)
  {
    hide ScanExponent, RunEnd, ValueOf, IsExponent, AllDigits;
    exponent := 0;
    NoExponent(raw, b);
    if b < |raw| && (raw[b] == 'e' || raw[b] == 'E') {
      var index := b + 1;
      var sign: int := 1;
      if index < |raw| && (raw[index] == '+' || raw[index] == '-') {
        if raw[index] == '-' {
          sign := -1;
        }
        index := index + 1;
      }
      var start := index;
      ExponentAt(raw, b, start);
      var end, value;
      ok, end, value := ReadExponent(raw, start);
      ok := ok && end == |raw|;
      exponent := if ok then value * sign else 0;
    } else {
      ok := b == |raw|;
    }
  }

  predicate SmallExponent(e: Option<Exponent>) {
    e.Some? ==> IsExponent(e.value) && |e.value.digits| <= 2 && ValueOf(e.value.digits) <= MAX_EXPONENT
  }

  /** ParseRate returns the rate of the one JSON number its text spells, or an error. */
  method ParseRate(raw: string) returns (r: Option<Scaled>)
    ensures r == TextRate(raw)
  {
    hide ScanExponent, RunEnd, ExponentText, Strip, Digits, ValueOf, Pow10, Text;
    if raw == "" || |raw| > MAX_SOURCE_BYTES {
      EmptyOrLong(raw);
      return None;
    }
    var ok, index := ReadInteger(raw);
    if !ok {
      return None;
    }
    var integer, fraction := raw[..index], "";
    if index < |raw| && raw[index] == '.' {
      var start := index + 1;
      index := SkipDigits(raw, start);
      if start == index {
        return None;
      }
      fraction := raw[start..index];
    }
    var exponent;
    ok, exponent := ReadExponentPart(raw, index);
    if !ok {
      BadExponent(raw, |integer|, index);
      return None;
    }
    ghost var n := Scan(raw).value;
    ScanSound(raw);
    assert n == Number(integer, fraction, ScanExponent(raw, index).value) && Small(n);
    r := ExpandRate(integer, fraction, exponent);
  }

  /** The arithmetic half of ParseRate: expand, reduce, check the bounds. */
  method ExpandRate(integer: string, fraction: string, exponent: int) returns (r: Option<Scaled>)
    requires AllDigits(integer) && AllDigits(fraction)
    ensures var d := Reduced(ValueOf(integer + fraction), |fraction| - exponent);
      r == if InBounds(d) then Some(d) else None
  {
    var coefficient: nat := ValueOf(integer + fraction);
    var scale: int := |fraction| - exponent;
    if scale < 0 {
      coefficient := coefficient * Pow10(-scale);
      scale := 0;
    }
    var d := StripZeros(coefficient, scale);
    if IntegerDigits(d) > MAX_EXPANDED_DIGITS || d.scale > MAX_EXPANDED_DIGITS {
      return None;
    }
    return Some(d);
  }

  lemma EmptyOrLong(raw: string)
    requires raw == "" || |raw| > MAX_SOURCE_BYTES
    ensures TextRate(raw) == None
  {
    if Scan(raw).Some? {
      ScanSound(raw);
    }
  }

  lemma BadExponent(raw: string, a: nat, b: nat)
    requires a == RunEnd(raw, 0) && IsNumeral(raw[..a])
    requires if a < |raw| && raw[a] == '.' then b == RunEnd(raw, a + 1) > a + 1 else a == b
    requires !(ScanExponent(raw, b).Some? && SmallExponent(ScanExponent(raw, b).value))
    ensures TextRate(raw) == None
  {
    hide ScanExponent, RunEnd, ExponentText, NumberDecimal, Text;
    if Scan(raw).Some? {
      ScanSound(raw);
    }
  }

  // --------------------------------------------------------------- main results

  /** The parse of a text is the rate of any JSON number that spells it, and a text that
      spells none is rejected. */
  lemma ParseIsGrammar(raw: string)
    ensures forall n :: IsNumber(n) && Text(n) == raw ==> TextRate(raw) == NumberRate(n)
    ensures TextRate(raw).Some? ==> exists n :: IsNumber(n) && Text(n) == raw
  {
    hide Text, NumberRate, Scan;
    forall n | IsNumber(n) && Text(n) == raw
      ensures TextRate(raw) == NumberRate(n)
    {
      ScanComplete(n);
    }
    if Scan(raw).Some? {
      ScanSound(raw);
    }
  }

  function NumberScale(n: Number): int
    requires IsNumber(n)
  {
    |n.fraction| - ExponentValue(n.exponent)
  }

  function Coefficient(n: Number): nat
    requires IsNumber(n)
  {
    ValueOf(n.integer + n.fraction)
  }

  /** Cross-multiplied equality of d and coefficient * 10^-scale. */
  predicate Equals(d: Scaled, coefficient: nat, scale: int)
    requires scale >= -MAX_EXPONENT
  {
    d.coefficient * Pow10(MAX_EXPONENT + scale) == coefficient * Pow10(MAX_EXPONENT + d.scale)
  }

  lemma PowProduct(x: nat, a: nat, b: nat)
    ensures x * Pow10(a + b) == x * Pow10(a) * Pow10(b)
  {
    PowAdd(a, b);
    hide Pow10;
    Associate(x, Pow10(a), Pow10(b));
  }

  lemma Associate(x: nat, y: nat, z: nat)
    ensures x * (y * z) == x * y * z
  {}

  lemma ReducedExact(c: nat, s: int)
    requires s >= -MAX_EXPONENT
    ensures Canonical(Reduced(c, s)) && Equals(Reduced(c, s), c, s)
  {
    hide Strip, Canonical, Pow10;
    var d := Reduced(c, s);
    if s < 0 {
      StripExact(c * Pow10(-s), 0);
      PowProduct(c, -s, MAX_EXPONENT + s);
      assert d.coefficient == c * Pow10(-s) by { PowZero(d.coefficient); }
    } else {
      StripExact(c, s);
      PowProduct(d.coefficient, s - d.scale, MAX_EXPONENT + d.scale);
    }
  }

  lemma PowZero(x: nat)
    ensures x * Pow10(0) == x
  {}

  /** An accepted number parses to a bounded canonical rate of exactly its value. */
  lemma RateExact(n: Number)
    requires IsNumber(n) && NumberRate(n).Some?
    ensures IsRate(NumberRate(n).value) && NumberScale(n) >= -MAX_EXPONENT
    ensures Equals(NumberRate(n).value, Coefficient(n), NumberScale(n))
  {
    hide ValueOf, Strip, Pow10;
    ReducedExact(Coefficient(n), NumberScale(n));
  }

  predicate SameValue(a: Number, b: Number)
    requires IsNumber(a) && IsNumber(b)
  {
    NumberScale(a) >= -MAX_EXPONENT && NumberScale(b) >= -MAX_EXPONENT &&
    Coefficient(a) * Pow10(MAX_EXPONENT + NumberScale(b)) == Coefficient(b) * Pow10(MAX_EXPONENT + NumberScale(a))
  }

  lemma CrossCancel(u: nat, v: nat, k: nat, l: nat, c: nat, e: nat, m: nat)
    requires k > 0 && l > 0 && u * k == c * m && v * l == e * m && c * l == e * k
    ensures u == v
  {
    assert u * k * l == c * l * m;
    assert v * l * k == e * k * m;
    assert u * (k * l) == v * (k * l);
  }

  lemma UnitsOf(d: Scaled, c: nat, s: int)
    requires d.scale <= MAX_EXPANDED_DIGITS && s >= -MAX_EXPONENT && Equals(d, c, s)
    ensures Units(d, MAX_EXPANDED_DIGITS) * Pow10(MAX_EXPONENT + s) == c * Pow10(MAX_EXPONENT + MAX_EXPANDED_DIGITS)
  {
    hide Pow10;
    var k, p := Pow10(MAX_EXPONENT + s), Pow10(MAX_EXPANDED_DIGITS - d.scale);
    PowProduct(c, MAX_EXPONENT + d.scale, MAX_EXPANDED_DIGITS - d.scale);
    assert d.coefficient * p * k == d.coefficient * k * p;
  }

  /** Two accepted spellings of one value parse to the same rate. */
  lemma SameValueSameRate(a: Number, b: Number)
    requires IsNumber(a) && IsNumber(b) && NumberRate(a).Some? && NumberRate(b).Some?
    requires SameValue(a, b)
    ensures NumberRate(a) == NumberRate(b)
  {
    RateExact(a);
    RateExact(b);
    var x, y := NumberRate(a).value, NumberRate(b).value;
    UnitsOf(x, Coefficient(a), NumberScale(a));
    UnitsOf(y, Coefficient(b), NumberScale(b));
    hide NumberRate, Coefficient, NumberScale, Pow10, Canonical;
    CrossCancel(Units(x, MAX_EXPANDED_DIGITS), Units(y, MAX_EXPANDED_DIGITS),
                Pow10(MAX_EXPONENT + NumberScale(a)), Pow10(MAX_EXPONENT + NumberScale(b)),
                Coefficient(a), Coefficient(b), Pow10(MAX_EXPONENT + MAX_EXPANDED_DIGITS));
    hide Units;
    CanonicalUnique(x, y, MAX_EXPANDED_DIGITS);
  }

  /** ParseRate undoes Rate.String. */
  lemma RateRoundTrip(r: Rate)
    ensures TextRate(Format(r)) == Some(r)
  {
    var w, f := CanonicalSpelling(r);
    var n := Number(w, f, None);
    assert Text(n) == Format(r) by { assert Join(w, f) + "" == Join(w, f); }
    ScanComplete(n);
    StripCanonical(r);
    RateTextSmall(r, w, f);
    hide Format, Scan, ValueOf, Strip, Text;
  }

  lemma StripCanonical(d: Scaled)
    requires Canonical(d)
    ensures Strip(d.coefficient, d.scale) == d
  {}

  lemma RateTextSmall(r: Rate, w: string, f: string)
    requires IsSpelling(w, f) && Spelled(w, f) == r && Format(r) == Join(w, f)
    ensures |Join(w, f)| <= MAX_SOURCE_BYTES
  {
    hide ValueOf;
    var digits := Digits(r.coefficient);
  }

  /** A bounded rate is below 10^18. */
  lemma RateBound(r: Rate)
    ensures r.coefficient < Pow10(MAX_EXPANDED_DIGITS + r.scale)
  {
    DigitCount(r.coefficient, MAX_EXPANDED_DIGITS + r.scale);
  }
}
