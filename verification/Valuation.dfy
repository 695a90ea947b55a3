/** Exact valuation of one Turn (internal/usage/pricing: amount.go, contribution.go,
    openai.go, anthropic.go and the tier search of snapshot.go). */
module Valuation {
  import opened Wrappers
  import opened Decimal
  import opened Spelling
  import opened Rates
  import opened Amounts

  const MAX_INT64 := 0x7fff_ffff_ffff_ffff
  const MAX_UINT64 := 0xffff_ffff_ffff_ffff

  type Int64 = n: int | -0x8000_0000_0000_0000 <= n <= 0x7fff_ffff_ffff_ffff

  // One rate per category; None is an absent rate.
  datatype RateVector = RateVector(input: Option<Rate>, output: Option<Rate>, cacheRead: Option<Rate>, cacheWrite: Option<Rate>)

  datatype Reason = MissingRate | MissingUsage | InconsistentUsage

  datatype Contribution = Priced(amount: Amount) | Excluded(reason: Reason)

  datatype PricedLine = PricedLine(tokens: Int64, rate: Option<Rate>)

  // The chargeable counts; a None cache count was not reported.
  datatype OpenAIUsage = OpenAIUsage(input: Int64, output: Int64, cached: Option<Int64>, cacheWrite: Option<Int64>)
  datatype AnthropicUsage = AnthropicUsage(input: Int64, output: Int64, cacheCreation: Option<Int64>, cacheRead: Option<Int64>)

  // --------------------------------------------------------- tokens times rate

  /** A rate in units of 10^-18 dollars per million tokens, that is, of 10^-24 per token. */
  function PerToken(r: Rate): nat { Units(r, MAX_EXPANDED_DIGITS) }

  datatype TokenValue = Value(amount: Amount) | NegativeTokens | Overflow

  lemma PerTokenBound(r: Rate)
    ensures PerToken(r) < Pow10(36)
  {
    RateBound(r);
    var p := Pow10(MAX_EXPANDED_DIGITS - r.scale);
    PowAdd(MAX_EXPANDED_DIGITS + r.scale, MAX_EXPANDED_DIGITS - r.scale);
    hide Pow10;
    LessTimes(r.coefficient, Pow10(MAX_EXPANDED_DIGITS + r.scale), p);
  }

  lemma LessTimes(a: nat, b: nat, c: nat)
    requires a < b && c > 0
    ensures a * c < b * c
  {}

  lemma ProductBound(a: nat, b: nat, c: nat, d: nat)
    requires a <= c && b <= d
    ensures a * b <= c * d
  {
    assert a * b <= c * b;
  }

  const LINE_BOUND := MAX_INT64 * 1_000000_000000_000000_000000_000000_000000

  lemma Pow36()
    ensures Pow10(36) == 1_000000_000000_000000_000000_000000_000000
  {
    PowAdd(18, 18);
    Pow18();
    hide Pow10;
  }

  lemma Pow18()
    ensures Pow10(18) == 1_000000_000000_000000
  {
    PowAdd(9, 9);
    PowAdd(4, 5);
    assert Pow10(4) == 10_000 by { assert Pow10(2) == 100; }
    assert Pow10(5) == 100_000;
    hide Pow10;
  }

  lemma LineBound(tokens: nat, r: Rate)
    requires tokens <= MAX_INT64
    ensures tokens * PerToken(r) <= LINE_BOUND
  {
    PerTokenBound(r);
    Pow36();
    hide Pow10;
    ProductBound(tokens, PerToken(r), MAX_INT64, 1_000000_000000_000000_000000_000000_000000);
  }

  lemma SmallFits(u: nat)
    requires u <= 1_000_000 * (4 * LINE_BOUND)
    ensures FromUnits(u).Some?
  {
    hide Pow10;
    Pow36();
    PowAdd(36, 36);
    PowAdd(72, 28);
    PowMonotone(1, 28);
    assert Pow10(72) == Pow10(36) * Pow10(36);
    assert Pow10(28) >= 1;
    assert Pow10(100) >= Pow10(72);
    SmallWorthFits(u);
  }

  /** ForTokens is exact, and no token count overflows it. */
  method ForTokens(r: Rate, tokens: Int64) returns (v: TokenValue)
    ensures tokens < 0 <==> v == NegativeTokens
    ensures tokens >= 0 ==> v.Value? && Worth(v.amount) == tokens * PerToken(r)
  {
    hide *;
    if tokens < 0 {
      return NegativeTokens;
    }
    if tokens == 0 || r.coefficient == 0 {
      ZeroWorth(tokens, r);
      return Value(ZERO);
    }
    TokenAmount(r, tokens);
    var amount := NewAmount(r.coefficient * tokens, r.scale + 6);
    if amount.None? {
      return Overflow;
    }
    return Value(amount.value);
  }

  lemma TokenAmount(r: Rate, tokens: Int64)
    requires tokens >= 0
    ensures Canonical(Strip(r.coefficient * tokens, r.scale + 6))
    ensures var a := Fit(Strip(r.coefficient * tokens, r.scale + 6));
      a.Some? && Worth(a.value) == tokens * PerToken(r)
  {
    hide Pow10, Format, Strip, Canonical, PerToken, Worth, IsAmount, Fit, Units, Digits;
    var c: nat := r.coefficient * tokens;
    LineBound(tokens, r);
    SmallFits(tokens * PerToken(r));
    TokenUnits(r, tokens);
    StripExact(c, r.scale + 6);
    StripIsFromUnits(c, r.scale + 6);
    FromUnitsIs(c * Pow10(MAX_SCALE - (r.scale + 6)), c, r.scale + 6);
  }

  lemma FromUnitsIs(u: nat, c: nat, s: nat)
    requires Canonical(Strip(c, s)) && Strip(c, s) == Strip(u, MAX_SCALE)
    ensures FromUnits(u) == Fit(Strip(c, s))
  {}

  lemma ZeroWorth(tokens: nat, r: Rate)
    requires tokens == 0 || r.coefficient == 0
    ensures tokens * PerToken(r) == 0 && IsAmount(ZERO) && Worth(ZERO) == 0
  {
    assert Format(ZERO) == "0";
  }

  lemma TokenUnits(r: Rate, tokens: nat)
    ensures r.coefficient * tokens * Pow10(MAX_SCALE - (r.scale + 6)) == tokens * PerToken(r)
  {
    hide Pow10;
    Commute(r.coefficient, tokens, Pow10(MAX_EXPANDED_DIGITS - r.scale));
  }

  lemma Commute(a: nat, b: nat, c: nat)
    ensures a * b * c == b * (a * c)
  {}

  // --------------------------------------------------------------- summed lines

  /** What the calculators guarantee: no negative count, and a rate wherever one is used. */
  predicate Chargeable(line: PricedLine) { line.tokens >= 0 && (line.tokens > 0 ==> line.rate.Some?) }

  function LineWorth(line: PricedLine): nat
    requires Chargeable(line)
  {
    if line.tokens == 0 then 0 else line.tokens * PerToken(line.rate.value)
  }

  function LinesWorth(lines: seq<PricedLine>): nat
    requires forall line <- lines :: Chargeable(line)
  {
    if lines == [] then 0 else LinesWorth(lines[..|lines| - 1]) + LineWorth(lines[|lines| - 1])
  }

  lemma LineWorthBound(line: PricedLine)
    requires Chargeable(line)
    ensures LineWorth(line) <= LINE_BOUND
  {
    if line.tokens > 0 { LineBound(line.tokens, line.rate.value); }
  }

  lemma {:induction false} LinesBound(lines: seq<PricedLine>)
    requires forall line <- lines :: Chargeable(line)
    ensures LinesWorth(lines) <= |lines| * LINE_BOUND
  {
    hide LineWorth;
    if lines != [] {
      LinesBound(lines[..|lines| - 1]);
      LineWorthBound(lines[|lines| - 1]);
    }
  }

  /** The exact amount of at most four lines. */
  function LinesAmount(lines: seq<PricedLine>): (a: Amount)
    requires |lines| <= 4 && forall line <- lines :: Chargeable(line)
    ensures Worth(a) == LinesWorth(lines)
  {
    LinesBound(lines);
    SmallFits(LinesWorth(lines));
    FromUnits(LinesWorth(lines)).value
  }

  /** sumPricedLines is the exact sum of tokens * rate, or fails on a negative count; a result it
      returns is never rounded, and up to four lines never overflow. */
  method SumPricedLines(lines: seq<PricedLine>) returns (r: TokenValue)
    requires forall line <- lines :: line.tokens != 0 ==> line.rate.Some?
    ensures r.Value? ==> (forall line <- lines :: Chargeable(line)) && Worth(r.amount) == LinesWorth(lines)
    ensures r.NegativeTokens? ==> exists line <- lines :: line.tokens < 0
    ensures |lines| <= 4 ==> r == if forall line <- lines :: Chargeable(line) then Value(LinesAmount(lines)) else NegativeTokens
  {
    hide PerToken, FromUnits, Format, Canonical, Worth, LinesAmount, IsAmount, IsRate;
    var total: Amount := ZeroAmount();
    for i := 0 to |lines|
      invariant forall line <- lines[..i] :: Chargeable(line)
      invariant Worth(total) == LinesWorth(lines[..i])
    {
      var line := lines[i];
      assert line in lines;
      if line.tokens == 0 {
        LinesStep(lines, i);
        continue;
      }
      var part := ForTokens(line.rate.value, line.tokens);
      if part.NegativeTokens? {
        return NegativeTokens;
      }
      LinesStep(lines, i);
      var sum := Add(total, part.amount);
      if sum.None? {
        if |lines| <= 4 { PrefixFits(lines, i + 1); }
        return Overflow;
      }
      total := sum.value;
    }
    assert lines[..|lines|] == lines;
    TotalIs(lines, total);
    return Value(total);
  }

  lemma LinesStep(lines: seq<PricedLine>, i: nat)
    requires i < |lines| && (forall line <- lines[..i] :: Chargeable(line)) && Chargeable(lines[i])
    ensures forall line <- lines[..i + 1] :: Chargeable(line)
    ensures LinesWorth(lines[..i + 1]) == LinesWorth(lines[..i]) + LineWorth(lines[i])
  {
    assert lines[..i + 1][..i] == lines[..i];
    assert lines[..i + 1] == lines[..i] + [lines[i]];
  }

  lemma TotalIs(lines: seq<PricedLine>, total: Amount)
    requires (forall line <- lines :: Chargeable(line)) && Worth(total) == LinesWorth(lines)
    ensures |lines| <= 4 ==> LinesAmount(lines) == total
  {
    hide Worth;
    WorthFromUnits(total);
  }

  function ZeroAmount(): (a: Amount)
    ensures Worth(a) == 0
  {
    assert Format(ZERO) == "0";
    ZERO
  }

  lemma PrefixFits(lines: seq<PricedLine>, k: nat)
    requires k <= |lines| <= 4 && forall line <- lines[..k] :: Chargeable(line)
    ensures FromUnits(LinesWorth(lines[..k])).Some?
  {
    LinesBound(lines[..k]);
    SmallFits(LinesWorth(lines[..k]));
  }

  /** A contribution is at most four full lines. */
  predicate IsBounded(c: Contribution) { c.Priced? ==> Worth(c.amount) <= 4 * LINE_BOUND }

  lemma LinesAmountBounded(lines: seq<PricedLine>)
    requires |lines| <= 4 && forall line <- lines :: Chargeable(line)
    ensures IsBounded(Priced(LinesAmount(lines)))
  {
    LinesBound(lines);
  }

  // ------------------------------------------------------------ one rate vector

  predicate MissingFor(count: Option<Int64>, rate: Option<Rate>) { count.Some? && count.value > 0 && rate.None? }

  predicate MissingOpenAIRate(u: OpenAIUsage, v: RateVector) {
    v.input.None? || v.output.None? || MissingFor(u.cached, v.cacheRead) || MissingFor(u.cacheWrite, v.cacheWrite)
  }

  predicate MissingAnthropicRate(u: AnthropicUsage, v: RateVector) {
    v.input.None? || v.output.None? || MissingFor(u.cacheRead, v.cacheRead) || MissingFor(u.cacheCreation, v.cacheWrite)
  }

  function CalculateOpenAI(u: OpenAIUsage, v: RateVector): (c: Contribution)
    ensures IsBounded(c)
  {
    if MissingOpenAIRate(u, v) then Excluded(MissingRate)
    else if u.cached.None? || u.cacheWrite.None? then Excluded(MissingUsage)
    else
      var cached, cacheWrite := u.cached.value, u.cacheWrite.value;
      if u.input < 0 || u.output < 0 || cached < 0 || cacheWrite < 0 || cached > u.input || cacheWrite > u.input - cached
      then Excluded(InconsistentUsage)
      else
        var lines := [PricedLine(u.input - cached - cacheWrite, v.input), PricedLine(u.output, v.output),
                      PricedLine(cached, v.cacheRead), PricedLine(cacheWrite, v.cacheWrite)];
        LinesAmountBounded(lines);
        Priced(LinesAmount(lines))
  }

  function CalculateAnthropic(u: AnthropicUsage, v: RateVector): (c: Contribution)
    ensures IsBounded(c)
  {
    if MissingAnthropicRate(u, v) then Excluded(MissingRate)
    else if u.cacheRead.None? || u.cacheCreation.None? then Excluded(MissingUsage)
    else
      var cacheRead, cacheCreation := u.cacheRead.value, u.cacheCreation.value;
      if u.input < 0 || u.output < 0 || cacheRead < 0 || cacheCreation < 0 then Excluded(InconsistentUsage)
      else
        var lines := [PricedLine(u.input, v.input), PricedLine(u.output, v.output),
                      PricedLine(cacheRead, v.cacheRead), PricedLine(cacheCreation, v.cacheWrite)];
        LinesAmountBounded(lines);
        Priced(LinesAmount(lines))
  }

  /** tokens at an optional rate, in units of 10^-24 dollars; no tokens cost nothing. */
  function At(tokens: nat, rate: Option<Rate>): nat
    requires tokens > 0 ==> rate.Some?
  {
    if tokens == 0 then 0
    else
      ProductIsNat(tokens, PerToken(rate.value));
      tokens * PerToken(rate.value)
  }

  lemma ProductIsNat(a: nat, b: nat)
    ensures a * b >= 0
  {}

  lemma LastLine(lines: seq<PricedLine>, last: PricedLine)
    requires Chargeable(last) && forall line <- lines :: Chargeable(line)
    ensures forall line <- lines + [last] :: Chargeable(line)
    ensures LinesWorth(lines + [last]) == LinesWorth(lines) + At(last.tokens, last.rate)
  {
    hide PerToken;
    assert (lines + [last])[..|lines|] == lines;
  }

  lemma NoLines()
    ensures LinesWorth([]) == 0
  {}

  lemma FourLines(a: PricedLine, b: PricedLine, c: PricedLine, d: PricedLine)
    requires Chargeable(a) && Chargeable(b) && Chargeable(c) && Chargeable(d)
    ensures forall line <- [a, b, c, d] :: Chargeable(line)
    ensures LinesWorth([a, b, c, d]) ==
            At(a.tokens, a.rate) + At(b.tokens, b.rate) + At(c.tokens, c.rate) + At(d.tokens, d.rate)
  {
    hide PerToken, LinesWorth, At;
    NoLines();
    LastLine([], a);
    LastLine([a], b);
    LastLine([a, b], c);
    LastLine([a, b, c], d);
    assert [] + [a] == [a] && [a] + [b] == [a, b] && [a, b] + [c] == [a, b, c] && [a, b, c] + [d] == [a, b, c, d];
  }

  /** An OpenAI Turn is priced exactly when the required rates and counts are present and the
      cache counts fit inside the complete input; it then costs exactly the rational sum. */
  lemma OpenAIExact(u: OpenAIUsage, v: RateVector)
    ensures CalculateOpenAI(u, v).Priced? <==>
      && v.input.Some? && v.output.Some? && u.cached.Some? && u.cacheWrite.Some?
      && u.output >= 0 && u.cached.value >= 0 && u.cacheWrite.value >= 0
      && u.cached.value + u.cacheWrite.value <= u.input
      && (u.cached.value > 0 ==> v.cacheRead.Some?) && (u.cacheWrite.value > 0 ==> v.cacheWrite.Some?)
    ensures CalculateOpenAI(u, v).Priced? ==>
      Worth(CalculateOpenAI(u, v).amount) ==
        At(u.input - u.cached.value - u.cacheWrite.value, v.input) + At(u.output, v.output)
        + At(u.cached.value, v.cacheRead) + At(u.cacheWrite.value, v.cacheWrite)
  {
    hide At, LinesWorth, IsRate, IsAmount;
    if CalculateOpenAI(u, v).Priced? {
      FourLines(PricedLine(u.input - u.cached.value - u.cacheWrite.value, v.input), PricedLine(u.output, v.output),
                PricedLine(u.cached.value, v.cacheRead), PricedLine(u.cacheWrite.value, v.cacheWrite));
    }
  }

  /** An Anthropic Turn's cache counts are additive to its input. */
  lemma AnthropicExact(u: AnthropicUsage, v: RateVector)
    ensures CalculateAnthropic(u, v).Priced? <==>
      && v.input.Some? && v.output.Some? && u.cacheRead.Some? && u.cacheCreation.Some?
      && u.input >= 0 && u.output >= 0 && u.cacheRead.value >= 0 && u.cacheCreation.value >= 0
      && (u.cacheRead.value > 0 ==> v.cacheRead.Some?) && (u.cacheCreation.value > 0 ==> v.cacheWrite.Some?)
    ensures CalculateAnthropic(u, v).Priced? ==>
      Worth(CalculateAnthropic(u, v).amount) ==
        At(u.input, v.input) + At(u.output, v.output)
        + At(u.cacheRead.value, v.cacheRead) + At(u.cacheCreation.value, v.cacheWrite)
  {
    hide At, LinesWorth, IsRate, IsAmount;
    if CalculateAnthropic(u, v).Priced? {
      FourLines(PricedLine(u.input, v.input), PricedLine(u.output, v.output),
                PricedLine(u.cacheRead.value, v.cacheRead), PricedLine(u.cacheCreation.value, v.cacheWrite));
    }
  }

  lemma AtSplit(a: nat, b: nat, c: nat, r: Rate)
    ensures At(a, Some(r)) + At(b, Some(r)) + At(c, Some(r)) == At(a + b + c, Some(r))
  {
    var p := PerToken(r);
    hide PerToken;
    assert a * p + b * p + c * p == (a + b + c) * p;
  }

  /** Every input token is charged once: at one input-side rate the cache split is invisible. */
  lemma OpenAIInputChargedOnce(u: OpenAIUsage, r: Rate, out: Rate)
    requires var v := RateVector(Some(r), Some(out), Some(r), Some(r)); CalculateOpenAI(u, v).Priced?
    ensures var v := RateVector(Some(r), Some(out), Some(r), Some(r));
      u.input >= 0 && u.output >= 0 && Worth(CalculateOpenAI(u, v).amount) == At(u.input, Some(r)) + At(u.output, Some(out))
  {
    hide At, CalculateOpenAI, IsRate, IsAmount, Worth;
    OpenAIExact(u, RateVector(Some(r), Some(out), Some(r), Some(r)));
    AtSplit(u.input - u.cached.value - u.cacheWrite.value, u.cached.value, u.cacheWrite.value, r);
  }

  // ----------------------------------------------------------------- schedules

  datatype Tier = Tier(threshold: nat, rates: RateVector)

  datatype Schedule = Schedule(base: RateVector, tiers: seq<Tier>)

  datatype Tariff = Tariff(normal: Schedule, fast: Option<Schedule>)

  /** Thresholds strictly increase, as parseCost leaves them. */
  predicate Sorted(tiers: seq<Tier>) { forall i, j :: 0 <= i < j < |tiers| ==> tiers[i].threshold < tiers[j].threshold }

  /** rateSchedule.rates: binary search for the first tier not below the input. */
  method SelectRates(s: Schedule, input: nat) returns (v: RateVector)
    requires Sorted(s.tiers)
    ensures v == Select(s, input)
  {
    var low, high := 0, |s.tiers|;
    while low < high
      invariant 0 <= low <= high <= |s.tiers|
      invariant forall k :: 0 <= k < low ==> s.tiers[k].threshold < input
      invariant forall k :: high <= k < |s.tiers| ==> input <= s.tiers[k].threshold
    {
      var middle := (low + high) / 2;
      if input <= s.tiers[middle].threshold {
        high := middle;
      } else {
        low := middle + 1;
      }
    }
    CountBelowIs(s.tiers, input, low);
    v := if low == 0 then s.base else s.tiers[low - 1].rates;
  }

  function CountBelow(tiers: seq<Tier>, input: nat): nat {
    if tiers == [] then 0
    else CountBelow(tiers[..|tiers| - 1], input) + if tiers[|tiers| - 1].threshold < input then 1 else 0
  }

  function Select(s: Schedule, input: nat): RateVector {
    var k := CountBelow(s.tiers, input);
    if 0 < k <= |s.tiers| then s.tiers[k - 1].rates else s.base
  }

  lemma {:induction false} CountBelowIs(tiers: seq<Tier>, input: nat, k: nat)
    requires k <= |tiers|
    requires forall i :: 0 <= i < k ==> tiers[i].threshold < input
    requires forall i :: k <= i < |tiers| ==> input <= tiers[i].threshold
    ensures CountBelow(tiers, input) == k
  {
    if tiers != [] {
      CountBelowIs(tiers[..|tiers| - 1], input, if k == |tiers| then k - 1 else k);
    }
  }

  lemma {:induction false} Boundary(tiers: seq<Tier>, input: nat) returns (k: nat)
    requires Sorted(tiers)
    ensures k <= |tiers| && CountBelow(tiers, input) == k
    ensures forall i :: 0 <= i < k ==> tiers[i].threshold < input
    ensures forall i :: k <= i < |tiers| ==> input <= tiers[i].threshold
  {
    k := 0;
    while k < |tiers| && tiers[k].threshold < input
      invariant k <= |tiers| && forall i :: 0 <= i < k ==> tiers[i].threshold < input
    {
      k := k + 1;
    }
    CountBelowIs(tiers, input, k);
  }

  /** The selected vector belongs to the greatest threshold strictly below the input, or is
      the base vector when there is none. */
  lemma SelectsGreatestBelow(s: Schedule, input: nat)
    requires Sorted(s.tiers)
    ensures (forall tier <- s.tiers :: input <= tier.threshold) ==> Select(s, input) == s.base
    ensures forall tier <- s.tiers ::
      tier.threshold < input && (forall other <- s.tiers :: other.threshold < input ==> other.threshold <= tier.threshold)
      ==> Select(s, input) == tier.rates
  {
    var k := Boundary(s.tiers, input);
    if k > 0 {
      assert s.tiers[k - 1] in s.tiers;
    }
    forall tier | tier in s.tiers && tier.threshold < input &&
                  (forall other <- s.tiers :: other.threshold < input ==> other.threshold <= tier.threshold)
      ensures Select(s, input) == tier.rates
    {
      var i :| 0 <= i < |s.tiers| && s.tiers[i] == tier;
      assert s.tiers[k - 1] in s.tiers;
    }
  }

  // ------------------------------------------------------------------- tariffs

  function CompleteInput(u: AnthropicUsage): nat
    requires u.input >= 0 && u.cacheCreation.Some? && u.cacheRead.Some? && u.cacheCreation.value >= 0 && u.cacheRead.value >= 0
  {
    u.input + u.cacheCreation.value + u.cacheRead.value
  }

  predicate Reported(u: AnthropicUsage) { u.cacheRead.Some? && u.cacheCreation.Some? }

  predicate Nonnegative(u: AnthropicUsage)
    requires Reported(u)
  {
    u.input >= 0 && u.cacheRead.value >= 0 && u.cacheCreation.value >= 0
  }

  /** anthropicCompleteInput: a checked uint64 sum. */
  method AnthropicCompleteInput(u: AnthropicUsage) returns (total: nat, reason: Option<Reason>)
    ensures !Reported(u) ==> reason == Some(MissingUsage)
    ensures Reported(u) && (!Nonnegative(u) || CompleteInput(u) > MAX_UINT64) ==> reason == Some(InconsistentUsage)
    ensures Reported(u) && Nonnegative(u) && CompleteInput(u) <= MAX_UINT64 ==> reason == None && total == CompleteInput(u)
  {
    if u.cacheRead.None? || u.cacheCreation.None? {
      return 0, Some(MissingUsage);
    }
    if u.input < 0 || u.cacheRead.value < 0 || u.cacheCreation.value < 0 {
      return 0, Some(InconsistentUsage);
    }
    var counts: seq<nat> := [u.cacheCreation.value, u.cacheRead.value];
    total := u.input;
    for i := 0 to 2
      invariant total == u.input + (if i > 0 then counts[0] else 0) + (if i > 1 then counts[1] else 0) <= MAX_UINT64
    {
      if counts[i] > MAX_UINT64 - total {
        return 0, Some(InconsistentUsage);
      }
      total := total + counts[i];
    }
    reason := None;
  }

  predicate MissingInEvery(u: AnthropicUsage, s: Schedule) {
    MissingAnthropicRate(u, s.base) && forall tier <- s.tiers :: MissingAnthropicRate(u, tier.rates)
  }

  method MissingInEveryVector(u: AnthropicUsage, s: Schedule) returns (missing: bool)
    ensures missing <==> MissingInEvery(u, s)
  {
    if !MissingAnthropicRate(u, s.base) {
      return false;
    }
    for i := 0 to |s.tiers|
      invariant forall k :: 0 <= k < i ==> MissingAnthropicRate(u, s.tiers[k].rates)
    {
      if !MissingAnthropicRate(u, s.tiers[i].rates) {
        return false;
      }
    }
    return true;
  }

  /** What an Anthropic Turn contributes: by the vector of its complete input, or without one by what
      ails the input, unless no vector could price it anyway. */
  function AnthropicContribution(t: Tariff, u: AnthropicUsage): (c: Contribution)
    ensures IsBounded(c)
  {
    if t.normal.tiers == [] then CalculateAnthropic(u, t.normal.base)
    else if Reported(u) && Nonnegative(u) && CompleteInput(u) <= MAX_UINT64 then
      CalculateAnthropic(u, Select(t.normal, CompleteInput(u)))
    else if MissingInEvery(u, t.normal) then Excluded(MissingRate)
    else Excluded(if Reported(u) then InconsistentUsage else MissingUsage)
  }

  /** What an OpenAI Turn contributes: by the schedule of its service tier and its complete input. */
  function OpenAIContribution(t: Tariff, u: OpenAIUsage, reportedTier: Option<string>): (c: Contribution)
    ensures IsBounded(c)
  {
    var s := if t.fast.Some? && UseFast(reportedTier) then t.fast.value else t.normal;
    if s.tiers == [] then CalculateOpenAI(u, s.base)
    else if u.input < 0 then Excluded(InconsistentUsage)
    else CalculateOpenAI(u, Select(s, u.input))
  }

  /** Tariff.CalculateAnthropic: with tiers, the vector of the complete input; when that input
      is unknown, missing_rate only if no vector has the rates, else what ails the input. */
  method TariffAnthropic(t: Tariff, u: AnthropicUsage) returns (c: Contribution)
    requires Sorted(t.normal.tiers)
    ensures IsBounded(c) && c == AnthropicContribution(t, u)
    ensures t.normal.tiers == [] ==> c == CalculateAnthropic(u, t.normal.base)
    ensures Reported(u) && Nonnegative(u) && CompleteInput(u) <= MAX_UINT64 ==>
      c == CalculateAnthropic(u, Select(t.normal, CompleteInput(u)))
    ensures t.normal.tiers != [] && !(Reported(u) && Nonnegative(u)) ==>
      && (c == Excluded(MissingRate) <==> MissingInEvery(u, t.normal))
      && (!MissingAnthropicRate(u, t.normal.base) ==> c == CalculateAnthropic(u, t.normal.base))
      && (forall tier <- t.normal.tiers :: !MissingAnthropicRate(u, tier.rates) ==> c == CalculateAnthropic(u, tier.rates))
    ensures t.normal.tiers != [] && Reported(u) && Nonnegative(u) && CompleteInput(u) > MAX_UINT64 ==>
      c == Excluded(if MissingInEvery(u, t.normal) then MissingRate else InconsistentUsage)
  {
    hide LinesAmount;
    if |t.normal.tiers| == 0 {
      return CalculateAnthropic(u, t.normal.base);
    }
    var total, reason := AnthropicCompleteInput(u);
    if reason.Some? {
      var missing := MissingInEveryVector(u, t.normal);
      if missing {
        return Excluded(MissingRate);
      }
      return Excluded(reason.value);
    }
    var v := SelectRates(t.normal, total);
    return CalculateAnthropic(u, v);
  }

  function ToLower(c: char): char { if 'A' <= c <= 'Z' then c + 32 as char else c }

  predicate EqualFold(value: string, target: string) {
    |value| == |target| && forall i :: 0 <= i < |value| ==> ToLower(value[i]) == target[i]
  }

  const MAX_SERVICE_TIER_BYTES := 8

  predicate UseFast(reportedTier: Option<string>) {
    reportedTier.Some? && |reportedTier.value| <= MAX_SERVICE_TIER_BYTES
    && (EqualFold(reportedTier.value, "fast") || EqualFold(reportedTier.value, "priority"))
  }

  /** Tariff.CalculateOpenAI: the schedule of the reported service tier, then the vector of the
      complete input. */
  method TariffOpenAI(t: Tariff, u: OpenAIUsage, reportedTier: Option<string>) returns (c: Contribution)
    requires Sorted(t.normal.tiers) && (t.fast.Some? ==> Sorted(t.fast.value.tiers))
    ensures IsBounded(c) && c == OpenAIContribution(t, u, reportedTier)
    ensures var s := if t.fast.Some? && UseFast(reportedTier) then t.fast.value else t.normal;
      if s.tiers == [] then c == CalculateOpenAI(u, s.base)
      else if u.input < 0 then c == Excluded(InconsistentUsage)
      else c == CalculateOpenAI(u, Select(s, u.input))
  {
    hide LinesAmount;
    var s := t.normal;
    if t.fast.Some? && UseFast(reportedTier) {
      s := t.fast.value;
    }
    if |s.tiers| == 0 {
      return CalculateOpenAI(u, s.base);
    }
    if u.input < 0 {
      return Excluded(InconsistentUsage);
    }
    var v := SelectRates(s, u.input);
    return CalculateOpenAI(u, v);
  }

  // -------------------------------------------------------- a report's additions

  const MAX_ROWS := 1_000_000

  /** Adding one contribution to an amount that holds fewer than MaxRows of them never
      overflows, so the pricing-overflow branches of a report cannot fire. */
  lemma ReportNeverOverflows(held: Amount, turns: nat, c: Contribution)
    requires c.Priced? && IsBounded(c) && turns < MAX_ROWS && Worth(held) <= turns * (4 * LINE_BOUND)
    ensures var r := FromUnits(Worth(held) + Worth(c.amount));
      r.Some? && Worth(r.value) == Worth(held) + Worth(c.amount) <= (turns + 1) * (4 * LINE_BOUND)
  {
    hide Worth;
    SmallFits(Worth(held) + Worth(c.amount));
  }
}
