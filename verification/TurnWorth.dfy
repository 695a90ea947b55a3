/** What a stored Turn costs, said of its stored counts (internal/usage/projection.go: the order of the
    native counts; internal/usage/pricing: openai.go, anthropic.go; internal/usage/report/read.go:
    valueTurn). */
module TurnWorth {
  import opened Wrappers
  import opened Rates
  import opened Amounts
  import opened Valuation
  import opened Snapshots
  import opened Capture
  import Tallies
  import Ledger

  const NO_RATE := Tallies.Unpriced(Tallies.MissingRate)
  const NO_USAGE := Tallies.Unpriced(Tallies.MissingUsage)
  const BAD_USAGE := Tallies.Unpriced(Tallies.InconsistentUsage)

  /** The counts of a stored Turn: int64 values, input and output reported, then the cache counts. */
  predicate StoredCounts(counts: seq<Option<nat>>) {
    && |counts| >= 4 && counts[0].Some? && counts[1].Some?
    && forall i :: 0 <= i < |counts| && counts[i].Some? ==> counts[i].value <= MAX_INT64
  }

  /** A row of seven or six counts is usable exactly when its model was read whole, input and output are
      reported and no reported count is negative; then its counts are as the next results take them. */
  lemma UsableRow(row: Ledger.Stored, surface: Surface)
    requires Ledger.Scanned(row, RequiredCounts(surface))
    ensures |row.counts| == if surface.Anthropic? then 7 else 6
    ensures Ledger.Usable(row, RequiredCounts(surface)) <==>
      && row.model.Some? && row.modelBytes == |row.model.value| && row.counts[0].Some? && row.counts[1].Some?
      && forall count <- row.counts :: count.Some? ==> count.value >= 0
    ensures Ledger.Usable(row, RequiredCounts(surface)) ==> StoredCounts(Ledger.CountsOf(row.counts))
  {
    var required := RequiredCounts(surface);
    assert required[0] && required[1] && forall i :: 2 <= i < |required| ==> !required[i];
    assert forall i :: 0 <= i < |row.counts| ==> row.counts[i] in row.counts;
  }

  // -------------------------------------------------------------------- the vector that applies

  /** The rates for an input: those of the greatest threshold strictly below it, or the base. */
  ghost predicate VectorFor(s: Schedule, input: nat, v: RateVector) {
    || (v == s.base && forall tier <- s.tiers :: input <= tier.threshold)
    || exists tier <- s.tiers ::
         v == tier.rates && tier.threshold < input
         && forall other <- s.tiers :: other.threshold < input ==> other.threshold <= tier.threshold
  }

  /** There are such rates for every input, and they are the ones selected. */
  lemma VectorIs(s: Schedule, input: nat, v: RateVector)
    requires Sorted(s.tiers)
    ensures VectorFor(s, input, v) <==> v == Select(s, input)
  {
    SelectedIs(s, input);
    hide Select, Sorted;
    if VectorFor(s, input, v) { SelectsIt(s, input, v); }
  }

  lemma SelectsIt(s: Schedule, input: nat, v: RateVector)
    requires Sorted(s.tiers) && VectorFor(s, input, v)
    ensures v == Select(s, input)
  {
    SelectsGreatestBelow(s, input);
    hide Select, Sorted;
  }

  lemma SelectedIs(s: Schedule, input: nat)
    requires Sorted(s.tiers)
    ensures VectorFor(s, input, Select(s, input))
  {
    var k := Boundary(s.tiers, input);
    hide CountBelow;
    if k > 0 {
      GreatestBelow(s, input, k);
    } else {
      assert forall tier <- s.tiers :: input <= tier.threshold;
    }
  }

  lemma GreatestBelow(s: Schedule, input: nat, k: nat)
    requires Sorted(s.tiers) && 0 < k <= |s.tiers| && s.tiers[k - 1].threshold < input
    requires forall i :: k <= i < |s.tiers| ==> input <= s.tiers[i].threshold
    ensures VectorFor(s, input, s.tiers[k - 1].rates)
  {
    var tier := s.tiers[k - 1];
    assert tier in s.tiers;
    forall other | other in s.tiers && other.threshold < input ensures other.threshold <= tier.threshold {
      var i :| 0 <= i < |s.tiers| && s.tiers[i] == other;
      if i < k - 1 { assert s.tiers[i].threshold < s.tiers[k - 1].threshold; }
    }
  }

  /** A rate is missing: input and output always need theirs, a cache category once it was used. */
  predicate Lacks(v: RateVector, read: Option<nat>, written: Option<nat>) {
    || v.input.None? || v.output.None?
    || (read.Some? && read.value > 0 && v.cacheRead.None?) || (written.Some? && written.value > 0 && v.cacheWrite.None?)
  }

  /** No vector of the schedule has the rates. */
  predicate LacksEverywhere(s: Schedule, read: Option<nat>, written: Option<nat>) {
    Lacks(s.base, read, written) && forall tier <- s.tiers :: Lacks(tier.rates, read, written)
  }

  // ------------------------------------------------------------------------------ Anthropic

  /** What the four counts cost with one vector, when it has the rates: the four products. */
  predicate Costs(turn: Tallies.TurnValue, input: nat, output: nat, read: nat, written: nat, v: RateVector) {
    if Lacks(v, Some(read), Some(written)) then turn == NO_RATE
    else
      turn.Priced? && Worth(turn.amount) ==
        At(input, v.input) + At(output, v.output) + At(read, v.cacheRead) + At(written, v.cacheWrite)
  }

  /** Of an Anthropic Turn's counts the first two are input and output, the third was written to the
      cache and the fourth read from it, and all add up.  With both cache counts reported it costs what
      the rates for the whole input say. */
  lemma AnthropicTurn(counts: seq<Option<nat>>, tier: Option<string>, p: ModelPricing, v: RateVector)
    requires StoredCounts(counts) && p.resolution.Matched? && Sorted(p.tariff.normal.tiers)
    requires counts[2].Some? && counts[3].Some?
    requires var whole := counts[0].value + counts[2].value + counts[3].value;
      VectorFor(p.tariff.normal, whole, v) && (p.tariff.normal.tiers == [] || whole <= MAX_UINT64)
    ensures Costs(TurnValueOf(Anthropic, counts, tier, p), counts[0].value, counts[1].value, counts[3].value, counts[2].value, v)
  {
    hide CalculateAnthropic, Worth, At, IsAmount, IsRate, VectorFor, Sorted, Lacks;
    var u, s := AnthropicUsageOf(counts), p.tariff.normal;
    AnthropicCounts(counts);
    VectorIs(s, CompleteInput(u), v);
    AnthropicVector(u, v);
  }

  /** Without both cache counts, or with a whole input beyond uint64 where tiers depend on it, the Turn
      is excluded: for a rate when no vector has the rates, else for what ails its counts. */
  lemma AnthropicExcluded(counts: seq<Option<nat>>, tier: Option<string>, p: ModelPricing)
    requires StoredCounts(counts) && p.resolution.Matched?
    ensures counts[2].None? || counts[3].None? ==>
      TurnValueOf(Anthropic, counts, tier, p) == if LacksEverywhere(p.tariff.normal, counts[3], counts[2]) then NO_RATE else NO_USAGE
    ensures (counts[2].Some? && counts[3].Some? && p.tariff.normal.tiers != []
             && counts[0].value + counts[2].value + counts[3].value > MAX_UINT64) ==>
      TurnValueOf(Anthropic, counts, tier, p) == if LacksEverywhere(p.tariff.normal, counts[3], counts[2]) then NO_RATE else BAD_USAGE
  {
    hide CalculateAnthropic, Worth, At, IsAmount, IsRate, Lacks, LacksEverywhere, MissingInEvery;
    var u, s := AnthropicUsageOf(counts), p.tariff.normal;
    AnthropicCounts(counts);
    if !Reported(u) { AnthropicUnreported(u, s.base); }
    EverywhereIs(u, s, counts[3], counts[2]);
  }

  lemma AnthropicCounts(counts: seq<Option<nat>>)
    requires StoredCounts(counts)
    ensures var u := AnthropicUsageOf(counts);
      && u.input == counts[0].value && u.output == counts[1].value
      && SameCount(u.cacheCreation, counts[2]) && SameCount(u.cacheRead, counts[3])
  {}

  predicate SameCount(a: Option<Int64>, b: Option<nat>) { (a.Some? <==> b.Some?) && (a.Some? && b.Some? ==> a.value == b.value) }

  lemma AnthropicVector(u: AnthropicUsage, v: RateVector)
    requires u.input >= 0 && u.output >= 0 && Reported(u) && u.cacheRead.value >= 0 && u.cacheCreation.value >= 0
    ensures Costs(ValueOfContribution(CalculateAnthropic(u, v)), u.input, u.output, u.cacheRead.value, u.cacheCreation.value, v)
  {
    AnthropicExact(u, v);
    hide At, Worth, LinesAmount, IsAmount, IsRate;
  }

  lemma AnthropicUnreported(u: AnthropicUsage, v: RateVector)
    requires !Reported(u)
    ensures CalculateAnthropic(u, v) == Excluded(if MissingAnthropicRate(u, v) then MissingRate else MissingUsage)
  {
    hide LinesAmount, IsRate;
  }

  lemma EverywhereIs(u: AnthropicUsage, s: Schedule, read: Option<nat>, written: Option<nat>)
    requires SameCount(u.cacheRead, read) && SameCount(u.cacheCreation, written)
    ensures MissingInEvery(u, s) <==> LacksEverywhere(s, read, written)
    ensures s.tiers == [] ==> (MissingAnthropicRate(u, s.base) <==> LacksEverywhere(s, read, written))
  {
    hide IsRate;
  }

  // --------------------------------------------------------------------------------- OpenAI

  predicate InEitherCase(value: string, lower: string, upper: string) {
    |value| == |lower| == |upper| && forall i :: 0 <= i < |value| ==> value[i] == lower[i] || value[i] == upper[i]
  }

  /** The service tier names the fast one, each letter in either case. */
  predicate NamesFast(tier: Option<string>) {
    tier.Some? && (InEitherCase(tier.value, "fast", "FAST") || InEitherCase(tier.value, "priority", "PRIORITY"))
  }

  lemma FastIsNamed(tier: Option<string>)
    ensures UseFast(tier) <==> NamesFast(tier)
  {
    if tier.Some? {
      FoldIs(tier.value, "fast", "FAST");
      FoldIs(tier.value, "priority", "PRIORITY");
    }
  }

  lemma FoldIs(value: string, lower: string, upper: string)
    requires |lower| == |upper| && forall i :: 0 <= i < |lower| ==> 'a' <= lower[i] <= 'z' && lower[i] as int == upper[i] as int + 32
    ensures EqualFold(value, lower) <==> InEitherCase(value, lower, upper)
  {
    if |value| == |lower| {
      forall i | 0 <= i < |value| ensures ToLower(value[i]) == lower[i] <==> value[i] == lower[i] || value[i] == upper[i] {
        FoldOne(value[i], lower[i], upper[i]);
      }
    }
    hide ToLower;
  }

  lemma FoldOne(c: char, lower: char, upper: char)
    requires 'a' <= lower <= 'z' && lower as int == upper as int + 32
    ensures ToLower(c) == lower <==> c == lower || c == upper
  {
    assert 'A' <= c <= 'Z' ==> (c + 32 as char) as int == c as int + 32;
    assert c as int == upper as int ==> c == upper;
  }

  /** The schedule of a service tier. */
  function ScheduleOf(t: Tariff, tier: Option<string>): Schedule { if t.fast.Some? && NamesFast(tier) then t.fast.value else t.normal }

  /** Of an OpenAI Turn's counts the third was read from the cache and the fourth written to it, and
      both are part of the input.  It costs what the rates for its input say, in the schedule of its
      service tier, with each input token charged once; it is excluded for a rate when they lack one,
      for its usage when a cache count was not reported, and for an inconsistency when the cache counts
      exceed the input. */
  lemma OpenAITurn(counts: seq<Option<nat>>, tier: Option<string>, p: ModelPricing, v: RateVector)
    requires StoredCounts(counts) && p.resolution.Matched? && Sorted(ScheduleOf(p.tariff, tier).tiers)
    requires VectorFor(ScheduleOf(p.tariff, tier), counts[0].value, v)
    ensures var turn := TurnValueOf(OpenAI, counts, tier, p);
      var input, output, read, written := counts[0].value, counts[1].value, counts[2], counts[3];
      if Lacks(v, read, written) then turn == NO_RATE
      else if read.None? || written.None? then turn == NO_USAGE
      else if read.value + written.value > input then turn == BAD_USAGE
      else Costs(turn, input - read.value - written.value, output, read.value, written.value, v)
  {
    hide CalculateOpenAI, Worth, At, IsAmount, IsRate, VectorFor, Sorted, Lacks, UseFast, NamesFast, Costs;
    FastIsNamed(tier);
    OpenAICounts(counts);
    VectorIs(ScheduleOf(p.tariff, tier), counts[0].value, v);
    OpenAIVector(OpenAIUsageOf(counts), v, counts[2], counts[3]);
  }

  lemma OpenAICounts(counts: seq<Option<nat>>)
    requires StoredCounts(counts)
    ensures var u := OpenAIUsageOf(counts);
      && u.input == counts[0].value && u.output == counts[1].value
      && SameCount(u.cached, counts[2]) && SameCount(u.cacheWrite, counts[3])
  {}

  lemma OpenAIVector(u: OpenAIUsage, v: RateVector, read: Option<nat>, written: Option<nat>)
    requires u.input >= 0 && u.output >= 0 && SameCount(u.cached, read) && SameCount(u.cacheWrite, written)
    ensures var turn := ValueOfContribution(CalculateOpenAI(u, v));
      if Lacks(v, read, written) then turn == NO_RATE
      else if read.None? || written.None? then turn == NO_USAGE
      else if read.value + written.value > u.input then turn == BAD_USAGE
      else Costs(turn, u.input - read.value - written.value, u.output, read.value, written.value, v)
  {
    OpenAIExact(u, v);
    hide At, Worth, LinesAmount, IsAmount, IsRate;
  }
}
