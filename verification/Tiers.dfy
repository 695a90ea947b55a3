/** Context tiers of a tariff (internal/usage/pricing/snapshot.go, mode_context.go): duplicate
    thresholds are refused, the rest are sorted, and the fast schedule keeps the thresholds. */
module Tiers {
  import opened Wrappers
  import opened Decimal
  import opened Spelling
  import opened Rates
  import opened ContextRate
  import opened Valuation

  const LEGACY_THRESHOLD := 200_000

  predicate Distinct(tiers: seq<Tier>) { forall i, j :: 0 <= i < j < |tiers| ==> tiers[i].threshold != tiers[j].threshold }

  /** One tier into its place in a sorted list. */
  method Insert(tiers: seq<Tier>, tier: Tier) returns (r: seq<Tier>)
    requires Sorted(tiers) && forall t <- tiers :: t.threshold != tier.threshold
    ensures Sorted(r) && multiset(r) == multiset(tiers) + multiset{tier}
  {
    var at := 0;
    while at < |tiers| && tiers[at].threshold < tier.threshold
      invariant at <= |tiers| && forall i :: 0 <= i < at ==> tiers[i].threshold < tier.threshold
    {
      at := at + 1;
    }
    r := tiers[..at] + [tier] + tiers[at..];
    if at < |tiers| { assert tiers[at] in tiers; }
    InsertKeeps(tiers, at, tier);
  }

  lemma InsertKeeps(tiers: seq<Tier>, at: nat, tier: Tier)
    requires at <= |tiers|
    ensures multiset(tiers[..at] + [tier] + tiers[at..]) == multiset(tiers) + multiset{tier}
  {
    assert tiers == tiers[..at] + tiers[at..];
  }

  lemma SameThreshold(some: seq<Tier>, all: seq<Tier>, t: Tier)
    requires multiset(some) == multiset(all)
    ensures t in some <==> t in all
  {
    assert t in multiset(some) <==> t in multiset(all);
  }

  /** The tiers of parseCost: nothing when two rows share a threshold, else the rows in order of
      threshold; the legacy row stands in only when there are none. */
  method ParseTiers(base: RateVector, rows: seq<Tier>, legacy: Option<RateVector>) returns (r: Option<Schedule>)
    ensures r.Some? <==> Distinct(rows)
    ensures r.Some? ==> r.value.base == base && Sorted(r.value.tiers)
    ensures r.Some? && rows != [] ==> multiset(r.value.tiers) == multiset(rows)
    ensures r.Some? && rows == [] ==>
      r.value.tiers == if legacy.Some? then [Tier(LEGACY_THRESHOLD, legacy.value)] else []
  {
    var seen: set<nat> := {};
    var tiers: seq<Tier> := [];
    for i := 0 to |rows|
      invariant forall t: nat :: t in seen <==> exists k :: 0 <= k < i && rows[k].threshold == t
      invariant Distinct(rows[..i]) && tiers == rows[..i]
    {
      if rows[i].threshold in seen {
        assert !Distinct(rows);
        return None;
      }
      seen := seen + {rows[i].threshold};
      tiers := tiers + [rows[i]];
      assert rows[..i + 1] == rows[..i] + [rows[i]];
    }
    assert rows[..|rows|] == rows;
    if |tiers| > 0 {
      tiers := SortTiers(rows);
    } else if legacy.Some? {
      tiers := [Tier(LEGACY_THRESHOLD, legacy.value)];
    }
    return Some(Schedule(base, tiers));
  }

  method SortTiers(rows: seq<Tier>) returns (tiers: seq<Tier>)
    requires Distinct(rows)
    ensures Sorted(tiers) && multiset(tiers) == multiset(rows)
  {
    tiers := [];
    for i := 0 to |rows|
      invariant Sorted(tiers) && multiset(tiers) == multiset(rows[..i])
    {
      forall t | t in tiers ensures t.threshold != rows[i].threshold {
        SameThreshold(tiers, rows[..i], t);
      }
      tiers := Insert(tiers, rows[i]);
      assert rows[..i + 1] == rows[..i] + [rows[i]];
    }
    assert rows[..|rows|] == rows;
  }

  lemma SameLength(a: seq<Tier>, b: seq<Tier>)
    requires multiset(a) == multiset(b)
    ensures |a| == |b|
  {
    assert |multiset(a)| == |a| && |multiset(b)| == |b|;
  }

  lemma WithoutFirst(a: seq<Tier>)
    requires a != []
    ensures multiset(a[1..]) == multiset(a) - multiset{a[0]}
  {
    assert a == [a[0]] + a[1..];
  }

  /** Sorting leaves one possible list. */
  lemma {:induction false} SortedUnique(a: seq<Tier>, b: seq<Tier>)
    requires Sorted(a) && Sorted(b) && multiset(a) == multiset(b)
    ensures a == b
  {
    SameLength(a, b);
    if a != [] {
      SameThreshold(a, b, a[0]);
      SameThreshold(a, b, b[0]);
      assert a[0] == b[0];
      WithoutFirst(a);
      WithoutFirst(b);
      SortedUnique(a[1..], b[1..]);
      assert a == [a[0]] + a[1..] && b == [b[0]] + b[1..];
    }
  }

  /** A rate is the exact premium, where that is representable. */
  ghost predicate IsPremium(base: Option<Rate>, fast: Option<Rate>, context: Option<Rate>, r: Option<Rate>) {
    && (r.Some? <==>
          && base.Some? && fast.Some? && context.Some? && base.value.coefficient > 0
          && Representable(Numerator(base.value, fast.value, context.value), Denominator(base.value, fast.value, context.value)))
    && (r.Some? ==> Canonical(r.value))
    && (r.Some? ==>
          IsQuotient(r.value, Numerator(base.value, fast.value, context.value), Denominator(base.value, fast.value, context.value)))
  }

  ghost predicate IsPremiumVector(base: RateVector, fast: RateVector, context: RateVector, r: RateVector) {
    && IsPremium(base.input, fast.input, context.input, r.input) && IsPremium(base.output, fast.output, context.output, r.output)
    && IsPremium(base.cacheRead, fast.cacheRead, context.cacheRead, r.cacheRead)
    && IsPremium(base.cacheWrite, fast.cacheWrite, context.cacheWrite, r.cacheWrite)
  }

  /** The units of a quotient are the numerator's, whatever the scale it is written at. */
  lemma QuotientUnits(r: Scaled, n: nat, d: nat, p: nat)
    requires IsQuotient(r, n, d) && r.scale <= p
    ensures Units(r, p) * d == n * Pow10(p)
  {
    PowAdd(r.scale, p - r.scale);
    hide Pow10;
    Rescale(r.coefficient, d, n, Pow10(r.scale), Pow10(p - r.scale));
  }

  lemma Rescale(c: nat, d: nat, n: nat, low: nat, high: nat)
    requires c * d == n * low
    ensures (c * high) * d == n * (low * high)
  {
    assert (c * high) * d == (c * d) * high;
  }

  /** An exact premium is the only one. */
  lemma PremiumUnique(base: Option<Rate>, fast: Option<Rate>, context: Option<Rate>, a: Option<Rate>, b: Option<Rate>)
    requires IsPremium(base, fast, context, a) && IsPremium(base, fast, context, b)
    ensures a == b
  {
    hide Representable, IsQuotient, Canonical, Numerator, Denominator, Units, Pow10;
    if a.Some? {
      var n, d := Numerator(base.value, fast.value, context.value), Denominator(base.value, fast.value, context.value);
      var p := if a.value.scale < b.value.scale then b.value.scale else a.value.scale;
      QuotientUnits(a.value, n, d, p);
      QuotientUnits(b.value, n, d, p);
      PositiveDenominator(base.value, fast.value, context.value);
      SameFactor(Units(a.value, p), Units(b.value, p), d);
      CanonicalUnique(a.value, b.value, p);
    }
  }

  lemma PositiveDenominator(base: Rate, fast: Rate, context: Rate)
    requires base.coefficient > 0
    ensures Denominator(base, fast, context) > 0
  {}

  lemma SameFactor(a: nat, b: nat, d: nat)
    requires a * d == b * d && d > 0
    ensures a == b
  {
    if a < b { LessTimes(a, b, d); }
    if b < a { LessTimes(b, a, d); }
  }

  lemma VectorUnique(base: RateVector, fast: RateVector, context: RateVector, a: RateVector, b: RateVector)
    requires IsPremiumVector(base, fast, context, a) && IsPremiumVector(base, fast, context, b)
    ensures a == b
  {
    hide IsPremium;
    PremiumUnique(base.input, fast.input, context.input, a.input, b.input);
    PremiumUnique(base.output, fast.output, context.output, a.output, b.output);
    PremiumUnique(base.cacheRead, fast.cacheRead, context.cacheRead, a.cacheRead, b.cacheRead);
    PremiumUnique(base.cacheWrite, fast.cacheWrite, context.cacheWrite, a.cacheWrite, b.cacheWrite);
  }

  /** deriveFastContextRates: no category lends an operand to another. */
  method DeriveFastContextRates(base: RateVector, fast: RateVector, context: RateVector) returns (r: RateVector)
    ensures IsPremiumVector(base, fast, context, r)
  {
    hide Representable, IsQuotient, Canonical, Numerator, Denominator;
    var input := DeriveFastContextRate(base.input, fast.input, context.input);
    var output := DeriveFastContextRate(base.output, fast.output, context.output);
    var cacheRead := DeriveFastContextRate(base.cacheRead, fast.cacheRead, context.cacheRead);
    var cacheWrite := DeriveFastContextRate(base.cacheWrite, fast.cacheWrite, context.cacheWrite);
    return RateVector(input, output, cacheRead, cacheWrite);
  }

  /** The fast schedule of a model: the normal thresholds, each with its exact premiums. */
  method FastSchedule(normal: Schedule, fast: RateVector) returns (r: Schedule)
    requires Sorted(normal.tiers)
    ensures r.base == fast && Sorted(r.tiers) && |r.tiers| == |normal.tiers|
    ensures forall i :: 0 <= i < |r.tiers| ==>
      r.tiers[i].threshold == normal.tiers[i].threshold
      && IsPremiumVector(normal.base, fast, normal.tiers[i].rates, r.tiers[i].rates)
  {
    hide IsPremiumVector;
    var tiers: seq<Tier> := [];
    for i := 0 to |normal.tiers|
      invariant |tiers| == i
      invariant forall k :: 0 <= k < i ==>
        tiers[k].threshold == normal.tiers[k].threshold
        && IsPremiumVector(normal.base, fast, normal.tiers[k].rates, tiers[k].rates)
    {
      var rates := DeriveFastContextRates(normal.base, fast, normal.tiers[i].rates);
      tiers := tiers + [Tier(normal.tiers[i].threshold, rates)];
    }
    return Schedule(fast, tiers);
  }

  lemma {:induction false} SelectsSame(a: seq<Tier>, b: seq<Tier>, input: nat)
    requires |a| == |b| && forall i :: 0 <= i < |a| ==> a[i].threshold == b[i].threshold
    ensures CountBelow(a, input) == CountBelow(b, input) <= |a|
  {
    if a != [] { SelectsSame(a[..|a| - 1], b[..|b| - 1], input); }
  }

  /** Fast and normal pricing agree on the tier an input falls in: with the fast schedule each
      selected rate is the exact premium on the normal rate selected for the same input. */
  lemma FastFollowsNormal(normal: Schedule, fast: Schedule, input: nat)
    requires |normal.tiers| == |fast.tiers|
    requires forall i :: 0 <= i < |fast.tiers| ==>
      fast.tiers[i].threshold == normal.tiers[i].threshold
      && IsPremiumVector(normal.base, fast.base, normal.tiers[i].rates, fast.tiers[i].rates)
    ensures (Select(fast, input) == fast.base && Select(normal, input) == normal.base)
            || IsPremiumVector(normal.base, fast.base, Select(normal, input), Select(fast, input))
  {
    hide IsPremiumVector;
    SelectsSame(normal.tiers, fast.tiers, input);
  }
}
