/** What a report captures before it reads, and how it values one Turn
    (internal/usage/report/report.go: capturePricing, capturedPricing; read.go: readBudget, valueTurn). */
module Capture {
  import opened Wrappers
  import opened Tallies
  import opened Snapshots
  import opened Valuation
  import Matching = ModelMatch

  // ----------------------------------------------------------------------- budget

  datatype Limits = Limits(maxModelBytes: nat, maxRows: nat, maxGroups: nat, maxDistinctModelBytes: nat)

  /** readBudget: shared by the captured pricing and the sections of one request. */
  class ReadBudget {
    const limits: Limits
    var identities: set<string>
    var retainedBytes: nat
    var examined: nat
    var groups: nat

    constructor (limits: Limits)
      ensures this.limits == limits && identities == {} && retainedBytes == 0 && examined == 0 && groups == 0
    {
      this.limits := limits;
      identities, retainedBytes, examined, groups := {}, 0, 0, 0;
    }

    function RemainingBytes(): nat
      reads this`retainedBytes
    {
      if limits.maxDistinctModelBytes > retainedBytes then limits.maxDistinctModelBytes - retainedBytes else 0
    }

    /** retainIdentityBytes. */
    method Retain(size: int) returns (ok: bool)
      modifies this`retainedBytes
      ensures ok <==> 0 <= size <= old(RemainingBytes())
      ensures retainedBytes == old(retainedBytes) + if ok then size else 0
      ensures old(retainedBytes) <= limits.maxDistinctModelBytes ==> retainedBytes <= limits.maxDistinctModelBytes
    {
      if size < 0 || size > RemainingBytes() {
        return false;
      }
      retainedBytes := retainedBytes + size;
      return true;
    }

    /** Each distinct model is charged its bytes once. */
    method Intern(model: string) returns (ok: bool)
      modifies this`identities, this`retainedBytes
      ensures ok <==> model in old(identities) || |model| <= old(RemainingBytes())
      ensures old(retainedBytes) <= limits.maxDistinctModelBytes ==> retainedBytes <= limits.maxDistinctModelBytes
      ensures identities == if ok then old(identities) + {model} else old(identities)
      ensures retainedBytes == old(retainedBytes) + if ok && model !in old(identities) then |model| else 0
    {
      if model in identities {
        return true;
      }
      ok := Retain(|model|);
      if ok {
        identities := identities + {model};
      }
    }
  }

  // ---------------------------------------------------------------------- one Turn

  datatype Surface = Anthropic | OpenAI

  /** The native projections: input and output come first and are required, then the two cache
      counts; the counts after them are never charged. */
  function RequiredCounts(surface: Surface): seq<bool> {
    match surface
    case Anthropic => [true, true, false, false, false, false, false]
    case OpenAI => [true, true, false, false, false, false]
  }

  /** A stored count as an int64. */
  function CountAt(counts: seq<Option<nat>>, i: nat): Option<Int64> {
    if i < |counts| && counts[i].Some? && counts[i].value <= MAX_INT64 then Some(counts[i].value as Int64) else None
  }

  function OrZero(count: Option<Int64>): Int64 { if count.Some? then count.value else 0 }

  function AnthropicUsageOf(counts: seq<Option<nat>>): AnthropicUsage {
    AnthropicUsage(OrZero(CountAt(counts, 0)), OrZero(CountAt(counts, 1)), CountAt(counts, 2), CountAt(counts, 3))
  }

  function OpenAIUsageOf(counts: seq<Option<nat>>): OpenAIUsage {
    OpenAIUsage(OrZero(CountAt(counts, 0)), OrZero(CountAt(counts, 1)), CountAt(counts, 2), CountAt(counts, 3))
  }

  // A model's resolution and, when matched, its tariff.
  datatype ModelPricing = ModelPricing(resolution: Matching.Resolution, tariff: Tariff)

  function Contributed(surface: Surface, counts: seq<Option<nat>>, tier: Option<string>, tariff: Tariff): (c: Contribution)
    ensures IsBounded(c)
  {
    match surface
    case Anthropic => AnthropicContribution(tariff, AnthropicUsageOf(counts))
    case OpenAI => OpenAIContribution(tariff, OpenAIUsageOf(counts), tier)
  }

  function ValueOfContribution(c: Contribution): TurnValue {
    match c
    case Priced(amount) => TurnValue.Priced(amount)
    case Excluded(reason) =>
      Unpriced(match reason
               case MissingRate => Tallies.MissingRate
               case MissingUsage => Tallies.MissingUsage
               case InconsistentUsage => Tallies.InconsistentUsage)
  }

  /** The value of a Turn, and the bound that keeps a report's sums representable. */
  function TurnValueOf(surface: Surface, counts: seq<Option<nat>>, tier: Option<string>, p: ModelPricing): (v: TurnValue)
    ensures v.Priced? ==> p.resolution.Matched? && IsBounded(Contribution.Priced(v.amount))
    ensures v == Unpriced(UnknownModel) <==> p.resolution.Unknown?
    ensures v == Unpriced(AmbiguousModel) <==> p.resolution.Ambiguous?
  {
    match p.resolution
    case Unknown => Unpriced(UnknownModel)
    case Ambiguous => Unpriced(AmbiguousModel)
    case Matched(_, _) => ValueOfContribution(Contributed(surface, counts, tier, p.tariff))
  }

  /** valueTurn. */
  method ValueTurn(surface: Surface, counts: seq<Option<nat>>, tier: Option<string>, p: ModelPricing) returns (v: TurnValue)
    requires Ordered(p.tariff)
    ensures v == TurnValueOf(surface, counts, tier, p)
  {
    hide AnthropicContribution, OpenAIContribution, AnthropicUsageOf, OpenAIUsageOf, Sorted;
    if p.resolution.Unknown? {
      return Unpriced(UnknownModel);
    }
    if p.resolution.Ambiguous? {
      return Unpriced(AmbiguousModel);
    }
    var c: Contribution;
    match surface {
      case Anthropic => c := TariffAnthropic(p.tariff, AnthropicUsageOf(counts));
      case OpenAI => c := TariffOpenAI(p.tariff, OpenAIUsageOf(counts), tier);
    }
    return ValueOfContribution(c);
  }

  // --------------------------------------------------------------- captured pricing

  /** What the policy over a snapshot's identities, and the snapshot, say of a reported model. */
  ghost function PricingOf(s: Snapshot, reported: string): ModelPricing {
    var (provider, model) := Matching.ReportedScope(reported);
    var resolution := Matching.Policy(Matching.Recognized(s.identities), provider, model);
    ModelPricing(resolution, TariffFor(s, resolution))
  }

  /** Snapshot.Tariff of the matched identity; the empty tariff when it has none. */
  function TariffFor(s: Snapshot, r: Matching.Resolution): Tariff {
    if r.Matched? && r.identity in s.tariffs then s.tariffs[r.identity] else NO_TARIFF
  }

  /** What values the Turns of one section. */
  datatype Basis = Basis(surface: Surface, snapshot: Snapshot)
  {
    ghost function ValueOf(counts: seq<Option<nat>>, tier: Option<string>, model: string): TurnValue {
      TurnValueOf(surface, counts, tier, PricingOf(snapshot, model))
    }
  }

  /** capturedPricing: one snapshot and its matcher; each model is resolved once and remembered. */
  class CapturedPricing {
    const snapshot: Snapshot
    const matcher: Matching.Matcher
    var memo: map<string, ModelPricing>

    constructor (snapshot: Snapshot, matcher: Matching.Matcher)
      requires WellFormed(snapshot) && Matching.Indexes(matcher, Matching.Recognized(snapshot.identities))
      ensures this.snapshot == snapshot && this.matcher == matcher && memo == map[] && Valid()
    {
      this.snapshot, this.matcher, memo := snapshot, matcher, map[];
    }

    ghost function For(surface: Surface): Basis { Basis(surface, snapshot) }

    ghost predicate Valid()
      reads this, matcher
    {
      && WellFormed(snapshot) && Matching.Indexes(matcher, Matching.Recognized(snapshot.identities))
      && forall model <- memo :: memo[model] == PricingOf(snapshot, model)
    }

    /** model. */
    method Model(reported: string) returns (p: ModelPricing)
      requires Valid()
      modifies this`memo
      ensures Valid() && p == PricingOf(snapshot, reported) && memo == old(memo)[reported := p]
      ensures Ordered(p.tariff)
    {
      hide WellFormed, Matching.Indexes, Matching.Policy, Matching.Recognized, Ordered;
      TariffOrdered(snapshot, PricingOf(snapshot, reported).resolution);
      if reported in memo {
        return memo[reported];
      }
      Matching.ResolveIsPolicy(matcher, Matching.Recognized(snapshot.identities), reported);
      var resolution := matcher.Resolve(reported);
      p := ModelPricing(resolution, NO_TARIFF);
      if resolution.Matched? && resolution.identity in snapshot.tariffs {
        p := ModelPricing(resolution, snapshot.tariffs[resolution.identity]);
      }
      memo := memo[reported := p];
    }
  }

  lemma BasisIs(pricing: CapturedPricing, surface: Surface)
    ensures pricing.For(surface) == Basis(surface, pricing.snapshot)
  {}

  lemma TariffOrdered(s: Snapshot, r: Matching.Resolution)
    requires WellFormed(s)
    ensures Ordered(TariffFor(s, r))
  {}

  /** capturePricing, after the source answered: the snapshot's identities and the matcher's keys
      are charged to the request's budget; it succeeds exactly when the budget covers both. */
  method CapturePricing(snapshot: Snapshot, budget: ReadBudget) returns (captured: Option<CapturedPricing>)
    requires WellFormed(snapshot)
    modifies budget`retainedBytes
    ensures var bytes, keys := IdentityBytes(snapshot.identities), Matching.KeyBytes(Matching.Required(Matching.Recognized(snapshot.identities)));
      && (captured.Some? <==> bytes + keys <= old(budget.RemainingBytes()))
      && (captured.Some? ==> budget.retainedBytes == old(budget.retainedBytes) + bytes + keys)
    ensures captured.Some? ==>
      fresh(captured.value) && captured.value.Valid() && captured.value.snapshot == snapshot && captured.value.memo == map[]
    ensures old(budget.retainedBytes) <= budget.limits.maxDistinctModelBytes ==>
      budget.retainedBytes <= budget.limits.maxDistinctModelBytes
  {
    hide WellFormed, Matching.Indexes, Matching.KeyBytes, Matching.Required, Matching.Recognized, IdentityBytes;
    var ok := budget.Retain(IdentityBytes(snapshot.identities));
    if !ok {
      return None;
    }
    var matcher := Matching.New(snapshot.identities, budget.RemainingBytes());
    if matcher.None? {
      return None;
    }
    ok := budget.Retain(matcher.value.retained);
    if !ok {
      return None;
    }
    var pricing := new CapturedPricing(snapshot, matcher.value);
    return Some(pricing);
  }

  /** A matched model is one of the snapshot's own identities, from an original provider. */
  lemma MatchedIsRetained(s: Snapshot, reported: string)
    requires PricingOf(s, reported).resolution.Matched?
    ensures var i := PricingOf(s, reported).resolution.identity; i in s.identities && i.provider in Matching.Providers()
  {
    hide Matching.Normal, Matching.StripDate, Matching.StripFast, Matching.Providers;
    var (provider, model) := Matching.ReportedScope(reported);
    var ids := Matching.Recognized(s.identities);
    Matching.MatchedMember(ids, provider, model);
  }
}
