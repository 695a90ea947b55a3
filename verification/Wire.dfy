/** How a report's totals and matches travel (internal/usage/reporthttp/encode.go), and what reading
    them back means.  Counts and amounts are decimal texts; JSON objects are their decoded members. */
module Wire {
  import opened Wrappers
  import opened Decimal
  import opened Amounts
  import opened Tallies
  import opened Ledger
  import Matching = ModelMatch
  import Snapshots
  import Spelling

  // A JSON null or an absent optional member is None.
  datatype WireMetric = WireMetric(sum: Option<string>, reported: string)

  datatype WireCost = WireCost(amount: Option<string>, priced: string, unknown: string, ambiguous: string,
                               missingRate: string, missingUsage: string, inconsistent: string)

  datatype WireMatch = WireMatch(status: string, provider: Option<string>, model: Option<string>, how: Option<string>)

  datatype WireTotal = WireTotal(turns: string, usage: seq<WireMetric>, cost: Option<WireCost>, pricingMatch: Option<WireMatch>)

  datatype WireRow = WireRow(day: int, model: string, total: WireTotal)

  datatype WireModel = WireModel(model: string, total: WireTotal)

  datatype WireSection = WireSection(rows: seq<WireRow>, models: seq<WireModel>, total: WireTotal)

  // ----------------------------------------------------------------------- matches

  // report.PricingMatch: blank members stand for absent ones.
  datatype PricingMatch = PricingMatch(status: string, provider: string, model: string, how: string)

  const NO_MATCH := PricingMatch("", "", "", "")

  function HowText(how: Matching.Method): string {
    match how
    case Exact => "exact"
    case Normalized => "normalized"
    case Suffix => "suffix"
    case Dated => "dated"
  }

  /** reportPricingMatch. */
  function MatchOf(r: Matching.Resolution): PricingMatch {
    match r
    case Matched(i, how) => PricingMatch("matched", i.provider, i.model, HowText(how))
    case Unknown => PricingMatch("unknown", "", "", "")
    case Ambiguous => PricingMatch("ambiguous", "", "", "")
  }

  /** The omitempty of an encoded member, and what reading an absent one leaves. */
  function OmitEmpty(text: string): Option<string> { if text == "" then None else Some(text) }

  function OrEmpty(text: Option<string>): string { if text.Some? then text.value else "" }

  function EncodeMatch(m: PricingMatch): WireMatch {
    WireMatch(m.status, OmitEmpty(m.provider), OmitEmpty(m.model), OmitEmpty(m.how))
  }

  predicate IsMethod(how: string) { how == "exact" || how == "normalized" || how == "alias" || how == "suffix" || how == "dated" }

  /** The match of a row or model, present exactly with pricing. */
  predicate MatchAccepted(o: Option<WireMatch>, pricing: bool) {
    if !pricing then o.None?
    else
      && o.Some?
      && var m := o.value;
         if m.status == "matched" then
           && m.provider.Some? && m.model.Some? && m.how.Some? && IsMethod(m.how.value)
           && Snapshots.ValidName(m.provider.value) && Snapshots.ValidName(m.model.value)
         else (m.status == "unknown" || m.status == "ambiguous") && m.provider.None? && m.model.None? && m.how.None?
  }

  function ReadMatch(o: Option<WireMatch>): PricingMatch {
    if o.None? then NO_MATCH else PricingMatch(o.value.status, OrEmpty(o.value.provider), OrEmpty(o.value.model), OrEmpty(o.value.how))
  }

  /** pricingMatch. */
  method DecodeMatch(o: Option<WireMatch>, pricing: bool) returns (m: Option<PricingMatch>)
    ensures m == if MatchAccepted(o, pricing) then Some(ReadMatch(o)) else None
  {
    if !pricing {
      if o.Some? {
        return None;
      }
      return Some(NO_MATCH);
    }
    if o.None? {
      return None;
    }
    var wire := o.value;
    if wire.status == "matched" {
      if wire.provider.None? || wire.model.None? || wire.how.None? {
        return None;
      }
      if !Snapshots.ValidName(wire.provider.value) || !Snapshots.ValidName(wire.model.value) || !IsMethod(wire.how.value) {
        return None;
      }
      return Some(PricingMatch(wire.status, wire.provider.value, wire.model.value, wire.how.value));
    }
    if wire.status == "unknown" || wire.status == "ambiguous" {
      if wire.provider.Some? || wire.model.Some? || wire.how.Some? {
        return None;
      }
      return Some(PricingMatch(wire.status, "", "", ""));
    }
    return None;
  }

  function HowOf(text: string): Option<Matching.Method> {
    if text == "exact" then Some(Matching.Exact)
    else if text == "normalized" then Some(Matching.Normalized)
    else if text == "suffix" then Some(Matching.Suffix)
    else if text == "dated" then Some(Matching.Dated)
    else None
  }

  /** The resolution that a match tells of. */
  function Meaning(m: PricingMatch): Option<Matching.Resolution> {
    if m.status == "unknown" then Some(Matching.Unknown)
    else if m.status == "ambiguous" then Some(Matching.Ambiguous)
    else if m.status == "matched" && HowOf(m.how).Some? then
      Some(Matching.Matched(Matching.Identity(m.provider, m.model), HowOf(m.how).value))
    else None
  }

  /** Every resolution to a retained identity travels, comes back as it was and tells what it was. */
  lemma MatchTravels(r: Matching.Resolution)
    requires r.Matched? ==> r.identity.provider in Matching.Providers() && Snapshots.ValidName(r.identity.model)
    ensures var o := Some(EncodeMatch(MatchOf(r)));
      MatchAccepted(o, true) && ReadMatch(o) == MatchOf(r) && Meaning(ReadMatch(o)) == Some(r)
  {}

  /** An accepted match tells of a resolution between valid names, or of the alias method, which no
      resolution has. */
  lemma AcceptedMeans(o: Option<WireMatch>)
    requires MatchAccepted(o, true)
    ensures var m := ReadMatch(o);
      && (Meaning(m).Some? || (m.status == "matched" && m.how == "alias"))
      && (m.status == "matched" ==> Snapshots.ValidName(m.provider) && Snapshots.ValidName(m.model))
      && (m.status != "matched" ==> m.provider == "" && m.model == "" && m.how == "")
  {}

  // ------------------------------------------------------------------------ counts

  /** A nonnegative int64 in canonical decimal. */
  function ReadCount(text: string): Option<nat> {
    if IsNumeral(text) && ValueOf(text) <= MAX_INT64 then Some(ValueOf(text)) else None
  }

  /** count. */
  method DecodeCount(text: string) returns (n: Option<nat>)
    ensures n == ReadCount(text)
  {
    if text == "" || (|text| > 1 && text[0] == '0') {
      return None;
    }
    for i := 0 to |text|
      invariant forall k :: 0 <= k < i ==> IsDigit(text[k])
    {
      if text[i] < '0' || text[i] > '9' {
        return None;
      }
    }
    if ValueOf(text) > MAX_INT64 {
      return None;
    }
    return Some(ValueOf(text));
  }

  lemma CountTravels(n: nat)
    requires n <= MAX_INT64
    ensures ReadCount(Digits(n)) == Some(n)
  {
    ValueOfDigits(n);
  }

  /** The amount a text spells, if it spells one. */
  ghost function ReadAmount(text: string): Option<Amount> {
    if exists a: Amount :: Spelling.Format(a) == text then
      var a: Amount :| Spelling.Format(a) == text;
      Some(a)
    else None
  }

  lemma ReadAmountIs(text: string, r: Option<Amount>)
    requires forall x: Amount :: r == Some(x) <==> Spelling.Format(x) == text
    ensures r == ReadAmount(text)
  {
    hide IsAmount, Spelling.Format;
    if r.Some? {
      assert Spelling.Format(r.value) == text;
      var a: Amount :| Spelling.Format(a) == text && ReadAmount(text) == Some(a);
    }
  }

  lemma AmountTravels(a: Amount)
    ensures ReadAmount(Spelling.Format(a)) == Some(a)
  {
    hide IsAmount, Spelling.Format;
    var text := Spelling.Format(a);
    var b: Amount :| Spelling.Format(b) == text && ReadAmount(text) == Some(b);
    AmountCanonical(a);
    AmountCanonical(b);
    Spelling.FormatInjective(a, b);
  }

  lemma AmountCanonical(a: Amount)
    ensures Spelling.Canonical(a)
  {}

  // ------------------------------------------------------------------------ totals

  const NO_COST := Cost(None, 0, Coverage(0, 0, 0, 0, 0))

  function EncodeSum(sum: Option<nat>): Option<string> { if sum.Some? then Some(Digits(sum.value)) else None }

  function EncodeMetric(m: Metric): WireMetric { WireMetric(EncodeSum(m.sum), Digits(m.reported)) }

  function EncodeCost(c: Cost): WireCost {
    WireCost(if c.amount.Some? then Some(Spelling.Format(c.amount.value)) else None, Digits(c.priced), Digits(c.unpriced.unknown),
             Digits(c.unpriced.ambiguous), Digits(c.unpriced.missingRate), Digits(c.unpriced.missingUsage),
             Digits(c.unpriced.inconsistent))
  }

  /** totalForWire and modelTotalForWire. */
  function EncodeTotal(t: Total, pricing: bool, resolution: Option<Matching.Resolution>): WireTotal {
    WireTotal(Digits(t.turns), seq(|t.usage|, i requires 0 <= i < |t.usage| => EncodeMetric(t.usage[i])),
              if pricing then Some(EncodeCost(t.cost)) else None,
              if pricing && resolution.Some? then Some(EncodeMatch(MatchOf(resolution.value))) else None)
  }

  function ReadMetric(m: WireMetric): Option<Metric> {
    if ReadCount(m.reported).None? || (m.sum.Some? && ReadCount(m.sum.value).None?) then None
    else Some(Metric(if m.sum.Some? then ReadCount(m.sum.value) else None, ReadCount(m.reported).value))
  }

  /** A cost object whose every member reads. */
  ghost function ReadCost(c: WireCost): Option<Cost> {
    if || ReadCount(c.priced).None? || ReadCount(c.unknown).None? || ReadCount(c.ambiguous).None? || ReadCount(c.missingRate).None?
       || ReadCount(c.missingUsage).None? || ReadCount(c.inconsistent).None?
       || (c.amount.Some? && ReadAmount(c.amount.value).None?) then None
    else
      Some(Cost(if c.amount.Some? then ReadAmount(c.amount.value) else None, ReadCount(c.priced).value,
                Coverage(ReadCount(c.unknown).value, ReadCount(c.ambiguous).value, ReadCount(c.missingRate).value,
                         ReadCount(c.missingUsage).value, ReadCount(c.inconsistent).value)))
  }

  predicate MetricsRead(usage: seq<WireMetric>) { forall i :: 0 <= i < |usage| ==> ReadMetric(usage[i]).Some? }

  function ReadMetrics(usage: seq<WireMetric>): seq<Metric>
    requires MetricsRead(usage)
  {
    seq(|usage|, i requires 0 <= i < |usage| => ReadMetric(usage[i]).value)
  }

  /** A total whose every text reads; its cost is there exactly with pricing. */
  ghost function ReadTotal(o: WireTotal, pricing: bool): Option<Total> {
    if ReadCount(o.turns).None? || !MetricsRead(o.usage) || o.cost.Some? != pricing then None
    else if !pricing then Some(Total(ReadCount(o.turns).value, ReadMetrics(o.usage), NO_COST))
    else if ReadCost(o.cost.value).None? then None
    else Some(Total(ReadCount(o.turns).value, ReadMetrics(o.usage), ReadCost(o.cost.value).value))
  }

  /** Counts that fit the wire. */
  predicate Wire64(t: Total) {
    && t.turns <= MAX_INT64 && CostWire64(t.cost)
    && (forall i :: 0 <= i < |t.usage| ==> t.usage[i].reported <= MAX_INT64 && Known(t.usage[i].sum, 0) <= MAX_INT64)
  }

  predicate CostWire64(c: Cost) {
    && c.priced <= MAX_INT64 && c.unpriced.unknown <= MAX_INT64 && c.unpriced.ambiguous <= MAX_INT64
    && c.unpriced.missingRate <= MAX_INT64 && c.unpriced.missingUsage <= MAX_INT64 && c.unpriced.inconsistent <= MAX_INT64
  }

  lemma CostTravels(c: Cost)
    requires CostWire64(c)
    ensures ReadCost(EncodeCost(c)) == Some(c)
  {
    hide ReadCount, Digits, ReadAmount, Spelling.Format, IsAmount;
    CountTravels(c.priced);
    CountTravels(c.unpriced.unknown);
    CountTravels(c.unpriced.ambiguous);
    CountTravels(c.unpriced.missingRate);
    CountTravels(c.unpriced.missingUsage);
    CountTravels(c.unpriced.inconsistent);
    if c.amount.Some? { AmountTravels(c.amount.value); }
  }

  lemma MetricTravels(m: Metric)
    requires m.reported <= MAX_INT64 && Known(m.sum, 0) <= MAX_INT64
    ensures ReadMetric(EncodeMetric(m)) == Some(m)
  {
    hide ReadCount, Digits;
    CountTravels(m.reported);
    if m.sum.Some? { CountTravels(m.sum.value); }
  }

  /** What a client sees of a total. */
  function Shown(t: Total, pricing: bool): Total { if pricing then t else t.(cost := NO_COST) }

  /** Reading an encoded total gives the total, without costs when pricing is absent. */
  lemma TotalTravels(t: Total, pricing: bool, resolution: Option<Matching.Resolution>)
    requires Wire64(t)
    ensures ReadTotal(EncodeTotal(t, pricing, resolution), pricing) == Some(Shown(t, pricing))
  {
    hide ReadCount, Digits, ReadCost, EncodeCost, ReadMetric, EncodeMetric, EncodeMatch, MatchOf;
    CountTravels(t.turns);
    CostTravels(t.cost);
    var o := EncodeTotal(t, pricing, resolution);
    forall i | 0 <= i < |t.usage| ensures ReadMetric(o.usage[i]) == Some(t.usage[i]) {
      MetricTravels(t.usage[i]);
    }
    assert ReadMetrics(o.usage) == t.usage;
  }
}
