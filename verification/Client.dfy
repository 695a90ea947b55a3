/** The independent checks a client makes while it decodes a report
    (internal/usage/reporthttp/validate.go), and why every section the daemon builds passes them and
    comes back as it was. */
module Client {
  import opened Wrappers
  import opened Amounts
  import opened Tallies
  import opened Ledger
  import opened Capture
  import opened Wire
  import Calendar
  import Matching = ModelMatch
  import Snapshots
  import Spelling

  // -------------------------------------------------------------------- one total

  function Reasons(c: Cost): seq<nat> {
    [c.unpriced.unknown, c.unpriced.ambiguous, c.unpriced.missingRate, c.unpriced.missingUsage, c.unpriced.inconsistent]
  }

  function SumOf(counts: seq<nat>): nat { if counts == [] then 0 else SumOf(counts[..|counts| - 1]) + counts[|counts| - 1] }

  predicate MetricAccepted(m: Metric, required: bool, turns: nat) {
    && m.reported <= turns
    && (if required then m.sum.Some? && m.reported == turns && (turns == 0 ==> m.sum.value == 0)
        else m.sum.None? <==> m.reported == 0)
  }

  predicate CostAccepted(c: Cost, turns: nat) {
    && c.priced + SumOf(Reasons(c)) == turns
    && (turns == 0 ==> c.amount.Some? && Spelling.Format(c.amount.value) == "0")
    && (turns > 0 && c.priced == 0 ==> c.amount.None?)
    && (c.priced > 0 ==> c.amount.Some?)
  }

  predicate TotalAccepted(t: Total, section: bool, required: seq<bool>, pricing: bool) {
    && (!section ==> t.turns != 0) && |t.usage| == |required|
    && (forall i :: 0 <= i < |required| ==> MetricAccepted(t.usage[i], required[i], t.turns))
    && (pricing ==> CostAccepted(t.cost, t.turns))
  }

  /** The total a client decodes, when it accepts one: every text reads and every rule holds. */
  ghost function TotalOf(o: WireTotal, section: bool, required: seq<bool>, pricing: bool): Option<Total> {
    if section && o.pricingMatch.Some? then None
    else
      var t := ReadTotal(o, pricing);
      if t.Some? && TotalAccepted(t.value, section, required, pricing) then t else None
  }

  lemma {:induction false} SumGrows(counts: seq<nat>, i: nat)
    requires i < |counts|
    ensures SumOf(counts[..i + 1]) == SumOf(counts[..i]) + counts[i] && SumOf(counts[..i + 1]) <= SumOf(counts)
    decreases |counts| - i
  {
    assert counts[..i + 1][..i] == counts[..i];
    if i + 1 < |counts| {
      SumGrows(counts, i + 1);
    } else {
      assert counts[..i + 1] == counts;
    }
  }

  /** wireDecoder.cost. */
  method DecodeCost(o: WireCost, turns: nat) returns (c: Option<Cost>)
    requires turns <= MAX_INT64
    ensures c == if ReadCost(o).Some? && CostAccepted(ReadCost(o).value, turns) then ReadCost(o) else None
  {
    hide IsAmount, Spelling.Format, SumOf, ReadAmount, ReadCount;
    var amount: Option<Amount> := None;
    if o.amount.Some? {
      amount := ParseAmount(o.amount.value);
      ReadAmountIs(o.amount.value, amount);
      if amount.None? {
        return None;
      }
    }
    var counts := DecodeCounts([o.priced, o.unknown, o.ambiguous, o.missingRate, o.missingUsage, o.inconsistent]);
    if counts.None? {
      return None;
    }
    var n := counts.value;
    var cost := Cost(amount, n[0], Coverage(n[1], n[2], n[3], n[4], n[5]));
    assert ReadCost(o) == Some(cost);
    CountInRange(o.priced);
    var ok := BalancesTo(cost, turns);
    if !ok || (turns == 0 && (amount.None? || Spelling.Format(amount.value) != "0"))
      || (turns > 0 && cost.priced == 0 && amount.Some?) || (cost.priced > 0 && amount.None?) {
      return None;
    }
    return Some(cost);
  }

  /** Six count members. */
  method DecodeCounts(texts: seq<string>) returns (r: Option<seq<nat>>)
    ensures r.Some? <==> forall i :: 0 <= i < |texts| ==> ReadCount(texts[i]).Some?
    ensures r.Some? ==> |r.value| == |texts| && forall i :: 0 <= i < |texts| ==> Some(r.value[i]) == ReadCount(texts[i])
  {
    hide ReadCount;
    var counts: seq<nat> := [];
    for i := 0 to |texts|
      invariant |counts| == i && forall k :: 0 <= k < i ==> Some(counts[k]) == ReadCount(texts[k])
    {
      var n := DecodeCount(texts[i]);
      if n.None? {
        return None;
      }
      counts := counts + [n.value];
    }
    return Some(counts);
  }

  /** The checked sum of the coverage counts. */
  method BalancesTo(c: Cost, turns: nat) returns (ok: bool)
    requires turns <= MAX_INT64 && c.priced <= MAX_INT64
    ensures ok <==> c.priced + SumOf(Reasons(c)) == turns
  {
    hide SumOf;
    var counts := Reasons(c);
    var total := c.priced;
    NothingSummed(counts);
    for i := 0 to 5
      invariant total == c.priced + SumOf(counts[..i]) <= MAX_INT64
    {
      SumGrows(counts, i);
      if counts[i] > MAX_INT64 - total {
        return false;
      }
      total := total + counts[i];
    }
    assert counts[..5] == counts;
    return total == turns;
  }

  lemma NothingSummed(counts: seq<nat>)
    ensures SumOf(counts[..0]) == 0
  {}

  method DecodeMetric(o: WireMetric) returns (m: Option<Metric>)
    ensures m == ReadMetric(o)
  {
    hide ReadCount;
    var reported := DecodeCount(o.reported);
    var sum: Option<nat> := None;
    if o.sum.Some? {
      sum := DecodeCount(o.sum.value);
      if sum.None? {
        return None;
      }
    }
    if reported.None? {
      return None;
    }
    return Some(Metric(sum, reported.value));
  }

  /** wireDecoder.total. */
  method DecodeTotal(o: WireTotal, section: bool, required: seq<bool>, pricing: bool) returns (t: Option<Total>)
    ensures t == TotalOf(o, section, required, pricing)
  {
    hide CostAccepted, ReadCount, ReadCost, ReadMetric, MetricAccepted;
    var turns := DecodeCount(o.turns);
    if turns.None? {
      return None;
    }
    CountInRange(o.turns);
    if section {
      if o.pricingMatch.Some? {
        return None;
      }
    } else if turns.value == 0 {
      return None;
    }
    if |o.usage| != |required| {
      return None;
    }
    var usage: seq<Metric> := [];
    for i := 0 to |required|
      invariant |usage| == i
      invariant forall k :: 0 <= k < i ==> Some(usage[k]) == ReadMetric(o.usage[k]) && MetricAccepted(usage[k], required[k], turns.value)
    {
      var m := DecodeMetric(o.usage[i]);
      if m.None? {
        return None;
      }
      var ok := AcceptMetric(m.value, required[i], turns.value);
      if !ok {
        return None;
      }
      usage := usage + [m.value];
    }
    assert MetricsRead(o.usage) && ReadMetrics(o.usage) == usage;
    if !pricing {
      if o.cost.Some? {
        return None;
      }
      return Some(Total(turns.value, usage, NO_COST));
    }
    if o.cost.None? {
      return None;
    }
    var cost := DecodeCost(o.cost.value, turns.value);
    if cost.None? {
      return None;
    }
    return Some(Total(turns.value, usage, cost.value));
  }

  lemma CountInRange(text: string)
    ensures ReadCount(text).Some? ==> ReadCount(text).value <= MAX_INT64
  {}

  method AcceptMetric(m: Metric, required: bool, turns: nat) returns (ok: bool)
    ensures ok <==> MetricAccepted(m, required, turns)
  {
    if m.reported > turns {
      return false;
    }
    if required {
      return m.sum.Some? && m.reported == turns && !(turns == 0 && m.sum.value != 0);
    }
    return m.sum.None? == (m.reported == 0);
  }

  // ------------------------------------------------------------------ one section

  // What a client holds after decoding.
  datatype SeenRow = SeenRow(day: int, model: string, pricingMatch: PricingMatch, total: Total)
  datatype SeenModel = SeenModel(model: string, pricingMatch: PricingMatch, total: Total)
  datatype Seen = Seen(rows: seq<SeenRow>, models: seq<SeenModel>, total: Total)

  /** What a decoder expects of a section. */
  datatype Expected = Expected(required: seq<bool>, dates: set<int>, filter: Option<string>, pricing: bool)

  ghost function RowOf(o: WireRow, x: Expected): Option<SeenRow> {
    var t := TotalOf(o.total, false, x.required, x.pricing);
    if t.None? || !MatchAccepted(o.total.pricingMatch, x.pricing) || o.day !in x.dates || (x.filter.Some? && o.model != x.filter.value) then None
    else Some(SeenRow(o.day, o.model, ReadMatch(o.total.pricingMatch), t.value))
  }

  ghost function ModelOf(o: WireModel, x: Expected): Option<SeenModel> {
    var t := TotalOf(o.total, false, x.required, x.pricing);
    if t.None? || !MatchAccepted(o.total.pricingMatch, x.pricing) || (x.filter.Some? && o.model != x.filter.value) then None
    else Some(SeenModel(o.model, ReadMatch(o.total.pricingMatch), t.value))
  }

  ghost predicate RowAccepted(rows: seq<WireRow>, i: nat, x: Expected)
    requires i < |rows|
  {
    RowOf(rows[i], x).Some? && (i > 0 ==> Before(OfRow(rows[i - 1].day, rows[i - 1].model), OfRow(rows[i].day, rows[i].model)))
  }

  ghost predicate ModelAccepted(models: seq<WireModel>, i: nat, x: Expected)
    requires i < |models|
  {
    ModelOf(models[i], x).Some? && (i > 0 ==> Before(OfModel(models[i - 1].model), OfModel(models[i].model)))
  }

  /** A section is accepted when its total, its ascending rows and its ascending models are, and it
      is empty exactly when its total is. */
  ghost predicate SectionAccepted(o: WireSection, x: Expected) {
    && TotalOf(o.total, true, x.required, x.pricing).Some?
    && (forall i :: 0 <= i < |o.rows| ==> RowAccepted(o.rows, i, x))
    && (forall i :: 0 <= i < |o.models| ==> ModelAccepted(o.models, i, x))
    && (if TotalOf(o.total, true, x.required, x.pricing).value.turns == 0 then o.rows == [] && o.models == []
        else o.rows != [] && o.models != [])
  }

  /** What has been decoded says exactly what was sent. */
  ghost predicate Says(s: Seen, o: WireSection, x: Expected) {
    && Some(s.total) == TotalOf(o.total, true, x.required, x.pricing)
    && |s.rows| == |o.rows| && (forall i :: 0 <= i < |o.rows| ==> Some(s.rows[i]) == RowOf(o.rows[i], x))
    && |s.models| == |o.models| && (forall i :: 0 <= i < |o.models| ==> Some(s.models[i]) == ModelOf(o.models[i], x))
  }

  /** The section loop of decodeReport. */
  method DecodeSection(o: WireSection, x: Expected) returns (s: Option<Seen>)
    ensures s.Some? <==> SectionAccepted(o, x)
    ensures s.Some? ==> Says(s.value, o, x)
  {
    hide TotalOf, MatchAccepted, ReadMatch, Before, Less;
    var total := DecodeTotal(o.total, true, x.required, x.pricing);
    if total.None? {
      return None;
    }
    var rows := DecodeRows(o.rows, x);
    if rows.None? {
      return None;
    }
    var models := DecodeModels(o.models, x);
    if models.None? {
      return None;
    }
    if (total.value.turns == 0 && (|o.rows| != 0 || |o.models| != 0)) || (total.value.turns > 0 && (|o.rows| == 0 || |o.models| == 0)) {
      return None;
    }
    return Some(Seen(rows.value, models.value, total.value));
  }

  method DecodeRows(rows: seq<WireRow>, x: Expected) returns (r: Option<seq<SeenRow>>)
    ensures r.Some? <==> forall i :: 0 <= i < |rows| ==> RowAccepted(rows, i, x)
    ensures r.Some? ==> |r.value| == |rows| && forall i :: 0 <= i < |rows| ==> Some(r.value[i]) == RowOf(rows[i], x)
  {
    hide TotalOf, MatchAccepted, ReadMatch, Less;
    var seen: seq<SeenRow> := [];
    for i := 0 to |rows|
      invariant |seen| == i && forall k :: 0 <= k < i ==> RowAccepted(rows, k, x) && Some(seen[k]) == RowOf(rows[k], x)
    {
      var row := rows[i];
      ghost var here := RowAccepted(rows, i, x);
      var total := DecodeTotal(row.total, false, x.required, x.pricing);
      var found := DecodeMatch(row.total.pricingMatch, x.pricing);
      if total.None? || found.None? || row.day !in x.dates || (x.filter.Some? && row.model != x.filter.value) {
        return None;
      }
      if i > 0 {
        var previous := rows[i - 1];
        LessOne(previous.model, row.model);
        if previous.day > row.day || (previous.day == row.day && !Less(previous.model, row.model)) {
          return None;
        }
      }
      seen := seen + [SeenRow(row.day, row.model, found.value, total.value)];
    }
    return Some(seen);
  }

  method DecodeModels(models: seq<WireModel>, x: Expected) returns (r: Option<seq<SeenModel>>)
    ensures r.Some? <==> forall i :: 0 <= i < |models| ==> ModelAccepted(models, i, x)
    ensures r.Some? ==> |r.value| == |models| && forall i :: 0 <= i < |models| ==> Some(r.value[i]) == ModelOf(models[i], x)
  {
    hide TotalOf, MatchAccepted, ReadMatch, Less;
    var seen: seq<SeenModel> := [];
    for i := 0 to |models|
      invariant |seen| == i && forall k :: 0 <= k < i ==> ModelAccepted(models, k, x) && Some(seen[k]) == ModelOf(models[k], x)
    {
      var model := models[i];
      ghost var here := ModelAccepted(models, i, x);
      var total := DecodeTotal(model.total, false, x.required, x.pricing);
      var found := DecodeMatch(model.total.pricingMatch, x.pricing);
      if total.None? || found.None? || (x.filter.Some? && model.model != x.filter.value) {
        return None;
      }
      if i > 0 && !Less(models[i - 1].model, model.model) {
        return None;
      }
      seen := seen + [SeenModel(model.model, found.value, total.value)];
    }
    return Some(seen);
  }

  // -------------------------------------------------------- what the daemon builds

  /** The section on the wire. */
  function EncodeSection(s: Section, pricing: bool): WireSection {
    WireSection(seq(|s.rows|, i requires 0 <= i < |s.rows| => EncodeRow(s.rows[i], pricing)),
                seq(|s.models|, i requires 0 <= i < |s.models| => EncodeModel(s.models[i], pricing)),
                EncodeTotal(s.total, pricing, None))
  }

  function EncodeRow(row: Row, pricing: bool): WireRow {
    WireRow(row.day, row.model, EncodeTotal(row.total, pricing, Some(row.resolution)))
  }

  function EncodeModel(m: ModelTotal, pricing: bool): WireModel {
    WireModel(m.model, EncodeTotal(m.total, pricing, Some(m.resolution)))
  }

  /** The section itself, as a client should see it. */
  function ShownSection(s: Section, pricing: bool): Seen {
    Seen(seq(|s.rows|, i requires 0 <= i < |s.rows| => ShownRow(s.rows[i], pricing)),
         seq(|s.models|, i requires 0 <= i < |s.models| => ShownModel(s.models[i], pricing)),
         Shown(s.total, pricing))
  }

  function ShownMatch(r: Matching.Resolution, pricing: bool): PricingMatch { if pricing then MatchOf(r) else NO_MATCH }

  function ShownRow(row: Row, pricing: bool): SeenRow {
    SeenRow(row.day, row.model, ShownMatch(row.resolution, pricing), Shown(row.total, pricing))
  }

  function ShownModel(m: ModelTotal, pricing: bool): SeenModel {
    SeenModel(m.model, ShownMatch(m.resolution, pricing), Shown(m.total, pricing))
  }

  lemma BalancedPasses(t: Total, section: bool, required: seq<bool>, pricing: bool)
    requires Balanced(t, required) && (!section ==> t.turns > 0)
    ensures TotalAccepted(Shown(t, pricing), section, required, pricing) && Wire64(t)
  {
    hide Worth, IsAmount, Affordable, SumOf;
    var r := Reasons(t.cost);
    assert SumOf(r) == r[0] + r[1] + r[2] + r[3] + r[4] by { FiveReasons(r); }
    assert Spelling.Format(ZERO) == "0";
    forall i | 0 <= i < |required| ensures MetricAccepted(t.usage[i], required[i], t.turns) {
      assert MetricOk(t.usage[i], required[i], t.turns);
    }
    forall i | 0 <= i < |t.usage| ensures t.usage[i].reported <= MAX_INT64 && Known(t.usage[i].sum, 0) <= MAX_INT64 {
      assert MetricOk(t.usage[i], required[i], t.turns);
    }
  }

  lemma FiveReasons(r: seq<nat>)
    requires |r| == 5
    ensures SumOf(r) == r[0] + r[1] + r[2] + r[3] + r[4]
  {
    NothingSummed(r);
    SumGrows(r, 0);
    SumGrows(r, 1);
    SumGrows(r, 2);
    SumGrows(r, 3);
    SumGrows(r, 4);
    assert r[..5] == r;
  }

  /** A balanced total passes and comes back. */
  lemma TotalPasses(t: Total, section: bool, required: seq<bool>, pricing: bool, resolution: Option<Matching.Resolution>)
    requires Balanced(t, required) && (!section ==> t.turns > 0) && (section ==> resolution.None?)
    ensures TotalOf(EncodeTotal(t, pricing, resolution), section, required, pricing) == Some(Shown(t, pricing))
  {
    hide Balanced, TotalAccepted, ReadTotal, Wire64, EncodeCost, EncodeMetric, EncodeMatch, MatchOf;
    BalancedPasses(t, section, required, pricing);
    TotalTravels(t, pricing, resolution);
  }

  lemma ScopePasses(t: Total, entries: seq<Entry>, f: Scope, x: Expected, r: Matching.Resolution)
    requires IsTotalOf(t, entries, f, x.required) && Tally(entries, f, Turns) > 0
    requires r.Matched? ==> r.identity.provider in Matching.Providers() && Snapshots.ValidName(r.identity.model)
    ensures var o := EncodeTotal(t, x.pricing, Some(r));
      && TotalOf(o, false, x.required, x.pricing) == Some(Shown(t, x.pricing))
      && MatchAccepted(o.pricingMatch, x.pricing) && ReadMatch(o.pricingMatch) == ShownMatch(r, x.pricing)
  {
    hide Balanced, Tally, TotalOf, Matching.Providers;
    assert Value(t, Turns) == t.turns;
    TotalPasses(t, false, x.required, x.pricing, Some(r));
    MatchTravels(r);
  }

  /** The matches of a section name retained identities. */
  ghost predicate Retained(s: Section) {
    && (forall i :: 0 <= i < |s.rows| ==> RetainedMatch(s.rows[i].resolution))
    && (forall i :: 0 <= i < |s.models| ==> RetainedMatch(s.models[i].resolution))
  }

  predicate RetainedMatch(r: Matching.Resolution) {
    r.Matched? ==> r.identity.provider in Matching.Providers() && Snapshots.ValidName(r.identity.model)
  }

  lemma ResolvedRetained(s: Section, snapshot: Snapshots.Snapshot)
    requires Resolved(s, snapshot) && Snapshots.WellFormed(snapshot)
    ensures Retained(s)
  {
    hide Matching.Providers, PricingOf, Snapshots.ValidName;
    forall i | 0 <= i < |s.rows| ensures RetainedMatch(s.rows[i].resolution) {
      assert s.rows[i] in s.rows;
      if s.rows[i].resolution.Matched? { MatchedIsRetained(snapshot, s.rows[i].model); }
    }
    forall i | 0 <= i < |s.models| ensures RetainedMatch(s.models[i].resolution) {
      assert s.models[i] in s.models;
      if s.models[i].resolution.Matched? { MatchedIsRetained(snapshot, s.models[i].model); }
    }
  }

  predicate Expects(x: Expected, entries: seq<Entry>) {
    forall e <- entries :: e.day in x.dates && (x.filter.Some? ==> e.model == x.filter.value)
  }

  /** The client accepts every exact section and decodes it to what was built. */
  lemma SectionPasses(s: Section, entries: seq<Entry>, x: Expected)
    requires IsSectionOf(s, entries, x.required) && Retained(s) && Expects(x, entries)
    ensures SectionAccepted(EncodeSection(s, x.pricing), x) && Says(ShownSection(s, x.pricing), EncodeSection(s, x.pricing), x)
  {
    hide Balanced, Tally, TotalOf, Before, Value, RetainedMatch, MatchAccepted, ReadMatch, EncodeTotal, RowOf, ModelOf;
    var o := EncodeSection(s, x.pricing);
    TotalPasses(s.total, true, x.required, x.pricing, None);
    forall i | 0 <= i < |s.rows| ensures RowAccepted(o.rows, i, x) && RowOf(o.rows[i], x) == Some(ShownRow(s.rows[i], x.pricing)) {
      RowPasses(s, i, entries, x);
    }
    forall i | 0 <= i < |s.models|
      ensures ModelAccepted(o.models, i, x) && ModelOf(o.models[i], x) == Some(ShownModel(s.models[i], x.pricing))
    {
      ModelPasses(s, i, entries, x);
    }
    EmptyTogether(s, entries, x.required);
  }

  lemma RowPasses(s: Section, i: nat, entries: seq<Entry>, x: Expected)
    requires i < |s.rows| && RowsTrue(s.rows, entries, x.required) && RetainedMatch(s.rows[i].resolution) && Expects(x, entries)
    ensures var o := EncodeSection(s, x.pricing);
      RowAccepted(o.rows, i, x) && RowOf(o.rows[i], x) == Some(ShownRow(s.rows[i], x.pricing))
  {
    hide Tally, TotalOf, Before, IsTotalOf, MatchAccepted, ReadMatch, EncodeTotal, MatchOf;
    var keys := RowScopes(s.rows);
    var f := OfRow(s.rows[i].day, s.rows[i].model);
    assert keys[i] == f && f in keys;
    ScopePasses(s.rows[i].total, entries, f, x, s.rows[i].resolution);
    var e := SomeEntry(entries, f);
    if i > 0 { assert Before(keys[i - 1], keys[i]); }
  }

  lemma ModelPasses(s: Section, i: nat, entries: seq<Entry>, x: Expected)
    requires i < |s.models| && ModelsTrue(s.models, entries, x.required) && RetainedMatch(s.models[i].resolution) && Expects(x, entries)
    ensures var o := EncodeSection(s, x.pricing);
      ModelAccepted(o.models, i, x) && ModelOf(o.models[i], x) == Some(ShownModel(s.models[i], x.pricing))
  {
    hide Tally, TotalOf, Before, IsTotalOf, MatchAccepted, ReadMatch, EncodeTotal, MatchOf;
    var keys := ModelScopes(s.models);
    var f := OfModel(s.models[i].model);
    assert keys[i] == f && f in keys;
    ScopePasses(s.models[i].total, entries, f, x, s.models[i].resolution);
    var e := SomeEntry(entries, f);
    if i > 0 { assert Before(keys[i - 1], keys[i]); }
  }

  lemma EmptyTogether(s: Section, entries: seq<Entry>, required: seq<bool>)
    requires IsSectionOf(s, entries, required)
    ensures if s.total.turns == 0 then s.rows == [] && s.models == [] else s.rows != [] && s.models != []
  {
    hide Balanced, Ascending, Weight, Covers;
    assert Value(s.total, Turns) == s.total.turns == Tally(entries, Everything, Turns);
    if s.total.turns == 0 {
      if s.rows != [] { Occurs(RowScopes(s.rows), entries); }
      if s.models != [] { Occurs(ModelScopes(s.models), entries); }
    } else {
      var e := SomeEntry(entries, Everything);
      assert KeyOf(true, e) in RowScopes(s.rows) && KeyOf(false, e) in ModelScopes(s.models);
    }
  }

  lemma Occurs(keys: seq<Scope>, entries: seq<Entry>)
    requires keys != [] && Tally(entries, keys[0], Turns) > 0
    ensures Tally(entries, Everything, Turns) > 0
  {
    TallyAtMost(entries, keys[0], Turns);
  }

  // --------------------------------------------------------------------- buckets

  function Dates(w: Calendar.Window): set<int> { set b <- w.buckets :: b.startDate }

  /** decodeReport on the buckets. */
  predicate BucketsAccepted(w: Calendar.Window) {
    && 0 < |w.buckets| <= Calendar.MAX_BUCKETS
    && (forall i :: 0 <= i < |w.buckets| ==> BucketAccepted(w, i))
    && w.buckets[0].rangeStart == w.lo && w.buckets[|w.buckets| - 1].rangeEnd == w.hi
  }

  predicate BucketAccepted(w: Calendar.Window, i: nat)
    requires i < |w.buckets|
  {
    var b := w.buckets[i];
    && b.startDate < b.untilDate && b.rangeStart < b.rangeEnd && w.lo <= b.rangeStart && b.rangeEnd <= w.hi
    && (forall j :: 0 <= j < i ==> w.buckets[j].startDate != b.startDate)
    && (i > 0 ==> w.buckets[i - 1].rangeEnd == b.rangeStart)
  }

  lemma DatesAre(w: Calendar.Window, names: set<int>)
    requires forall d :: d in names <==> exists k :: 0 <= k < |w.buckets| && w.buckets[k].startDate == d
    ensures names == Dates(w)
  {
    forall d ensures d in names <==> d in Dates(w) {
      if d in names {
        var k :| 0 <= k < |w.buckets| && w.buckets[k].startDate == d;
        assert w.buckets[k] in w.buckets;
      }
    }
  }

  /** The bucket loop of decodeReport. */
  method AcceptBuckets(w: Calendar.Window) returns (ok: bool, names: set<int>)
    ensures ok <==> BucketsAccepted(w)
    ensures names == Dates(w)
  {
    ok, names := true, {};
    for i := 0 to |w.buckets|
      invariant ok <==> forall k :: 0 <= k < i ==> BucketAccepted(w, k)
      invariant forall d :: d in names <==> exists k :: 0 <= k < i && w.buckets[k].startDate == d
    {
      var b := w.buckets[i];
      ghost var here := BucketAccepted(w, i);
      if b.startDate >= b.untilDate || b.rangeStart >= b.rangeEnd || b.rangeStart < w.lo || b.rangeEnd > w.hi || b.startDate in names {
        ok := false;
      }
      if i > 0 && w.buckets[i - 1].rangeEnd != b.rangeStart {
        ok := false;
      }
      names := names + {b.startDate};
    }
    DatesAre(w, names);
    if |w.buckets| == 0 || |w.buckets| > Calendar.MAX_BUCKETS {
      ok := false;
    } else if w.buckets[0].rangeStart != w.lo || w.buckets[|w.buckets| - 1].rangeEnd != w.hi {
      ok := false;
    }
  }

  lemma {:induction false} EndsInOrder(w: Calendar.Window, i: nat)
    requires Calendar.Partition(w) && i < |w.buckets|
    ensures w.lo <= w.buckets[i].rangeStart < w.buckets[i].rangeEnd <= w.hi
    ensures i > 0 ==> w.buckets[i - 1].rangeEnd == w.buckets[i].rangeStart
  {
    Calendar.FirstBucketStarts(w);
    if i > 0 {
      Calendar.NextStart(w, i - 1);
      Calendar.ChainOrder(w.buckets, w.lo, 0, i);
    }
    if i < |w.buckets| - 1 {
      Calendar.ChainOrder(w.buckets, w.lo, i, |w.buckets| - 1);
    }
  }

  /** The client accepts the buckets of every window the calendar returns. */
  lemma WindowPasses(w: Calendar.Window, last: int)
    requires Calendar.Partition(w) && Calendar.Dated(w.buckets, last) && |w.buckets| <= Calendar.MAX_DATES
    ensures BucketsAccepted(w)
  {
    hide Calendar.Chain;
    Calendar.FirstBucketStarts(w);
    forall i | 0 <= i < |w.buckets| ensures BucketAccepted(w, i) {
      EndsInOrder(w, i);
    }
  }

  lemma {:induction false} BucketOf(w: Calendar.Window, ms: int, n: nat) returns (k: nat)
    requires Calendar.Partition(w) && n < |w.buckets| && w.lo * 1000 <= ms < w.buckets[n].rangeEnd * 1000
    ensures k <= n && Calendar.Holds(w.buckets[k], ms)
    decreases n
  {
    EndsInOrder(w, n);
    Calendar.FirstBucketStarts(w);
    hide Calendar.Partition;
    if w.buckets[n].rangeStart * 1000 <= ms {
      k := n;
    } else {
      k := BucketOf(w, ms, n - 1);
    }
  }

  lemma RowDated(row: Stored, w: Calendar.Window, basis: Basis)
    requires Calendar.Partition(w) && w.lo * 1000 <= row.at < w.hi * 1000
    ensures EntryOf(row, w, basis).day in Dates(w)
  {
    var k := BucketOf(w, row.at, |w.buckets| - 1);
    DayAtIs(w, row.at, k);
  }

  /** What readSection returns for a calendar window, the client accepts, and decodes it to exactly
      what was built, with or without pricing. */
  lemma ReportPasses(s: Section, rows: seq<Stored>, w: Calendar.Window, basis: Basis, filter: Option<string>, pricing: bool)
    requires Calendar.Partition(w) && Selected(rows, w, RequiredCounts(basis.surface)) && Snapshots.WellFormed(basis.snapshot)
    requires IsSectionOf(s, EntriesOf(rows, w, basis), RequiredCounts(basis.surface)) && Resolved(s, basis.snapshot)
    requires filter.Some? ==> forall row <- rows :: row.model == filter
    ensures var x := Expected(RequiredCounts(basis.surface), Dates(w), filter, pricing); var o := EncodeSection(s, pricing);
      SectionAccepted(o, x) && Says(ShownSection(s, pricing), o, x)
  {
    hide IsSectionOf, SectionAccepted, Says, Calendar.Partition, Dates, Basis.ValueOf, Retained, Resolved, EncodeSection, ShownSection;
    var entries := EntriesOf(rows, w, basis);
    var x := Expected(RequiredCounts(basis.surface), Dates(w), filter, pricing);
    forall e | e in entries ensures e.day in Dates(w) && (filter.Some? ==> e.model == filter.value) {
      var i :| 0 <= i < |entries| && entries[i] == e;
      assert rows[i] in rows;
      RowDated(rows[i], w, basis);
    }
    ResolvedRetained(s, basis.snapshot);
    SectionPasses(s, entries, x);
  }

  /** A decoded section is determined: the client holds what was shown, and nothing else. */
  lemma SaysOne(a: Seen, b: Seen, o: WireSection, x: Expected)
    requires Says(a, o, x) && Says(b, o, x)
    ensures a == b
  {
    hide TotalOf, RowOf, ModelOf;
    forall i | 0 <= i < |o.rows| ensures a.rows[i] == b.rows[i] {
      assert Some(a.rows[i]) == RowOf(o.rows[i], x) == Some(b.rows[i]);
    }
    forall i | 0 <= i < |o.models| ensures a.models[i] == b.models[i] {
      assert Some(a.models[i]) == ModelOf(o.models[i], x) == Some(b.models[i]);
    }
    assert a.rows == b.rows && a.models == b.models;
  }
}
