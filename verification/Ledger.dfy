/** One pass over a section's stored Turns (internal/usage/report/read.go, report.go). */
module Ledger {
  import opened Wrappers
  import opened Amounts
  import opened Tallies
  import opened Capture
  import Calendar
  import Matching = ModelMatch
  import Snapshots
  import Valuation

  const MAX_INT64 := 0x7fff_ffff_ffff_ffff
  const MAX_ROWS := 1_000_000

  datatype Failure = TooLarge | Corrupt | Overflow

  datatype Outcome<+T> = Ok(value: T) | Fail(failure: Failure)

  // ---------------------------------------------------------------------- totals

  datatype Metric = Metric(sum: Option<nat>, reported: nat)

  datatype Coverage = Coverage(unknown: nat, ambiguous: nat, missingRate: nat, missingUsage: nat, inconsistent: nat)

  datatype Cost = Cost(amount: Option<Amount>, priced: nat, unpriced: Coverage)

  datatype Total = Total(turns: nat, usage: seq<Metric>, cost: Cost)

  function Known<T>(value: Option<T>, none: T): T { if value.Some? then value.value else none }

  /** What a Total says about a measure; an absent sum or amount says zero. */
  function Value(t: Total, m: Measure): nat {
    match m
    case Turns => t.turns
    case Sum(i) => if i < |t.usage| then Known(t.usage[i].sum, 0) else 0
    case Reported(i) => if i < |t.usage| then t.usage[i].reported else 0
    case Dollars => Held(t.cost)
    case PricedTurns => t.cost.priced
    case UnpricedTurns(r) => Count(t.cost.unpriced, r)
  }

  function Held(c: Cost): nat { if c.amount.Some? then Worth(c.amount.value) else 0 }

  function Count(u: Coverage, r: Reason): nat {
    match r
    case UnknownModel => u.unknown
    case AmbiguousModel => u.ambiguous
    case MissingRate => u.missingRate
    case MissingUsage => u.missingUsage
    case InconsistentUsage => u.inconsistent
  }

  function CountMore(u: Coverage, r: Reason): Coverage {
    match r
    case UnknownModel => u.(unknown := u.unknown + 1)
    case AmbiguousModel => u.(ambiguous := u.ambiguous + 1)
    case MissingRate => u.(missingRate := u.missingRate + 1)
    case MissingUsage => u.(missingUsage := u.missingUsage + 1)
    case InconsistentUsage => u.(inconsistent := u.inconsistent + 1)
  }

  /** The coverage rules of one metric: a required count comes with every Turn, an optional
      sum is absent exactly while nothing reported it. */
  predicate MetricOk(m: Metric, required: bool, turns: nat) {
    && m.reported <= turns && (m.sum.Some? ==> m.sum.value <= MAX_INT64) && (turns == 0 ==> Known(m.sum, 0) == 0)
    && (if required then m.sum.Some? && m.reported == turns else m.sum.Some? <==> m.reported > 0)
  }

  predicate CostOk(c: Cost, turns: nat) {
    && c.priced + c.unpriced.unknown + c.unpriced.ambiguous + c.unpriced.missingRate + c.unpriced.missingUsage
       + c.unpriced.inconsistent == turns
    && (c.amount.None? <==> turns > 0 && c.priced == 0)
    && (turns == 0 ==> c.amount == Some(ZERO))
  }

  /** A well-formed Total of at most MaxRows Turns. */
  predicate Balanced(t: Total, required: seq<bool>) {
    && t.turns <= MAX_ROWS && |t.usage| == |required| && CostOk(t.cost, t.turns)
    && (forall i :: 0 <= i < |required| ==> MetricOk(t.usage[i], required[i], t.turns))
    && Affordable(Value(t, Dollars), t.turns)
  }

  /** No more than four full lines per Turn. */
  predicate Affordable(worth: nat, turns: nat) { worth <= turns * (4 * Valuation.LINE_BOUND) }

  function ZeroAmount(): (a: Amount)
    ensures a == ZERO && Worth(a) == 0
  {
    Valuation.ZeroAmount()
  }

  /** emptyTotal. */
  function EmptyTotal(required: seq<bool>): (t: Total)
    ensures Balanced(t, required) && forall m :: Value(t, m) == 0
  {
    Total(0, seq(|required|, i requires 0 <= i < |required| => Metric(if required[i] then Some(0) else None, 0)),
          Cost(Some(ZeroAmount()), 0, Coverage(0, 0, 0, 0, 0)))
  }

  // --------------------------------------------------------------- adding one Turn

  /** An entry the projection accepts: every required count is there and counts fit int64. */
  predicate Fits(e: Entry, required: seq<bool>) {
    && |e.counts| == |required|
    && (forall i :: 0 <= i < |required| ==> (required[i] ==> e.counts[i].Some?) && (e.counts[i].Some? ==> e.counts[i].value <= MAX_INT64))
    && (e.value.Priced? ==> Valuation.IsBounded(Valuation.Priced(e.value.amount)))
  }

  /** addCost: the pricing overflow branch cannot fire. */
  method AddCost(cost: Cost, value: TurnValue, turns: nat) returns (r: Cost)
    requires turns < MAX_ROWS && CostOk(cost, turns) && Affordable(Held(cost), turns)
    requires value.Priced? ==> Valuation.IsBounded(Valuation.Priced(value.amount))
    ensures CostOk(r, turns + 1) && Affordable(Held(r), turns + 1)
    ensures r.priced == cost.priced + if value.Priced? then 1 else 0
    ensures r.unpriced == if value.Unpriced? then CountMore(cost.unpriced, value.reason) else cost.unpriced
    ensures Held(r) == Held(cost) + if value.Priced? then Worth(value.amount) else 0
  {
    hide *;
    if value.Unpriced? {
      AddUnpriced(cost, value.reason, turns);
      var amount := cost.amount;
      if cost.priced == 0 {
        amount := None;
      }
      return Cost(amount, cost.priced, CountMore(cost.unpriced, value.reason));
    }
    var current := if cost.amount.Some? then cost.amount.value else ZeroAmount();
    AddPriced(cost, turns, current, value.amount);
    var total := Add(current, value.amount);
    if total.None? {
      assert false;
    }
    return Cost(total, cost.priced + 1, cost.unpriced);
  }

  lemma AddUnpriced(cost: Cost, reason: Reason, turns: nat)
    requires CostOk(cost, turns) && Affordable(Held(cost), turns)
    ensures var r := Cost(if cost.priced == 0 then None else cost.amount, cost.priced, CountMore(cost.unpriced, reason));
      CostOk(r, turns + 1) && Held(r) == Held(cost) && Affordable(Held(r), turns + 1)
  {
    hide Worth, IsAmount, Affordable;
    AffordMore(Held(cost), turns);
    assert cost.priced == 0 && turns == 0 ==> Held(cost) == 0 by { assert Worth(ZeroAmount()) == 0; }
  }

  lemma AddPriced(cost: Cost, turns: nat, current: Amount, amount: Amount)
    requires turns < MAX_ROWS && CostOk(cost, turns) && Affordable(Held(cost), turns)
    requires current == if cost.amount.Some? then cost.amount.value else ZeroAmount()
    requires Valuation.IsBounded(Valuation.Priced(amount))
    ensures var total := FromUnits(Worth(current) + Worth(amount));
      total.Some?
      && var r := Cost(total, cost.priced + 1, cost.unpriced);
      CostOk(r, turns + 1) && Held(r) == Held(cost) + Worth(amount) && Affordable(Held(r), turns + 1)
  {
    hide Worth, IsAmount, Affordable, FromUnits, Valuation.IsBounded;
    AffordSum(current, turns, amount);
  }

  lemma AffordMore(worth: nat, turns: nat)
    requires Affordable(worth, turns)
    ensures Affordable(worth, turns + 1)
  {}

  lemma AffordSum(held: Amount, turns: nat, amount: Amount)
    requires turns < MAX_ROWS && Affordable(Worth(held), turns) && Valuation.IsBounded(Valuation.Priced(amount))
    ensures var r := FromUnits(Worth(held) + Worth(amount));
      r.Some? && Worth(r.value) == Worth(held) + Worth(amount) && Affordable(Worth(held) + Worth(amount), turns + 1)
  {
    hide Worth, IsAmount, FromUnits, Valuation.IsBounded;
    Valuation.ReportNeverOverflows(held, turns, Valuation.Priced(amount));
  }

  /** The body of the three-totals loop for one total: it adds the entry's weight in every
      measure, or reports the count that leaves int64. */
  method AddTurn(total: Total, e: Entry, required: seq<bool>) returns (r: Outcome<Total>)
    requires Balanced(total, required) && Fits(e, required) && total.turns < MAX_ROWS
    ensures r.Ok? ==> Balanced(r.value, required) && forall m :: Value(r.value, m) == Value(total, m) + Weight(e, m)
    ensures r.Fail? ==> r.failure == Overflow && exists i: nat :: Value(total, Sum(i)) + Weight(e, Sum(i)) > MAX_INT64
  {
    hide CostOk, Affordable, Worth, IsAmount, Valuation.IsBounded;
    if total.turns == MAX_INT64 {
      assert false;
    }
    var turns := total.turns + 1;
    var usage := total.usage;
    for i := 0 to |required|
      invariant |usage| == |required|
      invariant forall k :: 0 <= k < |required| ==> usage[k] == if k < i then Grown(total.usage[k], e.counts[k]) else total.usage[k]
      invariant forall k :: 0 <= k < i ==> Known(usage[k].sum, 0) <= MAX_INT64
    {
      if e.counts[i].Some? {
        var m := usage[i];
        var sum := e.counts[i].value;
        if m.sum.Some? {
          if sum > MAX_INT64 - m.sum.value {
            TooMuch(total, e, i);
            return Fail(Overflow);
          }
          sum := sum + m.sum.value;
        }
        usage := usage[i := Metric(Some(sum), m.reported + 1)];
      }
    }
    var cost := AddCost(total.cost, e.value, total.turns);
    r := Ok(Total(turns, usage, cost));
    GrownTotal(total, e, required, r.value);
  }

  function Grown(m: Metric, count: Option<nat>): Metric {
    if count.Some? then Metric(Some(Known(m.sum, 0) + count.value), m.reported + 1) else m
  }

  lemma TooMuch(total: Total, e: Entry, i: nat)
    requires i < |total.usage| && i < |e.counts| && e.counts[i].Some?
    requires Known(total.usage[i].sum, 0) + e.counts[i].value > MAX_INT64
    ensures Value(total, Sum(i)) + Weight(e, Sum(i)) > MAX_INT64
  {}

  lemma GrownTotal(total: Total, e: Entry, required: seq<bool>, r: Total)
    requires Balanced(total, required) && Fits(e, required) && r.turns == total.turns + 1 <= MAX_ROWS
    requires |r.usage| == |required| && CostOk(r.cost, r.turns) && Affordable(Value(r, Dollars), r.turns)
    requires forall k :: 0 <= k < |required| ==> r.usage[k] == Grown(total.usage[k], e.counts[k]) && Known(r.usage[k].sum, 0) <= MAX_INT64
    requires r.cost.priced == total.cost.priced + Weight(e, PricedTurns)
    requires r.cost.unpriced == if e.value.Unpriced? then CountMore(total.cost.unpriced, e.value.reason) else total.cost.unpriced
    requires Value(r, Dollars) == Value(total, Dollars) + Weight(e, Dollars)
    ensures Balanced(r, required) && forall m :: Value(r, m) == Value(total, m) + Weight(e, m)
  {
    hide CostOk, Affordable, Worth, IsAmount, Valuation.IsBounded;
    forall m ensures Value(r, m) == Value(total, m) + Weight(e, m) {
      GrownValue(total, e, required, r, m);
    }
    forall i | 0 <= i < |required| ensures MetricOk(r.usage[i], required[i], r.turns) {
      assert MetricOk(total.usage[i], required[i], total.turns);
    }
  }

  lemma GrownValue(total: Total, e: Entry, required: seq<bool>, r: Total, m: Measure)
    requires Balanced(total, required) && Fits(e, required) && r.turns == total.turns + 1
    requires |r.usage| == |required|
    requires forall k :: 0 <= k < |required| ==> r.usage[k] == Grown(total.usage[k], e.counts[k])
    requires r.cost.priced == total.cost.priced + Weight(e, PricedTurns)
    requires r.cost.unpriced == if e.value.Unpriced? then CountMore(total.cost.unpriced, e.value.reason) else total.cost.unpriced
    requires Value(r, Dollars) == Value(total, Dollars) + Weight(e, Dollars)
    ensures Value(r, m) == Value(total, m) + Weight(e, m)
  {
    hide CostOk, Affordable, Worth, IsAmount, Valuation.IsBounded, MetricOk;
    match m
    case Turns =>
    case Sum(i) =>
    case Reported(i) =>
    case Dollars =>
    case PricedTurns =>
    case UnpricedTurns(reason) =>
  }

  // ------------------------------------------------------------ totals of a scope

  /** The total says of every measure exactly what the entries in scope add up to. */
  ghost predicate IsTotalOf(t: Total, entries: seq<Entry>, f: Scope, required: seq<bool>) {
    Balanced(t, required) && forall m :: Value(t, m) == Tally(entries, f, m)
  }

  lemma TotalGrows(t: Total, entries: seq<Entry>, f: Scope, required: seq<bool>, e: Entry, r: Total)
    requires IsTotalOf(t, entries, f, required) && Covers(f, e)
    requires Balanced(r, required) && forall m :: Value(r, m) == Value(t, m) + Weight(e, m)
    ensures IsTotalOf(r, entries + [e], f, required)
  {
    hide Balanced, Value, Weight, Tally, Covers;
    forall m ensures Value(r, m) == Tally(entries + [e], f, m) { TallyStep(entries, e, f, m); }
  }

  lemma TotalStays(t: Total, entries: seq<Entry>, f: Scope, required: seq<bool>, e: Entry)
    requires IsTotalOf(t, entries, f, required) && !Covers(f, e)
    ensures IsTotalOf(t, entries + [e], f, required)
  {
    hide Balanced, Value, Weight, Tally, Covers;
    forall m ensures Value(t, m) == Tally(entries + [e], f, m) { TallyStep(entries, e, f, m); }
  }

  lemma {:induction false} NoTurnsNoWeight(entries: seq<Entry>, f: Scope, m: Measure)
    requires Tally(entries, f, Turns) == 0
    ensures Tally(entries, f, m) == 0
  {
    hide Covers;
    if entries != [] { NoTurnsNoWeight(entries[..|entries| - 1], f, m); }
  }

  lemma EmptyIsTotal(entries: seq<Entry>, f: Scope, required: seq<bool>)
    requires Tally(entries, f, Turns) == 0
    ensures IsTotalOf(EmptyTotal(required), entries, f, required)
  {
    hide Balanced, Value, Tally;
    forall m ensures Tally(entries, f, m) == 0 { NoTurnsNoWeight(entries, f, m); }
  }

  function RowKey(e: Entry): Scope { OfRow(e.day, e.model) }

  function ModelKey(e: Entry): Scope { OfModel(e.model) }

  /** The entry's key in the map of rows or in the map of models. */
  function KeyOf(byRow: bool, e: Entry): Scope { if byRow then RowKey(e) else ModelKey(e) }

  predicate IsKey(byRow: bool, f: Scope) { if byRow then f.OfRow? else f.OfModel? }

  /** A map of totals: a true and nonempty total for exactly the keys that occur. */
  ghost predicate Books(book: map<Scope, Total>, byRow: bool, entries: seq<Entry>, required: seq<bool>) {
    && (forall f <- book :: IsKey(byRow, f) && IsTotalOf(book[f], entries, f, required) && Tally(entries, f, Turns) > 0)
    && (forall e <- entries :: KeyOf(byRow, e) in book)
  }

  lemma KeyCovers(byRow: bool, f: Scope, e: Entry)
    requires IsKey(byRow, f)
    ensures Covers(f, e) <==> f == KeyOf(byRow, e)
  {}

  lemma BooksOne(book: map<Scope, Total>, byRow: bool, entries: seq<Entry>, required: seq<bool>, e: Entry, r: Total, f: Scope)
    requires Books(book, byRow, entries, required) && IsTotalOf(r, entries + [e], KeyOf(byRow, e), required)
    requires f in book[KeyOf(byRow, e) := r]
    ensures IsKey(byRow, f) && IsTotalOf(book[KeyOf(byRow, e) := r][f], entries + [e], f, required)
    ensures Tally(entries + [e], f, Turns) > 0
  {
    hide IsTotalOf, Tally, Covers;
    KeyKind(byRow, e);
    KeyCovers(byRow, f, e);
    TallyStep(entries, e, f, Turns);
    if f != KeyOf(byRow, e) {
      TotalStays(book[f], entries, f, required, e);
    }
  }

  lemma KeyKind(byRow: bool, e: Entry)
    ensures IsKey(byRow, KeyOf(byRow, e)) && Weight(e, Turns) == 1
  {}

  lemma BooksGrow(book: map<Scope, Total>, byRow: bool, entries: seq<Entry>, required: seq<bool>, e: Entry, r: Total)
    requires Books(book, byRow, entries, required) && IsTotalOf(r, entries + [e], KeyOf(byRow, e), required)
    ensures Books(book[KeyOf(byRow, e) := r], byRow, entries + [e], required)
  {
    hide IsTotalOf, Tally, IsKey, KeyOf;
    var next := book[KeyOf(byRow, e) := r];
    forall f | f in next
      ensures IsKey(byRow, f) && IsTotalOf(next[f], entries + [e], f, required) && Tally(entries + [e], f, Turns) > 0
    {
      BooksOne(book, byRow, entries, required, e, r, f);
    }
  }

  /** The total kept for an entry's key, or a fresh empty one. */
  lemma BookOrEmpty(book: map<Scope, Total>, byRow: bool, entries: seq<Entry>, required: seq<bool>, e: Entry)
    requires Books(book, byRow, entries, required)
    ensures var key := KeyOf(byRow, e);
      IsTotalOf(if key in book then book[key] else EmptyTotal(required), entries, key, required)
  {
    hide IsTotalOf, Tally;
    var key := KeyOf(byRow, e);
    if key !in book {
      NeverSeen(byRow, entries, key);
      EmptyIsTotal(entries, key, required);
    }
  }

  lemma {:induction false} NeverSeen(byRow: bool, entries: seq<Entry>, f: Scope)
    requires IsKey(byRow, f) && forall e <- entries :: KeyOf(byRow, e) != f
    ensures Tally(entries, f, Turns) == 0
  {
    if entries != [] {
      NeverSeen(byRow, entries[..|entries| - 1], f);
      KeyCovers(byRow, f, entries[|entries| - 1]);
    }
  }

  // ------------------------------------------------------------------------ order

  /** Bytewise string order. */
  predicate Less(a: string, b: string) {
    b != [] && (a == [] || a[0] < b[0] || (a[0] == b[0] && Less(a[1..], b[1..])))
  }

  lemma {:induction false} LessOne(a: string, b: string)
    ensures Less(a, b) ==> !Less(b, a) && a != b
    ensures Less(a, b) || Less(b, a) || a == b
  {
    if a != [] && b != [] && a[0] == b[0] {
      LessOne(a[1..], b[1..]);
      assert a == [a[0]] + a[1..] && b == [b[0]] + b[1..];
    }
  }

  lemma {:induction false} LessChain(a: string, b: string, c: string)
    requires Less(a, b) && Less(b, c)
    ensures Less(a, c)
  {
    if a != [] && a[0] == b[0] == c[0] { LessChain(a[1..], b[1..], c[1..]); }
  }

  /** Rows by date and then model, models by name. */
  predicate Before(a: Scope, b: Scope) {
    if a.OfRow? && b.OfRow? then a.day < b.day || (a.day == b.day && Less(a.model, b.model))
    else a.OfModel? && b.OfModel? && Less(a.model, b.model)
  }

  ghost predicate Ascending(keys: seq<Scope>) { forall i, j :: 0 <= i < j < |keys| ==> Before(keys[i], keys[j]) }

  lemma BeforeOne(byRow: bool, a: Scope, b: Scope)
    requires IsKey(byRow, a) && IsKey(byRow, b)
    ensures Before(a, b) ==> !Before(b, a) && a != b
    ensures Before(a, b) || Before(b, a) || a == b
  {
    LessOne(a.model, b.model);
  }

  lemma BeforeChain(a: Scope, b: Scope, c: Scope)
    requires Before(a, b) && Before(b, c)
    ensures Before(a, c)
  {
    hide Less;
    if Less(a.model, b.model) && Less(b.model, c.model) { LessChain(a.model, b.model, c.model); }
  }

  /** One key into its place. */
  method InsertKey(byRow: bool, keys: seq<Scope>, key: Scope) returns (r: seq<Scope>)
    requires Ascending(keys) && key !in keys && IsKey(byRow, key) && forall k <- keys :: IsKey(byRow, k)
    ensures Ascending(r) && forall k :: k in r <==> k in keys || k == key
  {
    hide IsKey, Before;
    var at := 0;
    while at < |keys| && Before(keys[at], key)
      invariant at <= |keys| && forall i :: 0 <= i < at ==> Before(keys[i], key)
    {
      at := at + 1;
    }
    r := keys[..at] + [key] + keys[at..];
    if at < |keys| { BeforeOne(byRow, keys[at], key); }
    forall i | at < i < |keys| ensures Before(key, keys[i]) {
      BeforeChain(key, keys[at], keys[i]);
    }
  }

  /** The keys of a map in ascending order, however the map is walked. */
  method SortKeys(byRow: bool, keys: set<Scope>) returns (r: seq<Scope>)
    requires forall k <- keys :: IsKey(byRow, k)
    ensures Ascending(r) && forall k :: k in r <==> k in keys
  {
    hide IsKey, Before;
    r := [];
    var left := keys;
    while left != {}
      invariant left <= keys && Ascending(r) && forall k :: k in r <==> k in keys && k !in left
      decreases |left|
    {
      var key :| key in left;
      r := InsertKey(byRow, r, key);
      left := left - {key};
    }
  }

  // ------------------------------------------------------------------ stored Turns

  // One stored row as it is scanned: its model is absent when longer than the limit, null or
  // not valid UTF-8.
  datatype Stored = Stored(at: int, modelBytes: int, model: Option<string>, counts: seq<Option<int>>, tier: Option<string>)

  /** What the driver hands over: one nullable int64 for each projected count. */
  predicate Scanned(row: Stored, required: seq<bool>) {
    |row.counts| == |required|
    && forall i :: 0 <= i < |row.counts| ==> row.counts[i].Some? ==> -MAX_INT64 - 1 <= row.counts[i].value <= MAX_INT64
  }

  /** The query's promise: timestamps ascend inside the window. */
  predicate Selected(rows: seq<Stored>, w: Calendar.Window, required: seq<bool>) {
    && (forall i :: 0 <= i < |rows| ==> Scanned(rows[i], required) && w.lo * 1000 <= rows[i].at < w.hi * 1000)
    && (forall i, j :: 0 <= i < j < |rows| ==> rows[i].at <= rows[j].at)
  }

  /** A row that is a usable Turn. */
  predicate Usable(row: Stored, required: seq<bool>)
    requires |row.counts| == |required|
  {
    && row.model.Some? && row.modelBytes == |row.model.value|
    && (forall i :: 0 <= i < |required| ==> (required[i] ==> row.counts[i].Some?) && (row.counts[i].Some? ==> row.counts[i].value >= 0))
  }

  function CountsOf(counts: seq<Option<int>>): seq<Option<nat>> {
    seq(|counts|, i requires 0 <= i < |counts| =>
      if counts[i].Some? && counts[i].value >= 0 then Some(counts[i].value as nat) else None)
  }

  /** The date of the bucket that holds a timestamp. */
  ghost function DayAt(w: Calendar.Window, ms: int): int {
    if exists k: nat :: k < |w.buckets| && Calendar.Holds(w.buckets[k], ms) then
      var k: nat :| k < |w.buckets| && Calendar.Holds(w.buckets[k], ms);
      w.buckets[k].startDate
    else 0
  }

  lemma DayAtIs(w: Calendar.Window, ms: int, k: nat)
    requires Calendar.Partition(w) && k < |w.buckets| && Calendar.Holds(w.buckets[k], ms)
    ensures DayAt(w, ms) == w.buckets[k].startDate
  {
    hide Calendar.Partition, Calendar.Holds;
    var j: nat :| j < |w.buckets| && Calendar.Holds(w.buckets[j], ms) && DayAt(w, ms) == w.buckets[j].startDate;
    Calendar.BucketUnique(w, ms, j, k);
  }

  ghost function EntryOf(row: Stored, w: Calendar.Window, basis: Basis): Entry {
    var model := Known(row.model, "");
    var counts := CountsOf(row.counts);
    Entry(DayAt(w, row.at), model, counts, basis.ValueOf(counts, row.tier, model))
  }

  ghost function EntriesOf(rows: seq<Stored>, w: Calendar.Window, basis: Basis): seq<Entry> {
    seq(|rows|, i requires 0 <= i < |rows| => EntryOf(rows[i], w, basis))
  }

  lemma EntryFits(row: Stored, w: Calendar.Window, basis: Basis, required: seq<bool>)
    requires Scanned(row, required) && Usable(row, required)
    ensures Fits(EntryOf(row, w, basis), required)
  {
    hide Valuation.IsBounded, PricingOf, TurnValueOf;
  }

  // --------------------------------------------------------------------- sections

  datatype Row = Row(day: int, model: string, resolution: Matching.Resolution, total: Total)

  datatype ModelTotal = ModelTotal(model: string, resolution: Matching.Resolution, total: Total)

  datatype Section = Section(rows: seq<Row>, models: seq<ModelTotal>, total: Total)

  /** The exact ledger of some entries. */
  ghost predicate IsSectionOf(s: Section, entries: seq<Entry>, required: seq<bool>) {
    && IsTotalOf(s.total, entries, Everything, required)
    && RowsTrue(s.rows, entries, required) && ModelsTrue(s.models, entries, required)
  }

  function RowScopes(rows: seq<Row>): seq<Scope> {
    seq(|rows|, i requires 0 <= i < |rows| => OfRow(rows[i].day, rows[i].model))
  }

  function ModelScopes(models: seq<ModelTotal>): seq<Scope> {
    seq(|models|, i requires 0 <= i < |models| => OfModel(models[i].model))
  }

  /** Ascending keys, exactly those that occur. */
  ghost predicate KeysTrue(keys: seq<Scope>, byRow: bool, entries: seq<Entry>) {
    && Ascending(keys) && (forall f <- keys :: IsKey(byRow, f) && Tally(entries, f, Turns) > 0)
    && (forall e <- entries :: KeyOf(byRow, e) in keys)
  }

  ghost predicate RowsTrue(rows: seq<Row>, entries: seq<Entry>, required: seq<bool>) {
    && KeysTrue(RowScopes(rows), true, entries)
    && (forall i :: 0 <= i < |rows| ==> IsTotalOf(rows[i].total, entries, OfRow(rows[i].day, rows[i].model), required))
  }

  ghost predicate ModelsTrue(models: seq<ModelTotal>, entries: seq<Entry>, required: seq<bool>) {
    && KeysTrue(ModelScopes(models), false, entries)
    && (forall i :: 0 <= i < |models| ==> IsTotalOf(models[i].total, entries, OfModel(models[i].model), required))
  }

  /** Each row and model carries what the matcher over the snapshot's identities says of it. */
  ghost predicate Resolved(s: Section, snapshot: Snapshots.Snapshot) {
    && (forall row <- s.rows :: row.resolution == PricingOf(snapshot, row.model).resolution)
    && (forall m <- s.models :: m.resolution == PricingOf(snapshot, m.model).resolution)
  }

  /** Some metric's exact sum over a prefix of the Turns leaves int64. */
  ghost predicate LeavesInt64(entries: seq<Entry>) {
    exists n: nat, i: nat :: n <= |entries| && Tally(entries[..n], Everything, Sum(i)) > MAX_INT64
  }

  // --------------------------------------------------------------------- the pass

  // The section total and the two maps of totals while rows are read.
  datatype Running = Running(total: Total, rows: map<Scope, Total>, models: map<Scope, Total>)

  ghost predicate RunningTrue(s: Running, entries: seq<Entry>, required: seq<bool>) {
    && IsTotalOf(s.total, entries, Everything, required)
    && Books(s.rows, true, entries, required) && Books(s.models, false, entries, required)
  }

  lemma RunningStart(required: seq<bool>)
    ensures RunningTrue(Running(EmptyTotal(required), map[], map[]), [], required)
  {
    hide Balanced;
    EmptyIsTotal([], Everything, required);
  }

  lemma {:induction false} TurnsAtMost(entries: seq<Entry>, f: Scope)
    ensures Tally(entries, f, Turns) <= |entries|
  {
    hide Covers;
    if entries != [] { TurnsAtMost(entries[..|entries| - 1], f); }
  }

  /** One of the three totals of an entry. */
  method Grow(t: Total, ghost entries: seq<Entry>, f: Scope, e: Entry, required: seq<bool>) returns (r: Outcome<Total>)
    requires IsTotalOf(t, entries, f, required) && Covers(f, e) && Fits(e, required) && |entries| < MAX_ROWS
    ensures r.Ok? ==> IsTotalOf(r.value, entries + [e], f, required)
    ensures r.Fail? ==> r.failure == Overflow && exists i: nat :: Tally(entries + [e], Everything, Sum(i)) > MAX_INT64
  {
    hide Balanced, Covers, Fits, Tally, Weight;
    TurnsAtMost(entries, f);
    r := TurnAdded(t, e, required, entries, f);
  }

  method TurnAdded(t: Total, e: Entry, required: seq<bool>, ghost entries: seq<Entry>, f: Scope) returns (r: Outcome<Total>)
    requires IsTotalOf(t, entries, f, required) && Covers(f, e) && Fits(e, required) && t.turns < MAX_ROWS
    ensures r.Ok? ==> IsTotalOf(r.value, entries + [e], f, required)
    ensures r.Fail? ==> r.failure == Overflow && exists i: nat :: Tally(entries + [e], Everything, Sum(i)) > MAX_INT64
  {
    hide Balanced, Covers, Fits, Tally, Weight, Value;
    r := AddTurn(t, e, required);
    if r.Ok? {
      TotalGrows(t, entries, f, required, e, r.value);
    } else {
      ghost var i: nat :| Value(t, Sum(i)) + Weight(e, Sum(i)) > MAX_INT64;
      TallyStep(entries, e, f, Sum(i));
      TallyAtMost(entries + [e], f, Sum(i));
    }
  }

  /** All three totals of one Turn. */
  method AddEntry(s: Running, ghost entries: seq<Entry>, e: Entry, required: seq<bool>, budget: ReadBudget)
    returns (r: Outcome<Running>)
    requires RunningTrue(s, entries, required) && Fits(e, required) && |entries| < MAX_ROWS
    modifies budget`groups
    ensures r.Ok? ==> RunningTrue(r.value, entries + [e], required)
    ensures r == Fail(Overflow) ==> exists i: nat :: Tally(entries + [e], Everything, Sum(i)) > MAX_INT64
    ensures r == Fail(TooLarge) <==> RowKey(e) !in s.rows && old(budget.groups) + 1 > budget.limits.maxGroups
    ensures r != Fail(Corrupt)
    ensures budget.groups == old(budget.groups) + if RowKey(e) in s.rows then 0 else 1
  {
    hide Balanced, Fits, Tally, Weight, Value, IsTotalOf, Books;
    BookOrEmpty(s.rows, true, entries, required, e);
    BookOrEmpty(s.models, false, entries, required, e);
    var rowKey, modelKey := RowKey(e), ModelKey(e);
    if rowKey !in s.rows {
      budget.groups := budget.groups + 1;
      if budget.groups > budget.limits.maxGroups {
        return Fail(TooLarge);
      }
    }
    var row := Grow(if rowKey in s.rows then s.rows[rowKey] else EmptyTotal(required), entries, rowKey, e, required);
    if row.Fail? {
      return Fail(row.failure);
    }
    var model := Grow(if modelKey in s.models then s.models[modelKey] else EmptyTotal(required), entries, modelKey, e, required);
    if model.Fail? {
      return Fail(model.failure);
    }
    var total := Grow(s.total, entries, Everything, e, required);
    if total.Fail? {
      return Fail(total.failure);
    }
    BooksGrow(s.rows, true, entries, required, e, row.value);
    BooksGrow(s.models, false, entries, required, e, model.value);
    return Ok(Running(total.value, s.rows[rowKey := row.value], s.models[modelKey := model.value]));
  }

  lemma EntriesSnoc(rows: seq<Stored>, n: nat, w: Calendar.Window, basis: Basis)
    requires n < |rows|
    ensures EntriesOf(rows[..n + 1], w, basis) == EntriesOf(rows[..n], w, basis) + [EntryOf(rows[n], w, basis)]
  {
    hide EntryOf;
  }

  lemma Leaves(rows: seq<Stored>, n: nat, w: Calendar.Window, basis: Basis, i: nat)
    requires n <= |rows| && Tally(EntriesOf(rows[..n], w, basis), Everything, Sum(i)) > MAX_INT64
    ensures LeavesInt64(EntriesOf(rows, w, basis))
  {
    hide EntryOf, Tally;
    var entries := EntriesOf(rows, w, basis);
    assert entries[..n] == EntriesOf(rows[..n], w, basis);
  }

  /** The checks on one scanned row, in order: a model that is too long, a row that is no usable
      Turn, a new model whose bytes the budget cannot hold. */
  method CheckRow(row: Stored, required: seq<bool>, budget: ReadBudget) returns (failure: Option<Failure>)
    requires Scanned(row, required)
    modifies budget`identities, budget`retainedBytes
    ensures failure == Some(Corrupt) <==> row.modelBytes <= budget.limits.maxModelBytes && !Usable(row, required)
    ensures failure == Some(TooLarge) <==>
      row.modelBytes > budget.limits.maxModelBytes
      || (Usable(row, required) && row.model.value !in old(budget.identities) && |row.model.value| > old(budget.RemainingBytes()))
    ensures failure != Some(Overflow)
    ensures failure.None? ==> Usable(row, required)
    ensures budget.identities == old(budget.identities) + if failure.None? then {row.model.value} else {}
    ensures budget.retainedBytes == old(budget.retainedBytes) +
      if failure.None? && row.model.value !in old(budget.identities) then |row.model.value| else 0
  {
    if row.modelBytes > budget.limits.maxModelBytes {
      return Some(TooLarge);
    }
    if row.model.None? || row.modelBytes != |row.model.value| {
      return Some(Corrupt);
    }
    for i := 0 to |required|
      invariant forall k :: 0 <= k < i ==> required[k] ==> row.counts[k].Some?
    {
      if required[i] && row.counts[i].None? {
        return Some(Corrupt);
      }
    }
    for i := 0 to |required|
      invariant forall k :: 0 <= k < i ==> row.counts[k].Some? ==> row.counts[k].value >= 0
    {
      if row.counts[i].Some? && row.counts[i].value < 0 {
        return Some(Corrupt);
      }
    }
    var ok := budget.Intern(row.model.value);
    if !ok {
      return Some(TooLarge);
    }
    return None;
  }

  // ----------------------------------------------------------- what is spent, by whom

  // The four counters of a request's budget.
  datatype Spent = Spent(identities: set<string>, retained: nat, examined: nat, groups: nat)

  ghost function SpentOf(budget: ReadBudget): Spent
    reads budget
  {
    Spent(budget.identities, budget.retainedBytes, budget.examined, budget.groups)
  }

  function ModelsOf(entries: seq<Entry>): set<string> { set e <- entries :: e.model }

  function RowKeysOf(entries: seq<Entry>): set<Scope> { set e <- entries :: RowKey(e) }

  /** The bytes of the distinct models that were not known before. */
  function NewBytes(entries: seq<Entry>, known: set<string>): nat {
    if entries == [] then 0
    else
      var init, model := entries[..|entries| - 1], entries[|entries| - 1].model;
      NewBytes(init, known) + if model in known + ModelsOf(init) then 0 else |model|
  }

  /** What reading these Turns spends: a row each, each new model's bytes once, and each new date
      and model pair once. */
  function After(start: Spent, entries: seq<Entry>): Spent {
    Spent(start.identities + ModelsOf(entries), start.retained + NewBytes(entries, start.identities),
          start.examined + |entries|, start.groups + |RowKeysOf(entries)|)
  }

  datatype Budget = Rows | ModelLength | ModelBytes | Groups

  /** The n-th row asks more of a budget than is left after the rows before it. */
  ghost predicate Exhausts(b: Budget, rows: seq<Stored>, entries: seq<Entry>, n: nat, limits: Limits, start: Spent)
    requires n < |rows| && n < |entries|
  {
    var spent := After(start, entries[..n]);
    match b
    case Rows => spent.examined + 1 > limits.maxRows
    case ModelLength => rows[n].modelBytes > limits.maxModelBytes
    case ModelBytes => entries[n].model !in spent.identities && spent.retained + |entries[n].model| > limits.maxDistinctModelBytes
                       && entries[n].model != ""
    case Groups => RowKey(entries[n]) !in RowKeysOf(entries[..n]) && spent.groups + 1 > limits.maxGroups
  }

  ghost predicate AllUsable(rows: seq<Stored>, required: seq<bool>) {
    forall row <- rows :: |row.counts| == |required| && Usable(row, required)
  }

  ghost predicate SomeUnusable(rows: seq<Stored>, required: seq<bool>) {
    exists row <- rows :: |row.counts| == |required| && !Usable(row, required)
  }

  /** The pointer is not past the bucket of the next row. */
  predicate BucketReady(rows: seq<Stored>, n: nat, w: Calendar.Window, bucket: nat) {
    bucket < |w.buckets| && (n < |rows| ==> w.buckets[bucket].rangeStart * 1000 <= rows[n].at)
  }

  ghost predicate Remembered(memo: map<string, ModelPricing>, entries: seq<Entry>) { forall e <- entries :: e.model in memo }

  lemma PassStart(rows: seq<Stored>, w: Calendar.Window, required: seq<bool>, basis: Basis)
    requires Calendar.Partition(w) && Selected(rows, w, required)
    ensures BucketReady(rows, 0, w, 0) && EntriesOf(rows[..0], w, basis) == [] && AllUsable(rows[..0], required)
    ensures |w.buckets| > 0 && forall memo: map<string, ModelPricing> :: Remembered(memo, [])
  {
    Calendar.FirstBucketStarts(w);
  }

  lemma RowSelected(rows: seq<Stored>, n: nat, w: Calendar.Window, required: seq<bool>)
    requires Selected(rows, w, required) && n < |rows|
    ensures Scanned(rows[n], required) && w.lo * 1000 <= rows[n].at < w.hi * 1000 && rows[n] in rows
    ensures |rows[n].counts| == |required|
    ensures n + 1 < |rows| ==> rows[n].at <= rows[n + 1].at
  {}

  lemma RowTaken(rows: seq<Stored>, n: nat, required: seq<bool>)
    requires n < |rows| && AllUsable(rows[..n], required) && |rows[n].counts| == |required| && Usable(rows[n], required)
    ensures AllUsable(rows[..n + 1], required)
  {
    hide Usable;
    assert rows[..n + 1] == rows[..n] + [rows[n]];
  }

  lemma BucketStays(rows: seq<Stored>, n: nat, w: Calendar.Window, bucket: nat)
    requires n < |rows| && bucket < |w.buckets| && Calendar.Holds(w.buckets[bucket], rows[n].at)
    requires n + 1 < |rows| ==> rows[n].at <= rows[n + 1].at
    ensures BucketReady(rows, n + 1, w, bucket)
  {}

  /** The entry the loop builds is the entry of the row. */
  lemma EntryIs(rows: seq<Stored>, n: nat, w: Calendar.Window, basis: Basis, required: seq<bool>, bucket: nat, e: Entry)
    requires n < |rows| && Calendar.Partition(w) && bucket < |w.buckets| && Calendar.Holds(w.buckets[bucket], rows[n].at)
    requires Scanned(rows[n], required) && Usable(rows[n], required)
    requires var counts := CountsOf(rows[n].counts);
      e == Entry(w.buckets[bucket].startDate, rows[n].model.value, counts, basis.ValueOf(counts, rows[n].tier, rows[n].model.value))
    ensures e == EntryOf(rows[n], w, basis)
    ensures EntriesOf(rows[..n + 1], w, basis) == EntriesOf(rows[..n], w, basis) + [e] && Fits(e, required)
    ensures |EntriesOf(rows[..n], w, basis)| == n && e.model == rows[n].model.value
  {
    hide Calendar.Partition, Calendar.Holds, Fits, Scanned, EntriesOf, TurnValueOf, PricingOf, CountsOf, DayAt;
    DayAtIs(w, rows[n].at, bucket);
    EntryFits(rows[n], w, basis, required);
    EntriesSnoc(rows, n, w, basis);
    EntriesLength(rows[..n], w, basis);
  }

  lemma EntriesLength(rows: seq<Stored>, w: Calendar.Window, basis: Basis)
    ensures |EntriesOf(rows, w, basis)| == |rows|
  {}

  lemma OverflowLeaves(rows: seq<Stored>, n: nat, w: Calendar.Window, basis: Basis, entries: seq<Entry>)
    requires n <= |rows| && entries == EntriesOf(rows[..n], w, basis)
    requires exists i: nat :: Tally(entries, Everything, Sum(i)) > MAX_INT64
    ensures LeavesInt64(EntriesOf(rows, w, basis))
  {
    hide EntriesOf, Tally, LeavesInt64;
    var i: nat :| Tally(entries, Everything, Sum(i)) > MAX_INT64;
    Leaves(rows, n, w, basis, i);
  }

  lemma RememberedMore(memo: map<string, ModelPricing>, entries: seq<Entry>, e: Entry, p: ModelPricing)
    requires Remembered(memo, entries)
    ensures Remembered(memo[e.model := p], entries + [e])
  {}

  lemma BookKeys(book: map<Scope, Total>, entries: seq<Entry>, required: seq<bool>)
    requires Books(book, true, entries, required)
    ensures book.Keys == RowKeysOf(entries)
  {
    hide IsTotalOf, Tally, Covers;
    forall f | f in book ensures f in RowKeysOf(entries) {
      var e := SomeEntry(entries, f);
      KeyCovers(true, f, e);
    }
    forall e | e in entries ensures RowKey(e) in book {
      assert KeyOf(true, e) in book;
    }
  }

  /** One checked row: its pricing, its bucket and its three totals. */
  method TakeRow(rows: seq<Stored>, n: nat, w: Calendar.Window, surface: Surface, required: seq<bool>, budget: ReadBudget,
                 pricing: CapturedPricing, s: Running, bucket: nat)
    returns (r: Outcome<(Running, nat)>)
    requires n < |rows| && n < MAX_ROWS && Calendar.Partition(w) && Selected(rows, w, required)
    requires Usable(rows[n], required) && pricing.Valid() && BucketReady(rows, n, w, bucket)
    requires var entries := EntriesOf(rows[..n], w, pricing.For(surface));
      RunningTrue(s, entries, required) && Remembered(pricing.memo, entries)
    modifies budget`groups, pricing`memo
    ensures pricing.Valid()
    ensures r.Ok? ==> var entries := EntriesOf(rows[..n + 1], w, pricing.For(surface));
      RunningTrue(r.value.0, entries, required) && Remembered(pricing.memo, entries) && BucketReady(rows, n + 1, w, r.value.1)
    ensures r == Fail(Overflow) ==> LeavesInt64(EntriesOf(rows, w, pricing.For(surface)))
    ensures r != Fail(Corrupt)
    ensures var known := RowKey(EntryOf(rows[n], w, pricing.For(surface))) in RowKeysOf(EntriesOf(rows[..n], w, pricing.For(surface)));
      && (r == Fail(TooLarge) <==> !known && old(budget.groups) + 1 > budget.limits.maxGroups)
      && budget.groups == old(budget.groups) + if known then 0 else 1
  {
    hide Calendar.Partition, Calendar.Holds, Selected, EntriesOf, EntryOf, LeavesInt64, Scanned, Remembered, Fits, Basis.ValueOf,
      TurnValueOf, PricingOf, CountsOf, Tally, RowKey, RowKeysOf, IsTotalOf, Books, CapturedPricing.Valid;
    ghost var basis := pricing.For(surface);
    ghost var entries := EntriesOf(rows[..n], w, basis);
    var row := rows[n];
    RowSelected(rows, n, w, required);
    var model := row.model.value;
    ghost var memo := pricing.memo;
    var p := pricing.Model(model);
    var value := ValueTurn(surface, CountsOf(row.counts), row.tier, p);
    BasisValue(basis, CountsOf(row.counts), row.tier, model);
    var k := Calendar.Advance(w, bucket, row.at);
    var e := Entry(w.buckets[k].startDate, model, CountsOf(row.counts), value);
    EntryIs(rows, n, w, basis, required, k, e);
    BookKeys(s.rows, entries, required);
    var next := AddEntry(s, entries, e, required, budget);
    if next.Fail? {
      if next.failure == Overflow {
        OverflowLeaves(rows, n + 1, w, basis, entries + [e]);
      }
      return Fail(next.failure);
    }
    RememberedMore(memo, entries, e, p);
    BucketStays(rows, n, w, k);
    return Ok((next.value, k));
  }

  lemma BasisValue(basis: Basis, counts: seq<Option<nat>>, tier: Option<string>, model: string)
    ensures basis.ValueOf(counts, tier, model) == TurnValueOf(basis.surface, counts, tier, PricingOf(basis.snapshot, model))
  {
    hide TurnValueOf, PricingOf;
  }

  lemma MemoIs(pricing: CapturedPricing, model: string)
    requires pricing.Valid() && model in pricing.memo
    ensures pricing.memo[model] == PricingOf(pricing.snapshot, model)
  {}

  /** Rows of sorted keys. */
  method BuildRows(keys: seq<Scope>, book: map<Scope, Total>, pricing: CapturedPricing) returns (rows: seq<Row>)
    requires pricing.Valid() && forall f <- keys :: f in book && f.OfRow? && f.model in pricing.memo
    ensures |rows| == |keys| && RowScopes(rows) == keys
    ensures forall i :: 0 <= i < |rows| ==> rows[i].total == book[keys[i]]
    ensures forall row <- rows :: row.resolution == PricingOf(pricing.snapshot, row.model).resolution
  {
    hide PricingOf, CapturedPricing.Valid;
    rows := [];
    for i := 0 to |keys|
      invariant |rows| == i
      invariant forall k :: 0 <= k < i ==> OfRow(rows[k].day, rows[k].model) == keys[k] && rows[k].total == book[keys[k]]
      invariant forall k :: 0 <= k < i ==> rows[k].resolution == PricingOf(pricing.snapshot, rows[k].model).resolution
    {
      var f := keys[i];
      assert f in keys;
      MemoIs(pricing, f.model);
      var selected := pricing.memo[f.model];
      rows := rows + [Row(f.day, f.model, selected.resolution, book[f])];
    }
  }

  method BuildModels(keys: seq<Scope>, book: map<Scope, Total>, pricing: CapturedPricing) returns (models: seq<ModelTotal>)
    requires pricing.Valid() && forall f <- keys :: f in book && f.OfModel? && f.model in pricing.memo
    ensures |models| == |keys| && ModelScopes(models) == keys
    ensures forall i :: 0 <= i < |models| ==> models[i].total == book[keys[i]]
    ensures forall m <- models :: m.resolution == PricingOf(pricing.snapshot, m.model).resolution
  {
    hide PricingOf, CapturedPricing.Valid;
    models := [];
    for i := 0 to |keys|
      invariant |models| == i
      invariant forall k :: 0 <= k < i ==> OfModel(models[k].model) == keys[k] && models[k].total == book[keys[k]]
      invariant forall k :: 0 <= k < i ==> models[k].resolution == PricingOf(pricing.snapshot, models[k].model).resolution
    {
      var f := keys[i];
      assert f in keys;
      MemoIs(pricing, f.model);
      var selected := pricing.memo[f.model];
      models := models + [ModelTotal(f.model, selected.resolution, book[f])];
    }
  }

  lemma {:induction false} SomeEntry(entries: seq<Entry>, f: Scope) returns (e: Entry)
    requires Tally(entries, f, Turns) > 0
    ensures e in entries && Covers(f, e)
  {
    hide Covers, Weight;
    var last := entries[|entries| - 1];
    if Covers(f, last) {
      e := last;
    } else {
      e := SomeEntry(entries[..|entries| - 1], f);
    }
  }

  /** Every key's model has been resolved. */
  lemma KeysRemembered(book: map<Scope, Total>, byRow: bool, entries: seq<Entry>, required: seq<bool>, memo: map<string, ModelPricing>)
    requires Books(book, byRow, entries, required) && Remembered(memo, entries)
    ensures forall f <- book :: IsKey(byRow, f) && f.model in memo
  {
    hide IsTotalOf, Tally;
    forall f | f in book ensures IsKey(byRow, f) && f.model in memo {
      var e := SomeEntry(entries, f);
      KeyCovers(byRow, f, e);
    }
  }

  lemma BooksKeys(book: map<Scope, Total>, byRow: bool, entries: seq<Entry>, required: seq<bool>, keys: seq<Scope>)
    requires Books(book, byRow, entries, required) && Ascending(keys) && forall f :: f in keys <==> f in book.Keys
    ensures KeysTrue(keys, byRow, entries)
    ensures forall f <- keys :: f in book && IsTotalOf(book[f], entries, f, required)
  {
    hide IsTotalOf, Tally, Ascending, KeyOf, IsKey;
  }

  /** The maps become sorted rows and models. */
  method Materialize(s: Running, ghost entries: seq<Entry>, required: seq<bool>, pricing: CapturedPricing) returns (section: Section)
    requires RunningTrue(s, entries, required) && pricing.Valid() && Remembered(pricing.memo, entries)
    ensures IsSectionOf(section, entries, required) && Resolved(section, pricing.snapshot)
  {
    hide IsTotalOf, Tally, Books, RowsTrue, ModelsTrue, Remembered, PricingOf, CapturedPricing.Valid;
    var rows := MaterializeRows(s.rows, entries, required, pricing);
    var models := MaterializeModels(s.models, entries, required, pricing);
    section := Section(rows, models, s.total);
  }

  method MaterializeRows(book: map<Scope, Total>, ghost entries: seq<Entry>, required: seq<bool>, pricing: CapturedPricing)
    returns (rows: seq<Row>)
    requires Books(book, true, entries, required) && pricing.Valid() && Remembered(pricing.memo, entries)
    ensures RowsTrue(rows, entries, required)
    ensures forall row <- rows :: row.resolution == PricingOf(pricing.snapshot, row.model).resolution
  {
    hide IsTotalOf, Tally, Ascending, KeyOf, Books, KeysTrue, Remembered, RowScopes, RowsTrue, PricingOf, CapturedPricing.Valid;
    KeysRemembered(book, true, entries, required, pricing.memo);
    var keys := SortKeys(true, book.Keys);
    BooksKeys(book, true, entries, required, keys);
    rows := BuildRows(keys, book, pricing);
    RowsAre(rows, keys, book, entries, required);
  }

  method MaterializeModels(book: map<Scope, Total>, ghost entries: seq<Entry>, required: seq<bool>, pricing: CapturedPricing)
    returns (models: seq<ModelTotal>)
    requires Books(book, false, entries, required) && pricing.Valid() && Remembered(pricing.memo, entries)
    ensures ModelsTrue(models, entries, required)
    ensures forall m <- models :: m.resolution == PricingOf(pricing.snapshot, m.model).resolution
  {
    hide IsTotalOf, Tally, Ascending, KeyOf, Books, KeysTrue, Remembered, ModelScopes, ModelsTrue, PricingOf, CapturedPricing.Valid;
    KeysRemembered(book, false, entries, required, pricing.memo);
    var keys := SortKeys(false, book.Keys);
    BooksKeys(book, false, entries, required, keys);
    models := BuildModels(keys, book, pricing);
    ModelsAre(models, keys, book, entries, required);
  }

  lemma RowsAre(rows: seq<Row>, keys: seq<Scope>, book: map<Scope, Total>, entries: seq<Entry>, required: seq<bool>)
    requires RowScopes(rows) == keys && KeysTrue(keys, true, entries)
    requires forall f <- keys :: f in book && IsTotalOf(book[f], entries, f, required)
    requires forall i :: 0 <= i < |rows| ==> i < |keys| && keys[i] in book && rows[i].total == book[keys[i]]
    ensures RowsTrue(rows, entries, required)
  {
    hide IsTotalOf, KeysTrue;
    forall i | 0 <= i < |rows|
      ensures IsTotalOf(rows[i].total, entries, OfRow(rows[i].day, rows[i].model), required)
    {
      assert keys[i] in keys && keys[i] == OfRow(rows[i].day, rows[i].model);
    }
  }

  lemma ModelsAre(models: seq<ModelTotal>, keys: seq<Scope>, book: map<Scope, Total>, entries: seq<Entry>, required: seq<bool>)
    requires ModelScopes(models) == keys && KeysTrue(keys, false, entries)
    requires forall f <- keys :: f in book && IsTotalOf(book[f], entries, f, required)
    requires forall i :: 0 <= i < |models| ==> i < |keys| && keys[i] in book && models[i].total == book[keys[i]]
    ensures ModelsTrue(models, entries, required)
  {
    hide IsTotalOf, KeysTrue;
    forall i | 0 <= i < |models|
      ensures IsTotalOf(models[i].total, entries, OfModel(models[i].model), required)
    {
      assert keys[i] in keys && keys[i] == OfModel(models[i].model);
    }
  }

  lemma {:induction false} NewBytesSnoc(entries: seq<Entry>, e: Entry, known: set<string>)
    ensures NewBytes(entries + [e], known) == NewBytes(entries, known) + if e.model in known + ModelsOf(entries) then 0 else |e.model|
    ensures ModelsOf(entries + [e]) == ModelsOf(entries) + {e.model}
    ensures RowKeysOf(entries + [e]) == RowKeysOf(entries) + {RowKey(e)}
  {
    hide RowKey;
    assert (entries + [e])[..|entries|] == entries;
  }

  lemma AfterSnoc(start: Spent, entries: seq<Entry>, e: Entry)
    ensures var spent := After(start, entries);
      After(start, entries + [e]) ==
        Spent(spent.identities + {e.model}, spent.retained + (if e.model in spent.identities then 0 else |e.model|),
              spent.examined + 1, spent.groups + if RowKey(e) in RowKeysOf(entries) then 0 else 1)
  {
    NewBytesSnoc(entries, e, start.identities);
    hide RowKey, ModelsOf, NewBytes, RowKeysOf;
    assert start.identities + (ModelsOf(entries) + {e.model}) == start.identities + ModelsOf(entries) + {e.model};
    var keys, key := RowKeysOf(entries), RowKey(e);
    if key in keys {
      assert keys + {key} == keys;
    } else {
      assert |keys + {key}| == |keys| + 1;
    }
  }

  lemma AfterNothing(start: Spent)
    ensures After(start, []) == start
  {}

  /** No row before the n-th exhausts a budget. */
  ghost predicate Affords(rows: seq<Stored>, entries: seq<Entry>, n: nat, limits: Limits, start: Spent) {
    forall k: nat, b :: k < n && k < |rows| && k < |entries| ==> !Exhausts(b, rows, entries, k, limits, start)
  }

  /** The n-th row is the first that exhausts a budget, and it exhausts this one. */
  ghost predicate StopsAt(b: Budget, rows: seq<Stored>, entries: seq<Entry>, n: nat, limits: Limits, start: Spent) {
    n < |rows| && n < |entries| && Exhausts(b, rows, entries, n, limits, start) && Affords(rows, entries, n, limits, start)
  }

  lemma AffordsMore(rows: seq<Stored>, entries: seq<Entry>, n: nat, limits: Limits, start: Spent)
    requires Affords(rows, entries, n, limits, start)
    requires n < |rows| && n < |entries| && forall b :: !Exhausts(b, rows, entries, n, limits, start)
    ensures Affords(rows, entries, n + 1, limits, start)
  {
    hide Exhausts;
  }

  /** What the n-th row is refused for, in terms of what the rows before it spent. */
  lemma ExhaustsIs(rows: seq<Stored>, w: Calendar.Window, basis: Basis, n: nat, limits: Limits, start: Spent)
    requires n < |rows|
    ensures var all, spent := EntriesOf(rows, w, basis), After(start, EntriesOf(rows[..n], w, basis));
      var e := EntryOf(rows[n], w, basis);
      && n < |all| && all[n] == e
      && (Exhausts(Rows, rows, all, n, limits, start) <==> spent.examined + 1 > limits.maxRows)
      && (Exhausts(ModelLength, rows, all, n, limits, start) <==> rows[n].modelBytes > limits.maxModelBytes)
      && (Exhausts(ModelBytes, rows, all, n, limits, start) <==>
            e.model !in spent.identities && spent.retained + |e.model| > limits.maxDistinctModelBytes && e.model != "")
      && (Exhausts(Groups, rows, all, n, limits, start) <==>
            RowKey(e) !in RowKeysOf(EntriesOf(rows[..n], w, basis)) && spent.groups + 1 > limits.maxGroups)
  {
    hide After, RowKeysOf, RowKey, EntryOf;
    var all := EntriesOf(rows, w, basis);
    assert all[..n] == EntriesOf(rows[..n], w, basis);
  }

  lemma EntryModel(row: Stored, w: Calendar.Window, basis: Basis)
    ensures row.model.Some? ==> EntryOf(row, w, basis).model == row.model.value
  {}

  /** A row whose budget checks all passed exhausts none. */
  lemma RowAfforded(rows: seq<Stored>, w: Calendar.Window, basis: Basis, n: nat, limits: Limits, start: Spent)
    requires n < |rows|
    requires var all := EntriesOf(rows, w, basis);
      && n < |all| && Affords(rows, all, n, limits, start)
      && !Exhausts(Rows, rows, all, n, limits, start) && !Exhausts(ModelLength, rows, all, n, limits, start)
      && !Exhausts(ModelBytes, rows, all, n, limits, start) && !Exhausts(Groups, rows, all, n, limits, start)
    ensures Affords(rows, EntriesOf(rows, w, basis), n + 1, limits, start)
  {
    hide Exhausts, EntriesOf, Affords;
    var all := EntriesOf(rows, w, basis);
    forall b ensures !Exhausts(b, rows, all, n, limits, start) {
      match b case Rows => case ModelLength => case ModelBytes => case Groups =>
    }
    AffordsMore(rows, all, n, limits, start);
  }

  /** readSection: the section it returns is the exact ledger of the selected Turns, it has spent
      exactly what reading them costs, and a refusal comes at the first row that exhausts a budget. */
  method ReadSection(rows: seq<Stored>, w: Calendar.Window, surface: Surface, budget: ReadBudget, pricing: CapturedPricing)
    returns (r: Outcome<Section>)
    requires Calendar.Partition(w) && Selected(rows, w, RequiredCounts(surface)) && pricing.Valid() && budget.limits.maxRows <= MAX_ROWS
    modifies budget`identities, budget`retainedBytes, budget`examined, budget`groups, pricing`memo
    ensures pricing.Valid()
    ensures r.Ok? ==>
      AllUsable(rows, RequiredCounts(surface))
      && IsSectionOf(r.value, EntriesOf(rows, w, pricing.For(surface)), RequiredCounts(surface)) && Resolved(r.value, pricing.snapshot)
    ensures r.Ok? ==> var entries, start := EntriesOf(rows, w, pricing.For(surface)), old(SpentOf(budget));
      SpentOf(budget) == After(start, entries) && Affords(rows, entries, |rows|, budget.limits, start)
    ensures r == Fail(Corrupt) ==> SomeUnusable(rows, RequiredCounts(surface))
    ensures r == Fail(Overflow) ==> LeavesInt64(EntriesOf(rows, w, pricing.For(surface)))
    ensures r == Fail(TooLarge) ==> var entries, start := EntriesOf(rows, w, pricing.For(surface)), old(SpentOf(budget));
      exists b, n: nat :: n <= |rows| && StopsAt(b, rows, entries, n, budget.limits, start) && AllUsable(rows[..n], RequiredCounts(surface))
    ensures r.Ok? <==> Servable(rows, w, pricing.For(surface), budget.limits, old(SpentOf(budget)))
  {
    hide *;
    ghost var basis := pricing.For(surface);
    ghost var start := SpentOf(budget);
    ghost var all := EntriesOf(rows, w, basis);
    var required := RequiredCounts(surface);
    BasisIs(pricing, surface);
    var s := Running(EmptyTotal(required), map[], map[]);
    RunningStart(required);
    PassStart(rows, w, required, basis);
    SpentStart(budget, rows, all);
    var bucket := 0;
    for n := 0 to |rows|
      invariant SpentOf(budget) == After(start, EntriesOf(rows[..n], w, basis)) && n <= MAX_ROWS && pricing.Valid()
      invariant Affords(rows, all, n, budget.limits, start)
      invariant RunningTrue(s, EntriesOf(rows[..n], w, basis), required)
      invariant Remembered(pricing.memo, EntriesOf(rows[..n], w, basis))
      invariant AllUsable(rows[..n], required) && BucketReady(rows, n, w, bucket)
    {
      var next := ReadRow(rows, n, w, surface, budget, pricing, s, bucket, start);
      if next.Fail? {
        Unservable(rows, w, basis, budget.limits, start, next.failure, n);
        return Fail(next.failure);
      }
      s, bucket := next.value.0, next.value.1;
    }
    assert rows[..|rows|] == rows;
    var section := Materialize(s, all, required, pricing);
    SumsStay(section, all, required);
    IsServable(rows, w, basis, budget.limits, start);
    return Ok(section);
  }

  /** What a section can be read from: usable rows that exhaust no budget, and sums within int64. */
  ghost predicate Servable(rows: seq<Stored>, w: Calendar.Window, basis: Basis, limits: Limits, start: Spent) {
    var entries := EntriesOf(rows, w, basis);
    AllUsable(rows, RequiredCounts(basis.surface)) && Affords(rows, entries, |rows|, limits, start) && !LeavesInt64(entries)
  }

  lemma IsServable(rows: seq<Stored>, w: Calendar.Window, basis: Basis, limits: Limits, start: Spent)
    requires var entries := EntriesOf(rows, w, basis);
      AllUsable(rows, RequiredCounts(basis.surface)) && Affords(rows, entries, |rows|, limits, start) && !LeavesInt64(entries)
    ensures Servable(rows, w, basis, limits, start)
  {
    hide EntriesOf, Affords, AllUsable, LeavesInt64;
  }

  /** Each cause of a refusal is a reason why the rows cannot be served. */
  lemma Unservable(rows: seq<Stored>, w: Calendar.Window, basis: Basis, limits: Limits, start: Spent, failure: Failure, n: nat)
    requires failure == Corrupt ==> SomeUnusable(rows, RequiredCounts(basis.surface))
    requires failure == Overflow ==> LeavesInt64(EntriesOf(rows, w, basis))
    requires failure == TooLarge ==> exists b :: StopsAt(b, rows, EntriesOf(rows, w, basis), n, limits, start)
    ensures !Servable(rows, w, basis, limits, start)
  {
    hide Exhausts, EntriesOf, LeavesInt64, Usable;
    match failure
    case Corrupt =>
    case Overflow =>
    case TooLarge =>
      var b :| StopsAt(b, rows, EntriesOf(rows, w, basis), n, limits, start);
  }

  lemma {:induction false} TallyPrefix(entries: seq<Entry>, n: nat, f: Scope, m: Measure)
    requires n <= |entries|
    ensures Tally(entries[..n], f, m) <= Tally(entries, f, m)
    decreases |entries| - n
  {
    hide Weight, Covers, Tally;
    if n < |entries| {
      assert entries[..n + 1] == entries[..n] + [entries[n]];
      TallyStep(entries[..n], entries[n], f, m);
      TallyPrefix(entries, n + 1, f, m);
    } else {
      assert entries[..n] == entries;
    }
  }

  /** The sums of a section that exists stay within int64, at every row on the way. */
  lemma SumsStay(s: Section, entries: seq<Entry>, required: seq<bool>)
    requires IsSectionOf(s, entries, required)
    ensures !LeavesInt64(entries)
  {
    hide Tally, Value, Balanced, RowsTrue, ModelsTrue;
    forall n: nat, i: nat | n <= |entries| ensures Tally(entries[..n], Everything, Sum(i)) <= MAX_INT64 {
      TallyPrefix(entries, n, Everything, Sum(i));
      SumFits(s.total, required, i);
    }
  }

  lemma SumFits(t: Total, required: seq<bool>, i: nat)
    requires Balanced(t, required)
    ensures Value(t, Sum(i)) <= MAX_INT64
  {
    hide CostOk, Affordable;
    if i < |t.usage| { assert MetricOk(t.usage[i], required[i], t.turns); }
  }

  lemma SpentStart(budget: ReadBudget, rows: seq<Stored>, all: seq<Entry>)
    ensures SpentOf(budget) == After(SpentOf(budget), []) && Affords(rows, all, 0, budget.limits, SpentOf(budget))
  {
    AfterNothing(SpentOf(budget));
  }

  /** One turn of the loop. */
  method ReadRow(rows: seq<Stored>, n: nat, w: Calendar.Window, surface: Surface, budget: ReadBudget, pricing: CapturedPricing,
                 s: Running, bucket: nat, ghost start: Spent)
    returns (r: Outcome<(Running, nat)>)
    requires n < |rows| && Calendar.Partition(w) && Selected(rows, w, RequiredCounts(surface)) && pricing.Valid()
    requires budget.limits.maxRows <= MAX_ROWS && BucketReady(rows, n, w, bucket) && AllUsable(rows[..n], RequiredCounts(surface))
    requires var entries := EntriesOf(rows[..n], w, pricing.For(surface));
      RunningTrue(s, entries, RequiredCounts(surface)) && Remembered(pricing.memo, entries) && SpentOf(budget) == After(start, entries)
    requires Affords(rows, EntriesOf(rows, w, pricing.For(surface)), n, budget.limits, start)
    modifies budget`identities, budget`retainedBytes, budget`examined, budget`groups, pricing`memo
    ensures pricing.Valid()
    ensures r.Ok? ==> var entries := EntriesOf(rows[..n + 1], w, pricing.For(surface));
      && RunningTrue(r.value.0, entries, RequiredCounts(surface)) && Remembered(pricing.memo, entries)
      && SpentOf(budget) == After(start, entries) && BucketReady(rows, n + 1, w, r.value.1)
      && AllUsable(rows[..n + 1], RequiredCounts(surface)) && n + 1 <= MAX_ROWS
      && Affords(rows, EntriesOf(rows, w, pricing.For(surface)), n + 1, budget.limits, start)
    ensures r == Fail(Corrupt) ==> SomeUnusable(rows, RequiredCounts(surface))
    ensures r == Fail(Overflow) ==> LeavesInt64(EntriesOf(rows, w, pricing.For(surface)))
    ensures r == Fail(TooLarge) ==>
      exists b :: StopsAt(b, rows, EntriesOf(rows, w, pricing.For(surface)), n, budget.limits, start)
  {
    hide *;
    ghost var basis := pricing.For(surface);
    ghost var all, entries, e := EntriesOf(rows, w, basis), EntriesOf(rows[..n], w, basis), EntryOf(rows[n], w, basis);
    var required := RequiredCounts(surface);
    ExhaustsIs(rows, w, basis, n, budget.limits, start);
    SpentIs(budget);
    ExaminedIs(start, entries);
    EntriesLength(rows[..n], w, basis);
    StopIs(rows, all, n, budget.limits, start);
    budget.examined := budget.examined + 1;
    if budget.examined > budget.limits.maxRows {
      return Fail(TooLarge);
    }
    var row := rows[n];
    RowSelected(rows, n, w, required);
    EntryModel(row, w, basis);
    UsableModel(row, required);
    RemainingIs(budget, if row.model.Some? then |row.model.value| else 0);
    var failure := CheckRow(row, required, budget);
    if failure.Some? {
      if failure.value == Corrupt { SomeRowUnusable(rows, n, required); }
      return Fail(failure.value);
    }
    RowTaken(rows, n, required);
    r := TakeRow(rows, n, w, surface, required, budget, pricing, s, bucket);
    if r.Ok? {
      RowAfforded(rows, w, basis, n, budget.limits, start);
      EntriesSnoc(rows, n, w, basis);
      AfterSnoc(start, entries, e);
      SpentIs(budget);
    }
  }

  lemma SpentIs(budget: ReadBudget)
    ensures SpentOf(budget) == Spent(budget.identities, budget.retainedBytes, budget.examined, budget.groups)
  {}

  lemma ExaminedIs(start: Spent, entries: seq<Entry>)
    ensures After(start, entries).examined == start.examined + |entries|
  {}

  lemma RemainingIs(budget: ReadBudget, size: nat)
    ensures size > budget.RemainingBytes() <==> budget.retainedBytes + size > budget.limits.maxDistinctModelBytes && size > 0
  {}

  lemma UsableModel(row: Stored, required: seq<bool>)
    requires |row.counts| == |required|
    ensures Usable(row, required) ==> row.model.Some?
  {}

  lemma SomeRowUnusable(rows: seq<Stored>, n: nat, required: seq<bool>)
    requires n < |rows| && |rows[n].counts| == |required| && !Usable(rows[n], required)
    ensures SomeUnusable(rows, required)
  {
    assert rows[n] in rows;
  }

  lemma StopIs(rows: seq<Stored>, entries: seq<Entry>, n: nat, limits: Limits, start: Spent)
    requires n < |rows| && n < |entries| && Affords(rows, entries, n, limits, start)
    ensures forall b :: Exhausts(b, rows, entries, n, limits, start) ==> StopsAt(b, rows, entries, n, limits, start)
  {
    hide Exhausts, Affords;
  }

  // ----------------------------------------------------------------- conservation

  function SumRows(rows: seq<Row>, m: Measure): nat {
    if rows == [] then 0 else Value(rows[0].total, m) + SumRows(rows[1..], m)
  }

  function SumModels(models: seq<ModelTotal>, m: Measure): nat {
    if models == [] then 0 else Value(models[0].total, m) + SumModels(models[1..], m)
  }

  function RowsOfModel(rows: seq<Row>, model: string): seq<Row> {
    if rows == [] then [] else (if rows[0].model == model then [rows[0]] else []) + RowsOfModel(rows[1..], model)
  }

  lemma {:induction false} CoveredOnce(keys: seq<Scope>, byRow: bool, e: Entry)
    requires Ascending(keys) && forall f <- keys :: IsKey(byRow, f)
    ensures Coverings(keys, e) == if KeyOf(byRow, e) in keys then 1 else 0
  {
    hide Before, IsKey, KeyOf, Covers;
    if keys != [] {
      CoveredOnce(keys[1..], byRow, e);
      KeyCovers(byRow, keys[0], e);
      if keys[0] == KeyOf(byRow, e) {
        forall i | 1 <= i < |keys| ensures keys[i] != keys[0] { BeforeOne(byRow, keys[0], keys[i]); }
      }
    }
  }

  lemma {:induction false} SumRowsIs(rows: seq<Row>, entries: seq<Entry>, required: seq<bool>, m: Measure)
    requires forall i :: 0 <= i < |rows| ==> IsTotalOf(rows[i].total, entries, OfRow(rows[i].day, rows[i].model), required)
    ensures SumRows(rows, m) == Over(RowScopes(rows), entries, m)
  {
    hide Balanced, Tally, Value;
    if rows != [] {
      assert RowScopes(rows)[1..] == RowScopes(rows[1..]);
      SumRowsIs(rows[1..], entries, required, m);
    }
  }

  lemma {:induction false} SumModelsIs(models: seq<ModelTotal>, entries: seq<Entry>, required: seq<bool>, m: Measure)
    requires forall i :: 0 <= i < |models| ==> IsTotalOf(models[i].total, entries, OfModel(models[i].model), required)
    ensures SumModels(models, m) == Over(ModelScopes(models), entries, m)
  {
    hide Balanced, Tally, Value;
    if models != [] {
      assert ModelScopes(models)[1..] == ModelScopes(models[1..]);
      SumModelsIs(models[1..], entries, required, m);
    }
  }

  lemma {:induction false} PartOfRows(rows: seq<Row>, model: string)
    ensures forall row <- RowsOfModel(rows, model) :: row in rows
  {
    if rows != [] { PartOfRows(rows[1..], model); }
  }

  lemma {:induction false} PartCovers(rows: seq<Row>, model: string, e: Entry)
    ensures Coverings(RowScopes(RowsOfModel(rows, model)), e) == if e.model == model then Coverings(RowScopes(rows), e) else 0
  {
    hide RowsOfModel, RowScopes, Coverings, Covers;
    if rows == [] {
      NoCoverings(model, e);
    } else {
      var rest := rows[1..];
      PartCovers(rest, model, e);
      PartUnfold(rows, model);
      CoveringFirst(rows, e);
      OwnCovers(rows[0], e);
      var own := RowsOfModel(rest, model);
      if rows[0].model == model {
        var part := [rows[0]] + own;
        assert part[0] == rows[0] && part[1..] == own;
        CoveringFirst(part, e);
      } else {
        assert [] + own == own;
      }
    }
  }

  lemma NoCoverings(model: string, e: Entry)
    ensures RowsOfModel([], model) == [] && RowScopes([]) == [] && Coverings([], e) == 0
  {}

  lemma PartUnfold(rows: seq<Row>, model: string)
    requires rows != []
    ensures RowsOfModel(rows, model) == (if rows[0].model == model then [rows[0]] else []) + RowsOfModel(rows[1..], model)
  {}

  /** The first row's own scope, and the others'. */
  lemma CoveringFirst(rows: seq<Row>, e: Entry)
    requires rows != []
    ensures Coverings(RowScopes(rows), e) == (if Covers(OfRow(rows[0].day, rows[0].model), e) then 1 else 0) + Coverings(RowScopes(rows[1..]), e)
  {
    assert RowScopes(rows)[1..] == RowScopes(rows[1..]);
  }

  lemma OwnCovers(row: Row, e: Entry)
    ensures Covers(OfRow(row.day, row.model), e) ==> row.model == e.model
  {}

  /** Rows add up to the section total, in every measure. */
  lemma RowsMakeTotal(s: Section, entries: seq<Entry>, required: seq<bool>, m: Measure)
    requires IsSectionOf(s, entries, required)
    ensures SumRows(s.rows, m) == Value(s.total, m)
  {
    hide Balanced, Tally, Value, Ascending, Over, Coverings, RowScopes;
    SumRowsIs(s.rows, entries, required, m);
    forall e | e in entries ensures Coverings(RowScopes(s.rows), e) == if Covers(Everything, e) then 1 else 0 {
      CoveredOnce(RowScopes(s.rows), true, e);
    }
    PartsAddUp(RowScopes(s.rows), Everything, entries, m);
  }

  /** Models add up to the section total, in every measure. */
  lemma ModelsMakeTotal(s: Section, entries: seq<Entry>, required: seq<bool>, m: Measure)
    requires IsSectionOf(s, entries, required)
    ensures SumModels(s.models, m) == Value(s.total, m)
  {
    hide Balanced, Tally, Value, Ascending, Over, Coverings, ModelScopes;
    SumModelsIs(s.models, entries, required, m);
    forall e | e in entries ensures Coverings(ModelScopes(s.models), e) == if Covers(Everything, e) then 1 else 0 {
      CoveredOnce(ModelScopes(s.models), false, e);
    }
    PartsAddUp(ModelScopes(s.models), Everything, entries, m);
  }

  /** The rows of a model add up to the model's total, in every measure. */
  lemma RowsMakeModels(s: Section, entries: seq<Entry>, required: seq<bool>, i: nat, m: Measure)
    requires IsSectionOf(s, entries, required) && i < |s.models|
    ensures SumRows(RowsOfModel(s.rows, s.models[i].model), m) == Value(s.models[i].total, m)
  {
    hide Balanced, Tally, Value, Ascending, Over, Coverings, RowScopes, RowsOfModel;
    var model := s.models[i].model;
    var part := RowsOfModel(s.rows, model);
    PartOfRows(s.rows, model);
    forall k | 0 <= k < |part| ensures IsTotalOf(part[k].total, entries, OfRow(part[k].day, part[k].model), required) {
      assert part[k] in s.rows;
    }
    SumRowsIs(part, entries, required, m);
    forall e | e in entries ensures Coverings(RowScopes(part), e) == if Covers(OfModel(model), e) then 1 else 0 {
      CoveredOnce(RowScopes(s.rows), true, e);
      PartCovers(s.rows, model, e);
    }
    PartsAddUp(RowScopes(part), OfModel(model), entries, m);
  }

  /** The measures determine a total completely, the exact amount included. */
  lemma TotalDetermined(a: Total, b: Total, required: seq<bool>)
    requires Balanced(a, required) && Balanced(b, required) && forall m :: Value(a, m) == Value(b, m)
    ensures a == b
  {
    hide Worth, IsAmount, Affordable;
    SameCost(a, b, required);
    forall i | 0 <= i < |required| ensures a.usage[i] == b.usage[i] {
      assert MetricOk(a.usage[i], required[i], a.turns) && MetricOk(b.usage[i], required[i], b.turns);
      assert Value(a, Sum(i)) == Value(b, Sum(i)) && Value(a, Reported(i)) == Value(b, Reported(i));
    }
    assert Value(a, Turns) == Value(b, Turns);
  }

  lemma SameCost(a: Total, b: Total, required: seq<bool>)
    requires Balanced(a, required) && Balanced(b, required) && forall m :: Value(a, m) == Value(b, m)
    ensures a.cost == b.cost
  {
    hide Worth, IsAmount, Affordable, MetricOk;
    assert Value(a, Turns) == Value(b, Turns) && Value(a, PricedTurns) == Value(b, PricedTurns);
    assert Value(a, Dollars) == Value(b, Dollars);
    assert Value(a, UnpricedTurns(UnknownModel)) == Value(b, UnpricedTurns(UnknownModel));
    assert Value(a, UnpricedTurns(AmbiguousModel)) == Value(b, UnpricedTurns(AmbiguousModel));
    assert Value(a, UnpricedTurns(MissingRate)) == Value(b, UnpricedTurns(MissingRate));
    assert Value(a, UnpricedTurns(MissingUsage)) == Value(b, UnpricedTurns(MissingUsage));
    assert Value(a, UnpricedTurns(InconsistentUsage)) == Value(b, UnpricedTurns(InconsistentUsage));
    if a.cost.amount.Some? {
      WorthFromUnits(a.cost.amount.value);
      WorthFromUnits(b.cost.amount.value);
    }
  }
}
