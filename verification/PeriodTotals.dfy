/** Subtotals of one period for the terminal (internal/usage/reportcli/command.go): they are the
    exact totals of that period's Turns. */
module PeriodTotals {
  import opened Wrappers
  import opened Amounts
  import opened Tallies
  import opened Ledger
  import Valuation

  /** addPeriodCount. */
  method AddPeriodCount(total: nat, value: nat) returns (r: Option<nat>)
    requires total <= MAX_INT64 && value <= MAX_INT64
    ensures r == if total + value <= MAX_INT64 then Some(total + value) else None
  {
    if value > MAX_INT64 - total {
      return None;
    }
    return Some(total + value);
  }

  /** Every count fits int64. */
  ghost predicate InRange(t: Total, width: nat) {
    |t.usage| == width && forall m :: m != Dollars ==> Value(t, m) <= MAX_INT64
  }

  /** An absent amount or sum becomes present with the first row that has one. */
  predicate SamePresence(a: Total, b: Total, r: Total) {
    && |a.usage| == |b.usage| == |r.usage|
    && (r.cost.amount.Some? <==> a.cost.amount.Some? || b.cost.amount.Some?)
    && (forall i :: 0 <= i < |r.usage| ==> (r.usage[i].sum.Some? <==> a.usage[i].sum.Some? || b.usage[i].sum.Some?))
  }

  function NoTotal(width: nat): (t: Total)
    ensures InRange(t, width) && (forall m :: Value(t, m) == 0)
    ensures t.cost.amount.None? && forall i :: 0 <= i < width ==> t.usage[i].sum.None?
  {
    Total(0, seq(width, i => Metric(None, 0)), Cost(None, 0, Coverage(0, 0, 0, 0, 0)))
  }

  /** The six cost counters. */
  method AddCounters(a: Cost, b: Cost) returns (r: Option<(nat, Coverage)>)
    requires a.priced <= MAX_INT64 && b.priced <= MAX_INT64
    requires forall reason :: Count(a.unpriced, reason) <= MAX_INT64 && Count(b.unpriced, reason) <= MAX_INT64
    ensures r.Some? ==> r.value.0 == a.priced + b.priced <= MAX_INT64
    ensures r.Some? ==> forall reason ::
      Count(r.value.1, reason) == Count(a.unpriced, reason) + Count(b.unpriced, reason) <= MAX_INT64
    ensures r.None? ==>
      (a.priced + b.priced > MAX_INT64 || exists reason :: Count(a.unpriced, reason) + Count(b.unpriced, reason) > MAX_INT64)
  {
    var x := [a.priced, Count(a.unpriced, UnknownModel), Count(a.unpriced, AmbiguousModel), Count(a.unpriced, MissingRate),
              Count(a.unpriced, MissingUsage), Count(a.unpriced, InconsistentUsage)];
    var y := [b.priced, Count(b.unpriced, UnknownModel), Count(b.unpriced, AmbiguousModel), Count(b.unpriced, MissingRate),
              Count(b.unpriced, MissingUsage), Count(b.unpriced, InconsistentUsage)];
    ghost var reasons := [UnknownModel, UnknownModel, AmbiguousModel, MissingRate, MissingUsage, InconsistentUsage];
    var sums: seq<nat> := [];
    for i := 0 to 6
      invariant |sums| == i && forall k :: 0 <= k < i ==> sums[k] == x[k] + y[k] <= MAX_INT64
    {
      var sum := AddPeriodCount(x[i], y[i]);
      if sum.None? {
        assert i == 0 || Count(a.unpriced, reasons[i]) + Count(b.unpriced, reasons[i]) > MAX_INT64;
        return None;
      }
      sums := sums + [sum.value];
    }
    return Some((sums[0], Coverage(sums[1], sums[2], sums[3], sums[4], sums[5])));
  }

  function Combined(a: Metric, b: Metric): Metric {
    Metric(if b.sum.Some? then Some(Known(a.sum, 0) + b.sum.value) else a.sum, a.reported + b.reported)
  }

  predicate Exceeds(a: Metric, b: Metric) {
    a.reported + b.reported > MAX_INT64 || Known(a.sum, 0) + Known(b.sum, 0) > MAX_INT64
  }

  /** The metrics of one row. */
  method AddMetrics(a: seq<Metric>, b: seq<Metric>) returns (r: Option<seq<Metric>>)
    requires |a| == |b|
    requires forall m <- a :: m.reported <= MAX_INT64 && Known(m.sum, 0) <= MAX_INT64
    requires forall m <- b :: m.reported <= MAX_INT64 && Known(m.sum, 0) <= MAX_INT64
    ensures r.Some? ==> |r.value| == |a| && forall i :: 0 <= i < |a| ==> r.value[i] == Combined(a[i], b[i])
    ensures r.Some? ==> forall i :: 0 <= i < |a| ==> r.value[i].reported <= MAX_INT64 && Known(r.value[i].sum, 0) <= MAX_INT64
    ensures r.None? ==> exists i :: 0 <= i < |a| && Exceeds(a[i], b[i])
  {
    hide Combined, Exceeds;
    var out: seq<Metric> := [];
    for i := 0 to |a|
      invariant |out| == i && forall k :: 0 <= k < i ==> out[k] == Combined(a[k], b[k])
      invariant forall k :: 0 <= k < i ==> out[k].reported <= MAX_INT64 && Known(out[k].sum, 0) <= MAX_INT64
    {
      assert a[i] in a && b[i] in b;
      var metric := AddMetric(a[i], b[i]);
      if metric.None? {
        return None;
      }
      out := out + [metric.value];
    }
    return Some(out);
  }

  /** One metric: its coverage, and its sum when the row has one. */
  method AddMetric(a: Metric, b: Metric) returns (r: Option<Metric>)
    requires a.reported <= MAX_INT64 && Known(a.sum, 0) <= MAX_INT64 && b.reported <= MAX_INT64 && Known(b.sum, 0) <= MAX_INT64
    ensures r.Some? ==> r.value == Combined(a, b) && r.value.reported <= MAX_INT64 && Known(r.value.sum, 0) <= MAX_INT64
    ensures r.None? <==> Exceeds(a, b)
  {
    var reported := AddPeriodCount(a.reported, b.reported);
    if reported.None? {
      return None;
    }
    var sum := a.sum;
    if b.sum.Some? {
      var more := AddPeriodCount(Known(a.sum, 0), b.sum.value);
      if more.None? {
        return None;
      }
      sum := more;
    }
    return Some(Metric(sum, reported.value));
  }

  predicate TooLarge(a: Total, b: Total, m: Measure) {
    if m == Dollars then FromUnits(Value(a, m) + Value(b, m)).None? else Value(a, m) + Value(b, m) > MAX_INT64
  }

  lemma RangeOf(t: Total, width: nat)
    requires InRange(t, width)
    ensures t.turns <= MAX_INT64 && t.cost.priced <= MAX_INT64 && forall reason :: Count(t.cost.unpriced, reason) <= MAX_INT64
    ensures forall m <- t.usage :: m.reported <= MAX_INT64 && Known(m.sum, 0) <= MAX_INT64
  {
    assert Value(t, Turns) <= MAX_INT64 && Value(t, PricedTurns) <= MAX_INT64;
    forall reason ensures Count(t.cost.unpriced, reason) <= MAX_INT64 {
      assert Value(t, UnpricedTurns(reason)) <= MAX_INT64;
    }
    forall m | m in t.usage ensures m.reported <= MAX_INT64 && Known(m.sum, 0) <= MAX_INT64 {
      var i :| 0 <= i < |t.usage| && t.usage[i] == m;
      assert Value(t, Reported(i)) <= MAX_INT64 && Value(t, Sum(i)) <= MAX_INT64;
    }
  }

  /** What of a row is added: its costs only when they are included. */
  function Counted(t: Total, includeCost: bool): Total {
    if includeCost then t else t.(cost := Cost(None, 0, Coverage(0, 0, 0, 0, 0)))
  }

  lemma CountedRange(t: Total, includeCost: bool, width: nat)
    requires InRange(t, width)
    ensures InRange(Counted(t, includeCost), width) && Counted(t, includeCost).usage == t.usage && Counted(t, includeCost).turns == t.turns
  {
    var c := Counted(t, includeCost);
    forall m | m != Dollars ensures Value(c, m) <= Value(t, m) <= MAX_INT64 {}
  }

  /** One row into the subtotal: exact in every measure, or some measure leaves its range. */
  method AddRow(total: Total, row: Total, includeCost: bool, width: nat) returns (r: Option<Total>)
    requires InRange(total, width) && InRange(row, width)
    ensures r.Some? ==> InRange(r.value, width) && SamePresence(total, Counted(row, includeCost), r.value)
    ensures r.Some? ==> forall m :: Value(r.value, m) == Value(total, m) + Value(Counted(row, includeCost), m)
    ensures r.None? ==> exists m :: TooLarge(total, Counted(row, includeCost), m)
  {
    hide Worth, IsAmount, FromUnits, InRange;
    ghost var counted := Counted(row, includeCost);
    CountedRange(row, includeCost, width);
    RangeOf(total, width);
    RangeOf(row, width);
    WidthOf(total, width);
    WidthOf(row, width);
    var turns := AddPeriodCount(total.turns, row.turns);
    if turns.None? {
      assert TooLarge(total, counted, Turns);
      return None;
    }
    var cost := total.cost;
    if includeCost {
      var counters := AddCounters(total.cost, row.cost);
      if counters.None? {
        CountersTooLarge(total, row);
        return None;
      }
      var amount := total.cost.amount;
      if row.cost.amount.Some? {
        if amount.None? {
          amount := row.cost.amount;
        } else {
          amount := Add(amount.value, row.cost.amount.value);
          if amount.None? {
            assert TooLarge(total, counted, Dollars);
            return None;
          }
        }
      }
      cost := Cost(amount, counters.value.0, counters.value.1);
    }
    var usage := AddMetrics(total.usage, row.usage);
    if usage.None? {
      MetricsTooLarge(total, counted);
      return None;
    }
    r := Some(Total(turns.value, usage.value, cost));
    AddedUp(total, counted, r.value, width);
  }

  lemma WidthOf(t: Total, width: nat)
    requires InRange(t, width)
    ensures |t.usage| == width
  {}

  lemma CountersTooLarge(a: Total, b: Total)
    requires a.cost.priced + b.cost.priced > MAX_INT64
      || exists reason :: Count(a.cost.unpriced, reason) + Count(b.cost.unpriced, reason) > MAX_INT64
    ensures exists m :: TooLarge(a, b, m)
  {
    if a.cost.priced + b.cost.priced > MAX_INT64 {
      assert TooLarge(a, b, PricedTurns);
    } else {
      var reason :| Count(a.cost.unpriced, reason) + Count(b.cost.unpriced, reason) > MAX_INT64;
      assert TooLarge(a, b, UnpricedTurns(reason));
    }
  }

  lemma MetricsTooLarge(a: Total, b: Total)
    requires |a.usage| == |b.usage|
    requires exists i :: 0 <= i < |a.usage| && Exceeds(a.usage[i], b.usage[i])
    ensures exists m :: TooLarge(a, b, m)
  {
    var i :| 0 <= i < |a.usage| && Exceeds(a.usage[i], b.usage[i]);
    assert TooLarge(a, b, Reported(i)) || TooLarge(a, b, Sum(i));
  }

  lemma AddedUp(a: Total, b: Total, r: Total, width: nat)
    requires |a.usage| == |b.usage| == |r.usage| == width && r.turns == a.turns + b.turns <= MAX_INT64
    requires r.cost.priced == a.cost.priced + b.cost.priced <= MAX_INT64
    requires forall reason ::
      Count(r.cost.unpriced, reason) == Count(a.cost.unpriced, reason) + Count(b.cost.unpriced, reason) <= MAX_INT64
    requires forall i :: 0 <= i < width ==>
      r.usage[i] == Combined(a.usage[i], b.usage[i]) && r.usage[i].reported <= MAX_INT64 && Known(r.usage[i].sum, 0) <= MAX_INT64
    requires Value(r, Dollars) == Value(a, Dollars) + Value(b, Dollars)
    ensures InRange(r, width) && forall m :: Value(r, m) == Value(a, m) + Value(b, m)
  {
    hide Worth, IsAmount;
    forall m ensures Value(r, m) == Value(a, m) + Value(b, m) && (m != Dollars ==> Value(r, m) <= MAX_INT64) {
      match m
      case Turns =>
      case Sum(i) =>
      case Reported(i) =>
      case Dollars =>
      case PricedTurns =>
      case UnpricedTurns(reason) =>
    }
  }

  lemma {:induction false} SumSnoc(rows: seq<Row>, n: nat, m: Measure)
    requires n < |rows|
    ensures SumRows(rows[..n + 1], m) == SumRows(rows[..n], m) + Value(rows[n].total, m)
    ensures SumRows(rows[..n + 1], m) <= SumRows(rows, m)
  {
    SumOne(rows[n], m);
    CutAfter(rows, n);
    hide Value, SumRows;
    SumPlus(rows[..n], [rows[n]], m);
    SumPlus(rows[..n + 1], rows[n + 1..], m);
  }

  lemma SumOne(row: Row, m: Measure)
    ensures SumRows([row], m) == Value(row.total, m)
  {
    hide Value;
    assert [row][1..] == [];
    assert SumRows([], m) == 0;
  }

  lemma CutAfter<T>(items: seq<T>, n: nat)
    requires n < |items|
    ensures items[..n] + [items[n]] == items[..n + 1]
    ensures items[..n + 1] + items[n + 1..] == items
  {}

  lemma {:induction false} SumPlus(a: seq<Row>, b: seq<Row>, m: Measure)
    ensures SumRows(a + b, m) == SumRows(a, m) + SumRows(b, m)
  {
    if a == [] {
      assert a + b == b;
    } else {
      assert (a + b)[1..] == a[1..] + b;
      SumPlus(a[1..], b, m);
    }
  }

  /** Every measure of the rows' sum stays in its range. */
  ghost predicate Summable(rows: seq<Row>) {
    (forall m :: m != Dollars ==> SumRows(rows, m) <= MAX_INT64) && Affordable(SumRows(rows, Dollars), MAX_ROWS)
  }

  lemma PrefixFits(rows: seq<Row>, n: nat, total: Total, m: Measure)
    requires n < |rows| && Summable(rows) && Value(total, m) == SumRows(rows[..n], m)
    ensures !TooLarge(total, rows[n].total, m)
  {
    hide Value, FromUnits, Worth, IsAmount;
    SumSnoc(rows, n, m);
    if m == Dollars { Valuation.SmallFits(SumRows(rows[..n + 1], m)); }
  }

  lemma NoRows(width: nat)
    ensures forall m :: SumRows([], m) == 0
  {}

  function CountedRows(rows: seq<Row>, includeCost: bool): seq<Row> {
    seq(|rows|, i requires 0 <= i < |rows| => rows[i].(total := Counted(rows[i].total, includeCost)))
  }

  predicate IsCost(m: Measure) { m.Dollars? || m.PricedTurns? || m.UnpricedTurns? }

  /** Included, every measure counts; left out, the measures of cost are nothing and the others stay. */
  lemma {:induction false} CountedSum(rows: seq<Row>, includeCost: bool, m: Measure)
    ensures SumRows(CountedRows(rows, includeCost), m) == if !includeCost && IsCost(m) then 0 else SumRows(rows, m)
  {
    hide Worth, IsAmount;
    if rows != [] {
      assert CountedRows(rows, includeCost)[1..] == CountedRows(rows[1..], includeCost);
      CountedSum(rows[1..], includeCost, m);
    }
  }

  lemma CountedSummable(rows: seq<Row>, includeCost: bool)
    requires Summable(rows)
    ensures Summable(CountedRows(rows, includeCost))
  {
    hide SumRows;
    forall m ensures SumRows(CountedRows(rows, includeCost), m) <= SumRows(rows, m) {
      CountedSum(rows, includeCost, m);
    }
    assert SumRows(rows, Dollars) <= MAX_ROWS * (4 * Valuation.LINE_BOUND);
  }

  /** periodTotal: exact in every measure, the measures of cost being nothing unless they are
      included; it fails only when a sum leaves its range. */
  method PeriodTotal(rows: seq<Row>, width: nat, includeCost: bool) returns (r: Option<Total>)
    requires forall row <- rows :: InRange(row.total, width)
    ensures r.Some? ==> InRange(r.value, width)
    ensures r.Some? ==> forall m :: Value(r.value, m) == if !includeCost && IsCost(m) then 0 else SumRows(rows, m)
    ensures r.Some? ==> (r.value.cost.amount.Some? <==> includeCost && exists row <- rows :: row.total.cost.amount.Some?)
    ensures Summable(rows) ==> r.Some?
  {
    hide Value, InRange, TooLarge, Summable, SumRows, SamePresence, Worth, IsAmount;
    ghost var counted := CountedRows(rows, includeCost);
    if Summable(rows) { CountedSummable(rows, includeCost); }
    var total := NoTotal(width);
    NoRows(width);
    for n := 0 to |rows|
      invariant InRange(total, width) && forall m :: Value(total, m) == SumRows(counted[..n], m)
      invariant total.cost.amount.Some? <==> includeCost && exists k :: 0 <= k < n && rows[k].total.cost.amount.Some?
    {
      assert rows[n] in rows;
      var next := AddRow(total, rows[n].total, includeCost, width);
      if next.None? {
        if Summable(rows) {
          ghost var m :| TooLarge(total, Counted(rows[n].total, includeCost), m);
          PrefixFits(counted, n, total, m);
        }
        return None;
      }
      PresenceOf(total, Counted(rows[n].total, includeCost), next.value);
      forall m ensures Value(next.value, m) == SumRows(counted[..n + 1], m) { SumSnoc(counted, n, m); }
      total := next.value;
    }
    assert counted[..|rows|] == counted;
    forall m ensures Value(total, m) == if !includeCost && IsCost(m) then 0 else SumRows(rows, m) {
      CountedSum(rows, includeCost, m);
    }
    return Some(total);
  }

  lemma PresenceOf(a: Total, b: Total, r: Total)
    requires SamePresence(a, b, r)
    ensures r.cost.amount.Some? <==> a.cost.amount.Some? || b.cost.amount.Some?
  {}

  // ---------------------------------------------------------- rows of an exact section

  /** The rows from start that share a date: one group of the table. */
  predicate IsPeriod(rows: seq<Row>, start: nat, end: nat) {
    start < end <= |rows| && (forall i :: start <= i < end ==> rows[i].day == rows[start].day)
    && (forall i :: 0 <= i < |rows| && !(start <= i < end) ==> rows[i].day != rows[start].day)
  }

  lemma {:induction false} OffDayCovers(rows: seq<Row>, day: int, e: Entry)
    requires forall i :: 0 <= i < |rows| ==> rows[i].day != day
    ensures e.day == day ==> Coverings(RowScopes(rows), e) == 0
  {
    if rows != [] {
      assert RowScopes(rows)[1..] == RowScopes(rows[1..]);
      OffDayCovers(rows[1..], day, e);
    }
  }

  lemma {:induction false} OnDayCovers(rows: seq<Row>, day: int, e: Entry)
    requires forall i :: 0 <= i < |rows| ==> rows[i].day == day
    ensures e.day != day ==> Coverings(RowScopes(rows), e) == 0
  {
    if rows != [] {
      assert RowScopes(rows)[1..] == RowScopes(rows[1..]);
      OnDayCovers(rows[1..], day, e);
    }
  }

  lemma {:induction false} CoveringsPlus(a: seq<Row>, b: seq<Row>, e: Entry)
    ensures Coverings(RowScopes(a + b), e) == Coverings(RowScopes(a), e) + Coverings(RowScopes(b), e)
  {
    if a == [] {
      assert a + b == b;
    } else {
      assert (a + b)[1..] == a[1..] + b;
      assert RowScopes(a + b)[1..] == RowScopes(a[1..] + b) && RowScopes(a)[1..] == RowScopes(a[1..]);
      CoveringsPlus(a[1..], b, e);
    }
  }

  lemma PeriodCovers(rows: seq<Row>, start: nat, end: nat, e: Entry)
    requires IsPeriod(rows, start, end) && Coverings(RowScopes(rows), e) == 1
    ensures Coverings(RowScopes(rows[start..end]), e) == if e.day == rows[start].day then 1 else 0
  {
    hide RowScopes, Coverings;
    var day := rows[start].day;
    var before, here, after := rows[..start], rows[start..end], rows[end..];
    assert rows == before + here + after;
    CoveringsPlus(before + here, after, e);
    CoveringsPlus(before, here, e);
    OffDayCovers(before, day, e);
    OffDayCovers(after, day, e);
    OnDayCovers(here, day, e);
  }

  /** A group's subtotal is the exact total of that date's Turns, and it always exists. */
  lemma PeriodIsExact(s: Section, entries: seq<Entry>, required: seq<bool>, start: nat, end: nat, m: Measure)
    requires IsSectionOf(s, entries, required) && IsPeriod(s.rows, start, end)
    ensures SumRows(s.rows[start..end], m) == Tally(entries, OfDay(s.rows[start].day), m)
    ensures SumRows(s.rows[start..end], m) <= Value(s.total, m)
  {
    hide Balanced, Tally, Value, Ascending, Over, Coverings, RowScopes;
    var part := s.rows[start..end];
    forall i | 0 <= i < |part| ensures IsTotalOf(part[i].total, entries, OfRow(part[i].day, part[i].model), required) {
      assert part[i] == s.rows[start + i];
    }
    SumRowsIs(part, entries, required, m);
    forall e | e in entries ensures Coverings(RowScopes(part), e) == if Covers(OfDay(s.rows[start].day), e) then 1 else 0 {
      CoveredOnce(RowScopes(s.rows), true, e);
      PeriodCovers(s.rows, start, end, e);
    }
    PartsAddUp(RowScopes(part), OfDay(s.rows[start].day), entries, m);
    TallyAtMost(entries, OfDay(s.rows[start].day), m);
  }

  lemma BalancedRange(t: Total, required: seq<bool>, m: Measure)
    requires Balanced(t, required)
    ensures m != Dollars ==> Value(t, m) <= MAX_INT64
    ensures m == Dollars ==> Affordable(Value(t, m), MAX_ROWS)
  {
    hide Worth, IsAmount;
    match m
    case Sum(i) => if i < |t.usage| { assert MetricOk(t.usage[i], required[i], t.turns); }
    case Reported(i) => if i < |t.usage| { assert MetricOk(t.usage[i], required[i], t.turns); }
    case Turns =>
    case Dollars => Cheaper(Value(t, Dollars), t.turns);
    case PricedTurns =>
    case UnpricedTurns(reason) =>
  }

  lemma Cheaper(worth: nat, turns: nat)
    requires Affordable(worth, turns) && turns <= MAX_ROWS
    ensures Affordable(worth, MAX_ROWS)
  {}

  /** Subtotals over a section of the daemon never overflow. */
  lemma PeriodNeverOverflows(s: Section, entries: seq<Entry>, required: seq<bool>, start: nat, end: nat)
    requires IsSectionOf(s, entries, required) && IsPeriod(s.rows, start, end)
    ensures Summable(s.rows[start..end])
  {
    hide Balanced, Tally, Value, Ascending, RowScopes, SumRows, Affordable;
    forall m ensures m != Dollars ==> SumRows(s.rows[start..end], m) <= MAX_INT64 {
      PeriodIsExact(s, entries, required, start, end, m);
      BalancedRange(s.total, required, m);
    }
    PeriodIsExact(s, entries, required, start, end, Dollars);
    BalancedRange(s.total, required, Dollars);
    Lower(SumRows(s.rows[start..end], Dollars), Value(s.total, Dollars));
  }

  lemma Lower(a: nat, b: nat)
    requires a <= b && Affordable(b, MAX_ROWS)
    ensures Affordable(a, MAX_ROWS)
  {}
}
