/** One report from the stored tables to the client's hands (internal/usage/report/report.go: Query;
    read.go: read): calendar, captured pricing, both sections under one budget, and the wire. */
module Reports {
  import opened Wrappers
  import opened Tallies
  import opened Capture
  import opened Ledger
  import Calendar
  import Client
  import Matching = ModelMatch
  import Snapshots

  datatype Choice = All | Only(surface: Surface)

  predicate Chosen(choice: Choice, surface: Surface) { choice.All? || choice.surface == surface }

  // The two native tables, in order of their timestamps.
  datatype Tables = Tables(anthropic: seq<Stored>, openai: seq<Stored>)

  function TableOf(tables: Tables, surface: Surface): seq<Stored> {
    match surface
    case Anthropic => tables.anthropic
    case OpenAI => tables.openai
  }

  predicate Ordered(table: seq<Stored>) { forall i, j :: 0 <= i < j < |table| ==> table[i].at <= table[j].at }

  /** What the driver can hand over. */
  predicate Sound(tables: Tables) {
    && Ordered(tables.anthropic) && (forall row <- tables.anthropic :: Scanned(row, RequiredCounts(Anthropic)))
    && Ordered(tables.openai) && (forall row <- tables.openai :: Scanned(row, RequiredCounts(OpenAI)))
  }

  // A request: what to read, and the model it may be limited to.
  datatype Request = Request(choice: Choice, filter: Option<string>)

  /** The rows of the section query. */
  predicate Wanted(row: Stored, w: Calendar.Window, filter: Option<string>) {
    w.lo * 1000 <= row.at < w.hi * 1000 && (filter.Some? ==> row.model == filter)
  }

  function Select(table: seq<Stored>, w: Calendar.Window, filter: Option<string>): seq<Stored> {
    if table == [] then []
    else Select(table[..|table| - 1], w, filter) + if Wanted(table[|table| - 1], w, filter) then [table[|table| - 1]] else []
  }

  lemma {:induction false} SelectMembers(table: seq<Stored>, w: Calendar.Window, filter: Option<string>)
    ensures forall row :: row in Select(table, w, filter) <==> row in table && Wanted(row, w, filter)
  {
    hide Wanted;
    if table != [] {
      var init, last := table[..|table| - 1], table[|table| - 1];
      assert table == init + [last];
      SelectMembers(init, w, filter);
    }
  }

  lemma {:induction false} SelectOrdered(table: seq<Stored>, w: Calendar.Window, filter: Option<string>)
    requires Ordered(table)
    ensures Ordered(Select(table, w, filter))
  {
    hide Wanted;
    if table != [] {
      var init, last := table[..|table| - 1], table[|table| - 1];
      SelectOrdered(init, w, filter);
      SelectMembers(init, w, filter);
      var before := Select(init, w, filter);
      forall i | 0 <= i < |before| ensures before[i].at <= last.at {
        assert before[i] in init;
      }
    }
  }

  lemma {:induction false} SelectCounts(table: seq<Stored>, w: Calendar.Window, filter: Option<string>, row: Stored)
    ensures multiset(Select(table, w, filter))[row] == if Wanted(row, w, filter) then multiset(table)[row] else 0
  {
    hide Wanted;
    if table != [] {
      var init, last := table[..|table| - 1], table[|table| - 1];
      assert table == init + [last];
      SelectCounts(init, w, filter, row);
    }
  }

  /** The query selects exactly the rows of the window and, with a filter, of its model, each as often as
      it is stored, in order. */
  lemma SelectIs(table: seq<Stored>, w: Calendar.Window, filter: Option<string>, required: seq<bool>)
    requires Ordered(table) && forall row <- table :: Scanned(row, required)
    ensures var rows := Select(table, w, filter);
      && Selected(rows, w, required)
      && forall row :: multiset(rows)[row] == if InWindow(row, w) && (filter.None? || row.model == filter) then multiset(table)[row] else 0
  {
    hide Scanned, Wanted, InWindow, Select;
    SelectMembers(table, w, filter);
    SelectOrdered(table, w, filter);
    var rows := Select(table, w, filter);
    forall row ensures multiset(rows)[row] == if InWindow(row, w) && (filter.None? || row.model == filter) then multiset(table)[row] else 0 {
      SelectCounts(table, w, filter, row);
      WantedIs(row, w, filter);
    }
    forall i | 0 <= i < |rows| ensures Scanned(rows[i], required) && w.lo * 1000 <= rows[i].at < w.hi * 1000 {
      assert rows[i] in rows;
      WantedIs(rows[i], w, filter);
    }
  }

  predicate InWindow(row: Stored, w: Calendar.Window) { w.lo * 1000 <= row.at < w.hi * 1000 }

  lemma WantedIs(row: Stored, w: Calendar.Window, filter: Option<string>)
    ensures Wanted(row, w, filter) <==> InWindow(row, w) && (filter.None? || row.model == filter)
    ensures InWindow(row, w) ==> w.lo * 1000 <= row.at < w.hi * 1000
  {}

  datatype Report = Report(window: Calendar.Window, anthropic: Option<Section>, openai: Option<Section>)

  function SectionOf(r: Report, surface: Surface): Option<Section> {
    match surface
    case Anthropic => r.anthropic
    case OpenAI => r.openai
  }

  ghost function Turns(tables: Tables, surface: Surface, w: Calendar.Window, filter: Option<string>, s: Snapshots.Snapshot): seq<Entry> {
    EntriesOf(Select(TableOf(tables, surface), w, filter), w, Basis(surface, s))
  }

  /** The section is there exactly when chosen, and then the exact ledger of the wanted Turns, each
      model resolved by the captured snapshot. */
  ghost predicate Answers(section: Option<Section>, surface: Surface, w: Calendar.Window, tables: Tables, q: Request, s: Snapshots.Snapshot) {
    && (section.Some? <==> Chosen(q.choice, surface))
    && (section.Some? ==>
          && IsSectionOf(section.value, Turns(tables, surface, w, q.filter, s), RequiredCounts(surface))
          && Resolved(section.value, s))
  }

  /** The client accepts the section on the wire, and can only decode it to what was built. */
  ghost predicate Arrives(section: Option<Section>, surface: Surface, w: Calendar.Window, filter: Option<string>) {
    section.Some? ==>
      var x := Client.Expected(RequiredCounts(surface), Client.Dates(w), filter, true);
      var o := Client.EncodeSection(section.value, true);
      Client.SectionAccepted(o, x) && forall seen :: Client.Says(seen, o, x) <==> seen == Client.ShownSection(section.value, true)
  }

  // ------------------------------------------------------------------------ budgets

  predicate Within(spent: Spent, limits: Limits) {
    spent.retained <= limits.maxDistinctModelBytes && spent.examined <= limits.maxRows && spent.groups <= limits.maxGroups
  }

  lemma {:induction false} AffordedWithin(rows: seq<Stored>, entries: seq<Entry>, n: nat, limits: Limits, start: Spent)
    requires |rows| == |entries| && n <= |rows| && Affords(rows, entries, n, limits, start) && Within(start, limits)
    ensures Within(After(start, entries[..n]), limits)
  {
    if n == 0 {
      AfterNothing(start);
    } else {
      AffordsLess(rows, entries, n, limits, start);
      AffordedWithin(rows, entries, n - 1, limits, start);
      hide Affords, After, RowKeysOf, RowKey;
      assert entries[..n] == entries[..n - 1] + [entries[n - 1]];
      AfterSnoc(start, entries[..n - 1], entries[n - 1]);
    }
  }

  lemma AffordsLess(rows: seq<Stored>, entries: seq<Entry>, n: nat, limits: Limits, start: Spent)
    requires 0 < n <= |rows| == |entries| && Affords(rows, entries, n, limits, start)
    ensures Affords(rows, entries, n - 1, limits, start)
    ensures !Exhausts(Rows, rows, entries, n - 1, limits, start) && !Exhausts(ModelBytes, rows, entries, n - 1, limits, start)
      && !Exhausts(Groups, rows, entries, n - 1, limits, start)
  {
    hide Exhausts;
  }

  lemma SectionWithin(rows: seq<Stored>, w: Calendar.Window, basis: Basis, limits: Limits, start: Spent)
    requires Affords(rows, EntriesOf(rows, w, basis), |rows|, limits, start) && Within(start, limits)
    ensures Within(After(start, EntriesOf(rows, w, basis)), limits)
  {
    hide Affords, After, EntryOf;
    var entries := EntriesOf(rows, w, basis);
    assert entries[..|rows|] == entries;
    AffordedWithin(rows, entries, |rows|, limits, start);
  }

  // -------------------------------------------------------------------------- reading

  /** What the request has spent once its pricing is captured. */
  ghost function Captured(s: Snapshots.Snapshot): Spent {
    Spent({}, Snapshots.IdentityBytes(s.identities) + Matching.KeyBytes(Matching.Required(Matching.Recognized(s.identities))), 0, 0)
  }

  /** A Surface can be served: it was not chosen, or its wanted rows are usable, exhaust no budget and
      sum within int64. */
  ghost predicate Serves(surface: Surface, tables: Tables, w: Calendar.Window, q: Request, s: Snapshots.Snapshot, limits: Limits, start: Spent) {
    Chosen(q.choice, surface) ==>
      Servable(Select(TableOf(tables, surface), w, q.filter), w, Basis(surface, s), limits, start)
  }

  ghost function SpentAfter(surface: Surface, tables: Tables, w: Calendar.Window, q: Request, s: Snapshots.Snapshot, start: Spent): Spent {
    if Chosen(q.choice, surface) then After(start, Turns(tables, surface, w, q.filter, s)) else start
  }

  /** One native table, when it was chosen. */
  method ReadChosen(surface: Surface, tables: Tables, w: Calendar.Window, q: Request, budget: ReadBudget, pricing: CapturedPricing)
    returns (r: Outcome<Option<Section>>)
    requires Sound(tables) && Calendar.Partition(w) && pricing.Valid() && budget.limits.maxRows <= MAX_ROWS
    requires Within(SpentOf(budget), budget.limits)
    modifies budget`identities, budget`retainedBytes, budget`examined, budget`groups, pricing`memo
    ensures pricing.Valid()
    ensures r.Ok? ==>
      && Answers(r.value, surface, w, tables, q, pricing.snapshot) && Arrives(r.value, surface, w, q.filter)
      && SpentOf(budget) == SpentAfter(surface, tables, w, q, pricing.snapshot, old(SpentOf(budget)))
      && Within(SpentOf(budget), budget.limits)
    ensures r.Ok? <==> Serves(surface, tables, w, q, pricing.snapshot, budget.limits, old(SpentOf(budget)))
    ensures r.Fail? ==> IsCause(r.failure, surface, tables, w, q, pricing.snapshot, budget.limits, old(SpentOf(budget)))
  {
    hide *;
    ghost var start := SpentOf(budget);
    ServesIs(surface, tables, w, q, pricing.snapshot, budget.limits, start);
    if !Chosen(q.choice, surface) {
      r := Ok(None);
      NotChosen(surface, w, tables, q, pricing.snapshot);
      return;
    }
    ghost var basis := pricing.For(surface);
    BasisIs(pricing, surface);
    var rows := Select(TableOf(tables, surface), w, q.filter);
    RowsSelected(tables, surface, w, q.filter);
    var section := ReadSection(rows, w, surface, budget, pricing);
    if section.Fail? {
      CauseIs(section.failure, surface, tables, w, q, pricing.snapshot, budget.limits, start);
      return Fail(section.failure);
    }
    SectionWithin(rows, w, basis, budget.limits, start);
    SectionArrives(section.value, tables, surface, w, q, pricing);
    return Ok(Some(section.value));
  }

  /** Why a chosen Surface is refused: a row that is no usable Turn, a sum beyond int64, or a row that
      exhausts a budget. */
  ghost predicate IsCause(failure: Failure, surface: Surface, tables: Tables, w: Calendar.Window, q: Request, s: Snapshots.Snapshot,
                          limits: Limits, start: Spent)
  {
    var rows := Select(TableOf(tables, surface), w, q.filter);
    var entries := EntriesOf(rows, w, Basis(surface, s));
    && Chosen(q.choice, surface)
    && match failure
       case Corrupt => SomeUnusable(rows, RequiredCounts(surface))
       case Overflow => LeavesInt64(entries)
       case TooLarge => exists b, n: nat :: n <= |rows| && StopsAt(b, rows, entries, n, limits, start)
  }

  lemma CauseIs(failure: Failure, surface: Surface, tables: Tables, w: Calendar.Window, q: Request, s: Snapshots.Snapshot, limits: Limits, start: Spent)
    requires Chosen(q.choice, surface)
    requires var rows := Select(TableOf(tables, surface), w, q.filter); var entries := EntriesOf(rows, w, Basis(surface, s));
      && (failure == Corrupt ==> SomeUnusable(rows, RequiredCounts(surface)))
      && (failure == Overflow ==> LeavesInt64(entries))
      && (failure == TooLarge ==> exists b, n: nat :: n <= |rows| && StopsAt(b, rows, entries, n, limits, start))
    ensures IsCause(failure, surface, tables, w, q, s, limits, start)
  {
    hide SomeUnusable, LeavesInt64, StopsAt, EntriesOf, Select;
  }

  lemma ServesIs(surface: Surface, tables: Tables, w: Calendar.Window, q: Request, s: Snapshots.Snapshot, limits: Limits, start: Spent)
    ensures Serves(surface, tables, w, q, s, limits, start) <==> Chosen(q.choice, surface) ==>
      Servable(Select(TableOf(tables, surface), w, q.filter), w, Basis(surface, s), limits, start)
    ensures SpentAfter(surface, tables, w, q, s, start) ==
      if Chosen(q.choice, surface) then After(start, EntriesOf(Select(TableOf(tables, surface), w, q.filter), w, Basis(surface, s))) else start
  {
    hide Servable, After, EntriesOf, Select;
  }

  lemma ChosenOnly(section: Option<Section>, surface: Surface, w: Calendar.Window, tables: Tables, q: Request, s: Snapshots.Snapshot)
    requires Answers(section, surface, w, tables, q, s)
    ensures section.Some? <==> q.choice == All || q.choice == Only(surface)
  {
    hide IsSectionOf, Resolved;
  }

  lemma NotChosen(surface: Surface, w: Calendar.Window, tables: Tables, q: Request, s: Snapshots.Snapshot)
    requires !Chosen(q.choice, surface)
    ensures Answers(None, surface, w, tables, q, s) && Arrives(None, surface, w, q.filter)
  {
    hide IsSectionOf, Resolved, Client.SectionAccepted, Client.Says, Client.EncodeSection, Client.ShownSection;
  }

  lemma RowsSelected(tables: Tables, surface: Surface, w: Calendar.Window, filter: Option<string>)
    requires Sound(tables)
    ensures Selected(Select(TableOf(tables, surface), w, filter), w, RequiredCounts(surface))
    ensures filter.Some? ==> forall row <- Select(TableOf(tables, surface), w, filter) :: row.model == filter
  {
    hide Scanned, Select, Selected, Ordered;
    SelectIs(TableOf(tables, surface), w, filter, RequiredCounts(surface));
  }

  lemma SectionArrives(section: Section, tables: Tables, surface: Surface, w: Calendar.Window, q: Request, pricing: CapturedPricing)
    requires Sound(tables) && Calendar.Partition(w) && pricing.Valid() && Chosen(q.choice, surface)
    requires var rows := Select(TableOf(tables, surface), w, q.filter);
      IsSectionOf(section, EntriesOf(rows, w, pricing.For(surface)), RequiredCounts(surface)) && Resolved(section, pricing.snapshot)
    ensures Answers(Some(section), surface, w, tables, q, pricing.snapshot) && Arrives(Some(section), surface, w, q.filter)
  {
    hide Sound, Calendar.Partition, IsSectionOf, Resolved, EntriesOf, Select, Client.SectionAccepted, Client.Says, Client.EncodeSection,
      Client.ShownSection, Client.Dates, Snapshots.WellFormed, Matching.Indexes, PricingOf;
    var rows := Select(TableOf(tables, surface), w, q.filter);
    RowsSelected(tables, surface, w, q.filter);
    Client.ReportPasses(section, rows, w, pricing.For(surface), q.filter, true);
    var x := Client.Expected(RequiredCounts(surface), Client.Dates(w), q.filter, true);
    var o, shown := Client.EncodeSection(section, true), Client.ShownSection(section, true);
    forall seen ensures Client.Says(seen, o, x) <==> seen == shown {
      if Client.Says(seen, o, x) { Client.SaysOne(seen, shown, o, x); }
    }
  }

  // ------------------------------------------------------------------------ the query

  // What is asked of the calendar.
  datatype Dates = Dates(zone: Calendar.Zone, grid: Calendar.Grid, since: int, until: int, now: int, deadline: Option<nat>)

  ghost predicate Dateable(d: Dates) {
    Calendar.Sound(d.zone) && Calendar.GridLaws(d.grid) && Calendar.IsDate(d.since) && Calendar.IsDate(d.until)
  }

  /** A window of the asked dates: partitioned by buckets that a client accepts. */
  ghost predicate IsWindow(w: Calendar.Window, d: Dates) {
    && Calendar.Partition(w) && Client.BucketsAccepted(w)
    && Calendar.IsStart(d.zone, d.since, Some(w.lo)) && Calendar.IsStart(d.zone, d.until, Some(w.hi))
    && Calendar.AllDescribe(d.zone, d.grid, w.buckets, w.lo, w.hi, d.now)
  }

  /** Dates that always have a window. */
  ghost predicate Plain(d: Dates) { Calendar.Plain(d.zone, d.since, d.until, d.deadline) }

  predicate ValidFilter(filter: Option<string>, limits: Limits) { filter.Some? ==> 0 < |filter.value| <= limits.maxModelBytes }

  // An answered report, or why there is none; a Surface is refused over the window that was built.
  datatype Reply =
    | Answered(report: Report)
    | BadFilter
    | NoWindow(failure: Calendar.Failure)
    | NoRoom
    | Refused(window: Calendar.Window, surface: Surface, cause: Failure)

  /** A report over a window that is what was asked for, and reaches the client as it is. */
  ghost predicate IsReport(report: Report, tables: Tables, q: Request, s: Snapshots.Snapshot) {
    forall surface ::
      && Answers(SectionOf(report, surface), surface, report.window, tables, q, s)
      && Arrives(SectionOf(report, surface), surface, report.window, q.filter)
  }

  /** Both Surfaces can be served over a window, one after the other, from what pricing left. */
  ghost predicate ServesBoth(w: Calendar.Window, tables: Tables, q: Request, s: Snapshots.Snapshot, limits: Limits) {
    && Serves(Anthropic, tables, w, q, s, limits, Captured(s))
    && Serves(OpenAI, tables, w, q, s, limits, SpentAfter(Anthropic, tables, w, q, s, Captured(s)))
  }

  /** Why a Surface was refused, after what was read before it. */
  ghost predicate IsRefusal(r: Reply, tables: Tables, q: Request, s: Snapshots.Snapshot, limits: Limits)
    requires r.Refused?
  {
    var start := if r.surface.Anthropic? then Captured(s) else SpentAfter(Anthropic, tables, r.window, q, s, Captured(s));
    IsCause(r.cause, r.surface, tables, r.window, q, s, limits, start) && !ServesBoth(r.window, tables, q, s, limits)
  }

  /** Query and read.  An answered report holds the exact ledgers of exactly the wanted Turns, stays
      within every budget the sections share with the captured pricing, and reaches the client as it
      is.  A query is refused only for a bad filter, for dates without a window, for pricing that the
      budget does not cover, or for rows that cannot be served; so it is answered whenever none of
      these holds. */
  method Query(tables: Tables, snapshot: Snapshots.Snapshot, d: Dates, q: Request, limits: Limits) returns (r: Reply, budget: ReadBudget)
    requires Sound(tables) && Snapshots.WellFormed(snapshot) && limits.maxRows <= MAX_ROWS && Dateable(d)
    ensures budget.limits == limits
    ensures r.Answered? ==>
      && IsWindow(r.report.window, d) && IsReport(r.report, tables, q, snapshot)
      && (r.report.anthropic.Some? <==> q.choice != Only(OpenAI)) && (r.report.openai.Some? <==> q.choice != Only(Anthropic))
      && ServesBoth(r.report.window, tables, q, snapshot, limits) && Within(SpentOf(budget), limits)
    ensures r.BadFilter? <==> !ValidFilter(q.filter, limits)
    ensures r.NoWindow? ==> Calendar.Refused(d.zone, d.since, d.until, d.deadline, r.failure)
    ensures r.NoRoom? ==> Captured(snapshot).retained > limits.maxDistinctModelBytes
    ensures r.Refused? ==> IsWindow(r.window, d) && IsRefusal(r, tables, q, snapshot, limits)
    ensures (ValidFilter(q.filter, limits) && Plain(d) && Captured(snapshot).retained <= limits.maxDistinctModelBytes
             && forall w :: IsWindow(w, d) ==> ServesBoth(w, tables, q, snapshot, limits))
      ==> r.Answered?
  {
    hide *;
    budget := new ReadBudget(limits);
    NothingSpent(budget);
    FilterIs(q.filter, limits);
    if q.filter.Some? && (q.filter.value == "" || |q.filter.value| > limits.maxModelBytes) {
      return BadFilter, budget;
    }
    DatesAre(d);
    var window := Calendar.BuildCalendar(d.zone, d.grid, d.since, d.until, d.now, d.deadline);
    if window.Fail? {
      return NoWindow(window.failure), budget;
    }
    var w := window.value;
    ghost var last :| Calendar.Dated(w.buckets, last);
    Client.WindowPasses(w, last);
    WindowIs(w, d);
    RoomIs(budget);
    var pricing := CapturePricing(snapshot, budget);
    CapturedIs(snapshot);
    if pricing.None? {
      return NoRoom, budget;
    }
    StillWithin(budget);
    ghost var start := SpentOf(budget);
    SpentIs(budget);
    BothAre(w, tables, q, snapshot, limits);
    var anthropic := ReadChosen(Anthropic, tables, w, q, budget, pricing.value);
    if anthropic.Fail? {
      r := Refused(w, Anthropic, anthropic.failure);
      RefusalIs(r, tables, q, snapshot, limits);
      return;
    }
    var openai := ReadChosen(OpenAI, tables, w, q, budget, pricing.value);
    if openai.Fail? {
      r := Refused(w, OpenAI, openai.failure);
      RefusalIs(r, tables, q, snapshot, limits);
      return;
    }
    r := Answered(Report(w, anthropic.value, openai.value));
    BothSections(r.report, tables, q, snapshot);
  }

  lemma NothingSpent(budget: ReadBudget)
    ensures budget.examined == 0 && budget.groups == 0 && budget.retainedBytes == 0 ==> Within(SpentOf(budget), budget.limits)
  {}

  lemma FilterIs(filter: Option<string>, limits: Limits)
    ensures ValidFilter(filter, limits) <==> !(filter.Some? && (filter.value == "" || |filter.value| > limits.maxModelBytes))
  {}

  lemma DatesAre(d: Dates)
    ensures Dateable(d) ==> Calendar.Sound(d.zone) && Calendar.GridLaws(d.grid) && Calendar.IsDate(d.since) && Calendar.IsDate(d.until)
    ensures Plain(d) <==> Calendar.Plain(d.zone, d.since, d.until, d.deadline)
  {
    hide Calendar.Sound, Calendar.GridLaws, Calendar.IsDate, Calendar.Plain;
  }

  lemma WindowIs(w: Calendar.Window, d: Dates)
    requires Calendar.Partition(w) && Client.BucketsAccepted(w)
    requires Calendar.IsStart(d.zone, d.since, Some(w.lo)) && Calendar.IsStart(d.zone, d.until, Some(w.hi))
    requires Calendar.AllDescribe(d.zone, d.grid, w.buckets, w.lo, w.hi, d.now)
    ensures IsWindow(w, d)
  {
    hide Calendar.Partition, Client.BucketsAccepted, Calendar.IsStart, Calendar.AllDescribe;
  }

  lemma RoomIs(budget: ReadBudget)
    ensures budget.retainedBytes == 0 ==> budget.RemainingBytes() == budget.limits.maxDistinctModelBytes
  {}

  lemma CapturedIs(s: Snapshots.Snapshot)
    ensures Captured(s) ==
      Spent({}, Snapshots.IdentityBytes(s.identities) + Matching.KeyBytes(Matching.Required(Matching.Recognized(s.identities))), 0, 0)
  {
    hide Snapshots.IdentityBytes, Matching.KeyBytes, Matching.Required, Matching.Recognized;
  }

  lemma StillWithin(budget: ReadBudget)
    requires budget.retainedBytes <= budget.limits.maxDistinctModelBytes
    requires budget.examined == 0 && budget.groups == 0
    ensures Within(SpentOf(budget), budget.limits)
  {}

  lemma BothAre(w: Calendar.Window, tables: Tables, q: Request, s: Snapshots.Snapshot, limits: Limits)
    ensures ServesBoth(w, tables, q, s, limits) <==>
      && Serves(Anthropic, tables, w, q, s, limits, Captured(s))
      && Serves(OpenAI, tables, w, q, s, limits, SpentAfter(Anthropic, tables, w, q, s, Captured(s)))
  {
    hide Serves, SpentAfter, Captured;
  }

  lemma RefusalIs(r: Reply, tables: Tables, q: Request, s: Snapshots.Snapshot, limits: Limits)
    requires r.Refused? && !ServesBoth(r.window, tables, q, s, limits)
    requires var start := if r.surface.Anthropic? then Captured(s) else SpentAfter(Anthropic, tables, r.window, q, s, Captured(s));
      IsCause(r.cause, r.surface, tables, r.window, q, s, limits, start)
    ensures IsRefusal(r, tables, q, s, limits)
  {
    hide ServesBoth, IsCause, SpentAfter, Captured;
  }

  lemma BothSections(r: Report, tables: Tables, q: Request, s: Snapshots.Snapshot)
    requires Answers(r.anthropic, Anthropic, r.window, tables, q, s) && Arrives(r.anthropic, Anthropic, r.window, q.filter)
    requires Answers(r.openai, OpenAI, r.window, tables, q, s) && Arrives(r.openai, OpenAI, r.window, q.filter)
    ensures IsReport(r, tables, q, s)
    ensures (r.anthropic.Some? <==> q.choice != Only(OpenAI)) && (r.openai.Some? <==> q.choice != Only(Anthropic))
  {
    ChosenOnly(r.anthropic, Anthropic, r.window, tables, q, s);
    ChosenOnly(r.openai, OpenAI, r.window, tables, q, s);
    hide Answers, Arrives;
    forall surface
      ensures Answers(SectionOf(r, surface), surface, r.window, tables, q, s) && Arrives(SectionOf(r, surface), surface, r.window, q.filter)
    {
      match surface case Anthropic => case OpenAI =>
    }
  }
}
