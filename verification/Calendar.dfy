/** Calendar dates to UTC instants (internal/usage/report/calendar.go).  Instants are seconds
    since the Unix epoch; a nominal date is the multiple of DAY its UTC midnight has. */
module Calendar {
  import opened Wrappers

  const DAY := 86_400
  const MAX_INT32 := 0x7fff_ffff
  const MIN_INT32: int := -0x8000_0000
  const MAX_DATES := 3_660
  const MAX_BUCKETS := 4_096
  const MAX_STEPS := 4_000_000
  const MAX_INTERVALS := 16_384
  const YEAR_10000 := 253_402_300_800
  const LAST_DATE := 253_370_764_800

  datatype Failure = Canceled | TooLarge | Invalid

  datatype Outcome<+T> = Ok(value: T) | Fail(failure: Failure)

  // ----------------------------------------------------------------------- zones

  // The offset in force at an instant, and the bounds the zone reports around it.
  datatype Zone = Zone(offset: int -> int, boundStart: int -> Option<int>, boundEnd: int -> Option<int>)

  ghost predicate Constant(z: Zone, from: int, to: int) {
    forall t :: from <= t < to ==> z.offset(t) == z.offset(from)
  }

  ghost predicate ConstantFrom(z: Zone, from: int) { forall t :: from <= t ==> z.offset(t) == z.offset(from) }

  /** What is assumed of a zone: 32-bit offsets, a missing end promises the offset for ever,
      and an end after the instant promises it up to that end.  An end that is not after the
      instant promises nothing. */
  ghost predicate Sound(z: Zone) {
    && (forall t :: MIN_INT32 <= z.offset(t) <= MAX_INT32)
    && (forall t :: z.boundEnd(t).None? ==> ConstantFrom(z, t))
    && (forall t :: z.boundEnd(t).Some? && z.boundEnd(t).value > t ==> Constant(z, t, z.boundEnd(t).value))
  }

  /** Instant t shows the date. */
  ghost predicate On(z: Zone, date: int, t: int) { date <= t + z.offset(t) < date + DAY }

  /** The start of a date: its least instant, or nothing when no instant shows it. */
  ghost predicate IsStart(z: Zone, date: int, start: Option<int>) {
    && (start.Some? ==> On(z, date, start.value) && forall t :: t < start.value ==> !On(z, date, t))
    && (start.None? ==> forall t :: !On(z, date, t))
  }

  /** A date has one start, so memory of earlier searches cannot change an answer. */
  lemma StartUnique(z: Zone, date: int, a: Option<int>, b: Option<int>)
    requires IsStart(z, date, a) && IsStart(z, date, b)
    ensures a == b
  {
    if a.Some? && b.Some? {
      assert !(a.value < b.value) && !(b.value < a.value);
    }
  }

  function Later(date: int, days: nat): int { date + days * DAY }

  ghost predicate NoneUpTo(z: Zone, date: int, days: nat) {
    forall j: nat :: j < days ==> IsStart(z, Later(date, j), None)
  }

  ghost predicate EdgeAfter(z: Zone, date: int, days: nat, t: int) {
    IsStart(z, Later(date, days), Some(t)) && NoneUpTo(z, date, days)
  }

  /** The start of the first existing date at or after the given one. */
  ghost predicate IsEdge(z: Zone, date: int, t: int) { exists days: nat :: days <= MAX_DATES && EdgeAfter(z, date, days, t) }

  lemma NoneUpToZero(z: Zone, date: int)
    ensures NoneUpTo(z, date, 0) && Later(date, 0) == date
  {}

  lemma NoneUpToNext(z: Zone, date: int, days: nat)
    requires NoneUpTo(z, date, days) && IsStart(z, Later(date, days), None)
    ensures NoneUpTo(z, date, days + 1) && Later(date, days + 1) == Later(date, days) + DAY
  {
    hide IsStart;
  }

  lemma EdgeFound(z: Zone, date: int, days: nat, t: int)
    requires days <= MAX_DATES && NoneUpTo(z, date, days) && IsStart(z, Later(date, days), Some(t))
    ensures IsEdge(z, date, t)
  {
    hide IsStart, NoneUpTo;
    assert EdgeAfter(z, date, days, t);
  }

  lemma EdgeUnique(z: Zone, date: int, s: int, t: int)
    requires IsEdge(z, date, s) && IsEdge(z, date, t)
    ensures s == t
  {
    var i: nat :| i <= MAX_DATES && EdgeAfter(z, date, i, s);
    var j: nat :| j <= MAX_DATES && EdgeAfter(z, date, j, t);
    hide IsStart;
    if i < j {
      StartUnique(z, Later(date, i), Some(s), None);
    } else if j < i {
      StartUnique(z, Later(date, j), Some(t), None);
    } else {
      StartUnique(z, Later(date, i), Some(s), Some(t));
    }
  }

  lemma EdgeOfStart(z: Zone, date: int, t: int)
    requires IsStart(z, date, Some(t))
    ensures IsEdge(z, date, t)
  {
    hide IsStart;
    assert Later(date, 0) == date;
    assert EdgeAfter(z, date, 0, t);
  }

  // -------------------------------------------------------------------- kinds of zones

  /** The zone never reports a bound start after the instant. */
  ghost predicate Honest(z: Zone) { forall t :: z.boundStart(t).Some? ==> z.boundStart(t).value <= t }

  /** Later dates have no earlier edges. */
  ghost predicate Tidy(z: Zone) { forall d, e, a, b :: d <= e && IsEdge(z, d, a) && IsEdge(z, e, b) ==> a <= b }

  ghost predicate Band(z: Zone, low: int) {
    forall t :: low <= z.offset(t) < low + DAY && -DAY <= z.offset(t) <= DAY
  }

  /** All offsets are at most a day, and less than a day apart. */
  ghost predicate Regular(z: Zone) { exists low :: Band(z, low) }

  /** The first instant that shows the date or a later one. */
  ghost predicate Reaches(z: Zone, date: int, t: int) {
    date <= t + z.offset(t) && forall s :: s < t ==> s + z.offset(s) < date
  }

  lemma FirstReach(z: Zone, low: int, date: int) returns (t: int)
    requires Band(z, low)
    ensures Reaches(z, date, t)
  {
    t := date - low - DAY;
    forall s | s < t ensures s + z.offset(s) < date { assert z.offset(s) < low + DAY; }
    while t + z.offset(t) < date
      invariant forall s :: s < t ==> s + z.offset(s) < date
      invariant t <= date - low
      decreases date - low - t
    {
      assert low <= z.offset(t);
      t := t + 1;
    }
  }

  /** Offsets less than a day apart cannot skip a whole date. */
  lemma ReachIsStart(z: Zone, low: int, date: int, t: int)
    requires Band(z, low) && Reaches(z, date, t)
    ensures IsStart(z, date, Some(t)) && date - DAY <= t <= date + DAY
  {
    assert (t - 1) + z.offset(t - 1) < date;
    assert low <= z.offset(t - 1) && z.offset(t) < low + DAY;
    forall s | s < t ensures !On(z, date, s) { assert s + z.offset(s) < date; }
    assert date <= (date + DAY) + z.offset(date + DAY);
  }

  /** In a regular zone every date has a start, within a day of its nominal midnight. */
  lemma RegularStart(z: Zone, date: int) returns (t: int)
    requires Regular(z)
    ensures IsStart(z, date, Some(t)) && Reaches(z, date, t) && date - DAY <= t <= date + DAY
  {
    var low :| Band(z, low);
    t := FirstReach(z, low, date);
    ReachIsStart(z, low, date, t);
  }

  lemma RegularHasStart(z: Zone, date: int, start: Option<int>)
    requires Regular(z) && IsStart(z, date, start)
    ensures start.Some? && Reaches(z, date, start.value) && date - DAY <= start.value <= date + DAY
  {
    hide IsStart, Regular, Reaches;
    var t := RegularStart(z, date);
    StartUnique(z, date, start, Some(t));
  }

  lemma RegularEdge(z: Zone, date: int, t: int)
    requires Regular(z) && IsEdge(z, date, t)
    ensures IsStart(z, date, Some(t)) && Reaches(z, date, t) && date - DAY <= t <= date + DAY
  {
    hide IsStart, IsEdge, Regular, Reaches;
    var s := RegularStart(z, date);
    EdgeOfStart(z, date, s);
    EdgeUnique(z, date, s, t);
  }

  /** In a regular zone later dates start later. */
  lemma ReachesAscend(z: Zone, d: int, e: int, s: int, t: int)
    requires d <= e && Reaches(z, d, s) && Reaches(z, e, t)
    ensures s <= t
  {
    assert e <= t + z.offset(t);
  }

  lemma RegularIsTidy(z: Zone)
    requires Regular(z)
    ensures Tidy(z)
  {
    hide IsEdge, Regular, Reaches, IsStart;
    forall d, e, a, b | d <= e && IsEdge(z, d, a) && IsEdge(z, e, b) ensures a <= b {
      RegularEdge(z, d, a);
      RegularEdge(z, e, b);
      ReachesAscend(z, d, e, a, b);
    }
  }

  /** Two dates have no instant in common. */
  lemma StartsDiffer(z: Zone, d: int, e: int, s: int, t: int)
    requires d + DAY <= e && IsStart(z, d, Some(s)) && IsStart(z, e, Some(t))
    ensures s != t
  {}

  /** One offset of at most a day, and no bounds. */
  ghost predicate Fixed(z: Zone, offset: int) {
    && -DAY <= offset <= DAY
    && forall t :: z.offset(t) == offset && z.boundStart(t).None? && z.boundEnd(t).None?
  }

  /** What a resolver may come across between two instants: bound ends that are later than the instant
      and changes of the offset are among the cuts, instants with a bound end that is not later are
      among the stale ones, and the last instant is not one of them. */
  ghost predicate Sparse(z: Zone, from: int, to: int, cuts: set<int>, stale: set<int>) {
    && (forall t :: from <= t < to && z.boundEnd(t).Some? && z.boundEnd(t).value > t ==>
          z.boundEnd(t).value >= to || z.boundEnd(t).value in cuts)
    && (forall t :: from <= t < to && z.boundEnd(t).Some? && z.boundEnd(t).value <= t ==> t in stale)
    && (forall t :: from < t < to && z.offset(t) != z.offset(t - 1) ==> t in cuts)
    && (z.boundEnd(to).Some? ==> z.boundEnd(to).value > to)
  }

  /** Where the resolver's search for the dates of a window begins and ends. */
  function SearchFrom(since: int): int { since - 366 * DAY - MAX_INT32 }

  function SearchTo(until: int): int { until + 369 * DAY }

  /** The steps of one search among that many cuts. */
  function SearchCost(cuts: set<int>): nat { 2 * (|cuts| + 1) }

  ghost predicate Within(z: Zone, since: int, until: int, to: int, cuts: set<int>, stale: set<int>) {
    && SearchTo(until) <= to <= SearchTo(until) + 366 * DAY
    && Sparse(z, SearchFrom(since), to, cuts, stale)
    && |stale| + (MAX_DATES + 3) * SearchCost(cuts) <= MAX_STEPS
  }

  /** The bounds the zone reports around the window leave the resolver within its budget. */
  ghost predicate Affordable(z: Zone, since: int, until: int) {
    exists to, cuts, stale :: Within(z, since, until, to, cuts, stale)
  }

  /** A fixed offset is the simplest case: honest, regular, and affordable for every window. */
  lemma FixedIsRegular(z: Zone, offset: int, since: int, until: int)
    requires Fixed(z, offset)
    ensures Sound(z) && Honest(z) && Regular(z) && Affordable(z, since, until)
  {
    assert Band(z, offset);
    forall t ensures z.offset(t) == offset {}
    assert Within(z, since, until, SearchTo(until), {}, {});
  }

  // -------------------------------------------------------------------- resolver

  datatype Interval = Interval(start: int, end: int, offset: int)

  /** Contiguous intervals of one offset each, from the first cursor to the current one. */
  ghost predicate Covers(z: Zone, intervals: seq<Interval>, first: int, cursor: int) {
    && (forall i :: 0 <= i < |intervals| ==> Uniform(z, intervals[i]))
    && (forall i :: 0 <= i < |intervals| ==> intervals[i].start == EndBefore(intervals, i, first))
    && cursor == EndBefore(intervals, |intervals|, first)
  }

  function EndBefore(intervals: seq<Interval>, i: nat, first: int): int
    requires i <= |intervals|
  {
    if i == 0 then first else intervals[i - 1].end
  }

  ghost predicate Uniform(z: Zone, interval: Interval) {
    interval.start < interval.end && forall t :: interval.start <= t < interval.end ==> z.offset(t) == interval.offset
  }

  /** No instant before the given one shows the date. */
  ghost predicate NoneBefore(z: Zone, date: int, until: int) { forall t :: t < until ==> !On(z, date, t) }

  function Max(a: int, b: int): int { if a < b then b else a }

  function Min(a: int, b: int): int { if b < a then b else a }

  /** Clipping the date's preimage under one offset to an interval finds its first instant
      there, or shows there is none. */
  lemma ScanInterval(z: Zone, date: int, interval: Interval)
    requires Uniform(z, interval) && NoneBefore(z, date, interval.start)
    ensures var a := Max(date - interval.offset, interval.start);
      if a < Min(date + DAY - interval.offset, interval.end) then IsStart(z, date, Some(a))
      else NoneBefore(z, date, interval.end)
  {
    var a := Max(date - interval.offset, interval.start);
    if a < Min(date + DAY - interval.offset, interval.end) {
      assert On(z, date, a);
    }
  }

  lemma BeforeFirst(z: Zone, date: int, first: int)
    requires Sound(z) && first <= date - MAX_INT32
    ensures NoneBefore(z, date, first)
  {
    forall t | t < first ensures !On(z, date, t) { assert z.offset(t) <= MAX_INT32; }
  }

  /** Beyond the limit no 32-bit offset can show the date. */
  lemma NoneAnywhere(z: Zone, date: int, until: int)
    requires Sound(z) && NoneBefore(z, date, until) && until >= date + DAY - MIN_INT32
    ensures IsStart(z, date, None)
  {
    forall t ensures !On(z, date, t) { assert MIN_INT32 <= z.offset(t); }
  }

  lemma CoversEnd(z: Zone, intervals: seq<Interval>, first: int, cursor: int)
    requires Covers(z, intervals, first, cursor)
    ensures cursor == EndBefore(intervals, |intervals|, first)
  {}

  lemma CoversAt(z: Zone, intervals: seq<Interval>, first: int, cursor: int, i: nat)
    requires Covers(z, intervals, first, cursor) && i < |intervals|
    ensures Uniform(z, intervals[i]) && intervals[i].start == EndBefore(intervals, i, first)
  {}

  lemma CoversAppend(z: Zone, intervals: seq<Interval>, first: int, cursor: int, next: Interval)
    requires Covers(z, intervals, first, cursor) && Uniform(z, next) && next.start == cursor
    ensures Covers(z, intervals + [next], first, next.end)
    ensures forall i :: 0 <= i <= |intervals| ==> EndBefore(intervals + [next], i, first) == EndBefore(intervals, i, first)
  {
    var longer := intervals + [next];
    forall i | 0 <= i < |longer|
      ensures Uniform(z, longer[i]) && longer[i].start == EndBefore(longer, i, first)
    {
      if i < |intervals| { assert longer[i] == intervals[i] && Uniform(z, intervals[i]); }
    }
  }

  /** A known stretch up to an instant grows to any later instant the zone's bounds allow. */
  lemma GrowUniform(z: Zone, from: int, at: int, stop: int)
    requires Sound(z) && from <= at < stop && z.offset(at) == z.offset(from)
    requires at == from || Uniform(z, Interval(from, at, z.offset(from)))
    requires stop == at + 1 || z.boundEnd(at).None? || stop <= z.boundEnd(at).value
    ensures Uniform(z, Interval(from, stop, z.offset(from)))
  {
    if stop > at + 1 {
      if z.boundEnd(at).None? {
        assert ConstantFrom(z, at);
      } else {
        assert Constant(z, at, z.boundEnd(at).value);
      }
    }
  }

  ghost predicate AllStarts(z: Zone, starts: map<int, Option<int>>) { forall date <- starts :: IsStart(z, date, starts[date]) }

  lemma Remember(z: Zone, starts: map<int, Option<int>>, date: int, start: Option<int>)
    requires AllStarts(z, starts) && IsStart(z, date, start)
    ensures AllStarts(z, starts[date := start])
  {
    hide IsStart;
  }

  lemma SoundOffset(z: Zone, t: int)
    requires Sound(z)
    ensures MIN_INT32 <= z.offset(t) <= MAX_INT32
  {}

  lemma Recall(z: Zone, starts: map<int, Option<int>>, date: int)
    requires AllStarts(z, starts) && date in starts
    ensures IsStart(z, date, starts[date]) && starts[date := starts[date]] == starts
  {
    hide IsStart;
  }

  // ------------------------------------------------------------------------ budgets

  function StaleFrom(stale: set<int>, from: int): set<int> { set t | t in stale && from <= t }

  lemma StaleShrinks(stale: set<int>, from: int, to: int)
    requires from <= to
    ensures |StaleFrom(stale, to)| <= |StaleFrom(stale, from)| <= |stale|
  {
    Fewer(StaleFrom(stale, to), StaleFrom(stale, from));
    Fewer(StaleFrom(stale, from), stale);
  }

  lemma Fewer(a: set<int>, b: set<int>)
    requires a <= b
    ensures |a| <= |b|
  {
    assert b == a + (b - a);
  }

  lemma StalePassed(stale: set<int>, at: int)
    requires at in stale
    ensures |StaleFrom(stale, at + 1)| == |StaleFrom(stale, at)| - 1
  {
    assert StaleFrom(stale, at) == StaleFrom(stale, at + 1) + {at};
  }

  /** Known intervals end at cuts, save a last one that reaches the horizon. */
  ghost predicate Counted(intervals: seq<Interval>, cuts: set<int>, horizon: int, cursor: int) {
    && |intervals| <= |cuts| + (if cursor < horizon then 0 else 1)
    && forall i :: 0 <= i < |intervals| ==> intervals[i].end in cuts || intervals[i].end >= horizon
  }

  lemma {:induction false} EndsAscend(z: Zone, intervals: seq<Interval>, first: int, cursor: int, i: nat, j: nat)
    requires Covers(z, intervals, first, cursor) && i < j < |intervals|
    ensures intervals[i].end < intervals[j].end
    decreases j
  {
    assert Uniform(z, intervals[j]) && intervals[j].start == EndBefore(intervals, j, first) == intervals[j - 1].end;
    if i < j - 1 { EndsAscend(z, intervals, first, cursor, i, j - 1); }
  }

  lemma {:induction false} EndsCount(intervals: seq<Interval>, cuts: set<int>)
    requires forall i :: 0 <= i < |intervals| ==> intervals[i].end in cuts
    requires forall i, j :: 0 <= i < j < |intervals| ==> intervals[i].end < intervals[j].end
    ensures |intervals| <= |cuts|
  {
    if intervals != [] {
      var last := intervals[|intervals| - 1].end;
      assert cuts == cuts - {last} + {last};
      EndsCount(intervals[..|intervals| - 1], cuts - {last});
    }
  }

  lemma CountedMore(z: Zone, intervals: seq<Interval>, first: int, cuts: set<int>, horizon: int, next: Interval)
    requires Covers(z, intervals + [next], first, next.end)
    requires forall i :: 0 <= i < |intervals| ==> intervals[i].end in cuts || intervals[i].end >= horizon
    requires |intervals| <= |cuts| && (next.end in cuts || next.end >= horizon)
    ensures Counted(intervals + [next], cuts, horizon, next.end)
  {
    var longer := intervals + [next];
    forall i | 0 <= i < |longer| ensures longer[i].end in cuts || longer[i].end >= horizon {}
    if next.end < horizon {
      forall i, j | 0 <= i < j < |longer| ensures longer[i].end < longer[j].end { EndsAscend(z, longer, first, next.end, i, j); }
      forall i | 0 <= i < |longer| ensures longer[i].end in cuts {
        if i < |intervals| { assert longer[i].end < longer[|intervals|].end; }
      }
      EndsCount(longer, cuts);
    }
  }

  lemma OneMoreStart(starts: map<int, Option<int>>, date: int, start: Option<int>)
    ensures |starts[date := start]| == |starts| + if date in starts then 0 else 1
  {
    assert starts[date := start].Keys == starts.Keys + {date};
  }

  /** dateResolver.  The context is canceled once it has been polled more than deadline times.  The
      survey of the zone is for the proof alone. */
  class DateResolver {
    const zone: Zone
    const edge: int
    const deadline: Option<nat>
    var polls: nat
    var steps: nat
    var cursor: int
    var intervals: seq<Interval>
    var starts: map<int, Option<int>>
    ghost const cuts: set<int>
    ghost const stale: set<int>
    ghost const horizon: int

    constructor (zone: Zone, edge: int, deadline: Option<nat>, ghost cuts: set<int>, ghost stale: set<int>, ghost horizon: int)
      requires Sound(zone)
      ensures this.zone == zone && this.edge == edge && this.deadline == deadline
      ensures this.cuts == cuts && this.stale == stale && this.horizon == horizon
      ensures Valid() && starts == map[] && intervals == [] && steps == 0 && Thrifty()
    {
      this.zone, this.edge, this.deadline := zone, edge, deadline;
      this.cuts, this.stale, this.horizon := cuts, stale, horizon;
      polls, steps := 0, 0;
      cursor := edge - MAX_INT32;
      intervals, starts := [], map[];
      new;
      StaleShrinks(stale, cursor, cursor);
    }

    /** Everything remembered is true of the zone. */
    ghost predicate Valid()
      reads this`cursor, this`intervals, this`starts
    {
      |intervals| <= MAX_INTERVALS && Remembered()
    }

    ghost predicate Remembered()
      reads this`cursor, this`intervals, this`starts
    {
      Sound(zone) && Covers(zone, intervals, edge - MAX_INT32, cursor) && AllStarts(zone, starts)
    }

    // What a failure says: the context was canceled, a bound start lay ahead, or a budget is spent.
    ghost predicate Excused(failure: Failure)
      reads this`steps, this`intervals
    {
      match failure
      case Canceled => deadline.Some?
      case Invalid => !Honest(zone)
      case TooLarge => steps > MAX_STEPS || |intervals| >= MAX_INTERVALS
    }

    /** The zone is as the survey says, and within the budget. */
    ghost predicate Surveyed() {
      && deadline.None? && Honest(zone) && Regular(zone)
      && Sparse(zone, edge - MAX_INT32, horizon, cuts, stale) && horizon <= edge + DAY - MIN_INT32
      && Spending(MAX_DATES + 3) <= MAX_STEPS
    }

    /** The survey goes as far as the searches for a window until that date. */
    ghost predicate Sure(until: int) { Surveyed() && horizon >= SearchTo(until) }

    /** The steps that many searches can take. */
    ghost function Spending(searches: nat): nat {
      SearchesCost(searches, cuts);
      |stale| + searches * SearchCost(cuts)
    }

    /** The steps so far, counting the stale instants ahead, are what the searches so far may take. */
    ghost predicate Thrifty()
      reads this`steps, this`cursor, this`intervals, this`starts
    {
      Counted(intervals, cuts, horizon, cursor) && steps + |StaleFrom(stale, cursor)| <= Spending(|starts|)
    }

    /** A search that is sure to succeed. */
    ghost predicate Easy(date: int)
      reads this`steps, this`cursor, this`intervals, this`starts
    {
      Surveyed() && Thrifty() && date + DAY < horizon && |starts| < MAX_DATES + 3
    }

    method Canceled() returns (canceled: bool)
      modifies this`polls
      ensures polls == old(polls) + 1 && (canceled <==> deadline.Some? && polls > deadline.value)
    {
      polls := polls + 1;
      canceled := deadline.Some? && polls > deadline.value;
    }

    method Check() returns (failure: Option<Failure>)
      modifies this`polls, this`steps
      ensures steps == old(steps) + (if deadline.Some? && polls > deadline.value then 0 else 1)
      ensures failure == Some(Failure.Canceled) <==> deadline.Some? && polls > deadline.value
      ensures failure.None? ==> steps <= MAX_STEPS
      ensures failure.Some? ==> failure != Some(Invalid) && Excused(failure.value) && (failure == Some(TooLarge) ==> steps > MAX_STEPS)
    {
      var canceled := Canceled();
      if canceled {
        return Some(Failure.Canceled);
      }
      steps := steps + 1;
      if steps > MAX_STEPS {
        return Some(TooLarge);
      }
      return None;
    }

    /** nextInterval: a maximal known stretch of one offset from the cursor, looking at every
        second while the zone's own bounds are stale. */
    method NextInterval(limit: int) returns (r: Outcome<Interval>)
      requires Sound(zone) && cursor < limit
      modifies this`polls, this`steps
      ensures steps >= old(steps)
      ensures r.Ok? ==> Uniform(zone, r.value) && r.value.start == cursor && r.value.end <= limit
      ensures r.Fail? ==> Excused(r.failure) && (r.failure.TooLarge? ==> steps > MAX_STEPS)
      ensures Surveyed() && edge - MAX_INT32 <= cursor < horizon <= limit && old(steps) + 1 + |StaleFrom(stale, cursor)| <= MAX_STEPS ==>
        && r.Ok? && (r.value.end in cuts || r.value.end >= horizon)
        && steps + |StaleFrom(stale, r.value.end)| <= old(steps) + 1 + |StaleFrom(stale, cursor)|
    {
      hide *;
      var at := cursor;
      var offset := zone.offset(at);
      if offset < MIN_INT32 || offset > MAX_INT32 {
        SoundOffset(zone, at);
        assert false;
      }
      ghost var sure := Surveyed() && edge - MAX_INT32 <= cursor < horizon <= limit
        && old(steps) + 1 + |StaleFrom(stale, cursor)| <= MAX_STEPS;
      while true
        invariant cursor <= at < limit && steps >= old(steps)
        invariant at == cursor || Uniform(zone, Interval(cursor, at, offset))
        invariant sure ==> at <= horizon && steps + |StaleFrom(stale, at)| <= old(steps) + |StaleFrom(stale, cursor)|
        decreases limit - at
      {
        var failure := Check();
        if failure.Some? {
          if sure { NoDeadline(this); }
          return Fail(failure.value);
        }
        if zone.offset(at) != offset {
          if sure { ChangeIsCut(this, at, offset); }
          return Ok(Interval(cursor, at, offset));
        }
        var start, end := zone.boundStart(at), zone.boundEnd(at);
        if start.Some? && start.value > at {
          Dishonest(this, at);
          return Fail(Invalid);
        }
        var stop := if end.None? || end.value > limit then limit else end.value;
        if stop > at {
          GrowUniform(zone, cursor, at, stop);
          if sure { BoundIsCut(this, at, limit); }
          StaleShrinks(stale, at, stop);
          return Ok(Interval(cursor, stop, offset));
        }
        GrowUniform(zone, cursor, at, at + 1);
        if sure { StaleIsKnown(this, at); }
        at := at + 1;
        if at >= limit {
          return Ok(Interval(cursor, limit, offset));
        }
      }
    }

    /** One more interval, when the known ones have all been looked at. */
    method Extend(limit: int) returns (failure: Option<Failure>)
      requires Valid() && cursor < limit
      modifies this`polls, this`steps, this`cursor, this`intervals
      ensures Valid() && steps >= old(steps)
      ensures failure.None? ==> |intervals| == |old(intervals)| + 1 && old(intervals) <= intervals
      ensures failure.None? ==> intervals[|old(intervals)|].start == old(cursor) && intervals[|old(intervals)|].end <= limit
      ensures failure.Some? ==> intervals == old(intervals) && Excused(failure.value)
      ensures (Surveyed() && old(Counted(intervals, cuts, horizon, cursor)) && edge - MAX_INT32 <= old(cursor) < horizon <= limit
               && old(steps + 1 + |StaleFrom(stale, cursor)|) <= MAX_STEPS) ==>
        && failure.None? && Counted(intervals, cuts, horizon, cursor)
        && steps + |StaleFrom(stale, cursor)| <= old(steps + 1 + |StaleFrom(stale, cursor)|)
    {
      hide Covers, IsStart, Uniform, Sound, AllStarts, Sparse, Regular, Honest, StaleFrom;
      ghost var sure := Surveyed() && Counted(intervals, cuts, horizon, cursor) && edge - MAX_INT32 <= cursor < horizon <= limit
        && steps + 1 + |StaleFrom(stale, cursor)| <= MAX_STEPS;
      var found := NextInterval(limit);
      if found.Fail? {
        return Some(found.failure);
      }
      if |intervals| >= MAX_INTERVALS {
        if sure { FewCuts(this); }
        return Some(TooLarge);
      }
      CoversAppend(zone, intervals, edge - MAX_INT32, cursor, found.value);
      if sure { CountedMore(zone, intervals, edge - MAX_INT32, cuts, horizon, found.value); }
      intervals := intervals + [found.value];
      cursor := found.value.end;
      return None;
    }

    /** start: the least instant that shows the date, over all instants and all offsets; or
        the exact news that there is none.  Answers do not depend on earlier calls. */
    method Start(date: int) returns (r: Outcome<Option<int>>)
      requires Valid() && edge <= date
      modifies this`polls, this`steps, this`cursor, this`intervals, this`starts
      ensures Valid() && old(intervals) <= intervals
      ensures r.Ok? ==> IsStart(zone, date, r.value) && starts == old(starts)[date := r.value]
      ensures r.Fail? ==> starts == old(starts) && Excused(r.failure)
      ensures old(Easy(date)) ==> r.Ok? && Thrifty()
    {
      hide Covers, IsStart, On, NoneBefore, Uniform, Sound, AllStarts, Surveyed, Counted, StaleFrom, Spending, Excused, Valid, Easy, Thrifty;
      IsValid(this);
      EasyIs(this, date);
      if date in starts {
        Recall(zone, starts, date);
        return Ok(starts[date]);
      }
      var next := date + DAY;
      var limit := next - MIN_INT32;
      var earliest := None;
      var i := 0;
      BeforeFirst(zone, date, edge - MAX_INT32);
      ghost var easy := Easy(date);
      while true
        invariant Valid() && Remembered() && starts == old(starts) && old(intervals) <= intervals && i <= |intervals|
        invariant NoneBefore(zone, date, EndBefore(intervals, i, edge - MAX_INT32))
        invariant easy ==> Searching(date, i, old(steps + |StaleFrom(stale, cursor)|))
        decreases MAX_STEPS - steps
      {
        if easy { StillAhead(this, date, i, old(steps + |StaleFrom(stale, cursor)|)); }
        var failure := Check();
        if failure.Some? {
          return Fail(failure.value);
        }
        if i == |intervals| {
          CoversEnd(zone, intervals, edge - MAX_INT32, cursor);
          if cursor >= limit {
            NoneAnywhere(zone, date, cursor);
            break;
          }
          var failed := Extend(limit);
          IsValid(this);
          if failed.Some? {
            return Fail(failed.value);
          }
        }
        var interval := intervals[i];
        CoversAt(zone, intervals, edge - MAX_INT32, cursor, i);
        if interval.start >= limit {
          NoneAnywhere(zone, date, interval.start);
          break;
        }
        ScanInterval(zone, date, interval);
        var a, b := date - interval.offset, next - interval.offset;
        if a < interval.start {
          a := interval.start;
        }
        if b > interval.end {
          b := interval.end;
        }
        if a < b {
          earliest := Some(a);
          break;
        }
        i := i + 1;
      }
      if easy { Found(this, date, i, old(steps + |StaleFrom(stale, cursor)|)); }
      Keep(date, earliest);
      return Ok(earliest);
    }

    /** An answer is remembered. */
    method Keep(date: int, start: Option<int>)
      requires Valid() && IsStart(zone, date, start) && date !in starts
      modifies this`starts
      ensures Valid() && starts == old(starts)[date := start]
      ensures old(Counted(intervals, cuts, horizon, cursor) && steps + |StaleFrom(stale, cursor)| <= Spending(|starts| + 1)) ==> Thrifty()
    {
      hide Covers, IsStart, Sound, AllStarts, Counted, StaleFrom, Spending;
      Remember(zone, starts, date, start);
      OneMoreStart(starts, date, start);
      starts := starts[date := start];
    }

    /** Within a search: two steps for each interval looked at, and no more intervals than cuts before
        the date is found. */
    ghost predicate Searching(date: int, i: nat, before: nat)
      reads this`steps, this`cursor, this`intervals, this`starts
    {
      && Surveyed() && Counted(intervals, cuts, horizon, cursor) && date + DAY < horizon && |starts| < MAX_DATES + 3
      && before <= Spending(|starts|) && steps + |StaleFrom(stale, cursor)| <= before + 2 * i
    }

    /** edge: the start of the first existing date at or after the given one. */
    method Edge(date: int) returns (r: Outcome<int>)
      requires Valid() && edge <= date
      modifies this`polls, this`steps, this`cursor, this`intervals, this`starts
      ensures Valid()
      ensures r.Ok? ==> IsEdge(zone, date, r.value)
      ensures r.Fail? ==> Excused(r.failure) || (r.failure.TooLarge? && NoneUpTo(zone, date, MAX_DATES + 1))
      ensures old(Easy(date)) ==> r.Ok? && Thrifty() && starts.Keys == old(starts).Keys + {date}
    {
      hide Covers, IsStart, On, NoneBefore, Uniform, Sound, AllStarts, Valid, IsEdge, NoneUpTo, Surveyed, Thrifty;
      var day := date;
      NoneUpToZero(zone, date);
      for skipped := 0 to MAX_DATES + 1
        invariant Valid() && edge <= day == Later(date, skipped)
        invariant NoneUpTo(zone, date, skipped)
        invariant old(Easy(date)) ==> skipped == 0 && Easy(date) && starts == old(starts)
      {
        if old(Easy(date)) { NoDeadline(this); }
        var canceled := Canceled();
        if canceled {
          return Fail(Failure.Canceled);
        }
        ghost var was := starts;
        var start := Start(day);
        if start.Fail? {
          return Fail(start.failure);
        }
        OneMoreStart(was, day, start.value);
        if old(Easy(date)) { EasyHasStart(this, day, start.value); }
        if start.value.Some? {
          EdgeFound(zone, date, skipped, start.value.value);
          return Ok(start.value.value);
        }
        NoneUpToNext(zone, date, skipped);
        day := day + DAY;
      }
      return Fail(TooLarge);
    }
  }

  lemma IsValid(r: DateResolver)
    ensures r.Valid() <==> |r.intervals| <= MAX_INTERVALS && r.Remembered()
  {}

  lemma SearchesCost(n: nat, cuts: set<int>)
    ensures n * SearchCost(cuts) >= 0
  {}

  // ---- why a surveyed search goes on

  lemma EasyIs(r: DateResolver, date: int)
    ensures r.Easy(date) ==> r.Thrifty() && r.Searching(date, 0, r.steps + |StaleFrom(r.stale, r.cursor)|)
  {
    hide Counted, StaleFrom;
  }

  lemma NoDeadline(r: DateResolver)
    requires r.Surveyed()
    ensures r.deadline.None?
  {}

  lemma Dishonest(r: DateResolver, at: int)
    requires r.zone.boundStart(at).Some? && r.zone.boundStart(at).value > at
    ensures !Honest(r.zone) && !r.Surveyed() && r.Excused(Invalid)
  {}

  lemma ChangeIsCut(r: DateResolver, at: int, offset: int)
    requires r.Surveyed() && r.edge - MAX_INT32 <= r.cursor <= at <= r.horizon && r.zone.offset(at) != offset
    requires at == r.cursor ==> r.zone.offset(at) == offset
    requires at == r.cursor || Uniform(r.zone, Interval(r.cursor, at, offset))
    ensures at in r.cuts || at >= r.horizon
  {
    hide Regular, Honest;
    if at > r.cursor { assert r.zone.offset(at - 1) == offset; }
  }

  lemma BoundIsCut(r: DateResolver, at: int, limit: int)
    requires r.Surveyed() && r.edge - MAX_INT32 <= at <= r.horizon <= limit
    ensures var end := r.zone.boundEnd(at); var stop := if end.None? || end.value > limit then limit else end.value;
      stop > at ==> stop in r.cuts || stop >= r.horizon
  {
    hide Regular, Honest;
  }
  lemma StaleIsKnown(r: DateResolver, at: int)
    requires r.Surveyed() && r.edge - MAX_INT32 <= at <= r.horizon
    requires r.zone.boundEnd(at).Some? && r.zone.boundEnd(at).value <= at
    ensures at < r.horizon && |StaleFrom(r.stale, at + 1)| == |StaleFrom(r.stale, at)| - 1
  {
    hide Regular, Honest, StaleFrom;
    StalePassed(r.stale, at);
  }

  lemma FewCuts(r: DateResolver)
    requires r.Surveyed() && Counted(r.intervals, r.cuts, r.horizon, r.cursor) && r.cursor < r.horizon
    ensures |r.intervals| < MAX_INTERVALS
  {
    hide Regular, Honest, Sparse;
  }

  lemma {:induction false} CoversFrom(z: Zone, intervals: seq<Interval>, first: int, cursor: int, i: nat)
    requires Covers(z, intervals, first, cursor) && i <= |intervals|
    ensures first <= EndBefore(intervals, i, first)
  {
    if i > 0 {
      CoversFrom(z, intervals, first, cursor, i - 1);
      assert Uniform(z, intervals[i - 1]);
    }
  }

  /** The date is found before the intervals outnumber the cuts, so the search stays within its budget. */
  lemma StillAhead(r: DateResolver, date: int, i: nat, before: nat)
    requires r.Searching(date, i, before) && r.Valid() && i <= |r.intervals| && r.edge <= date
    requires NoneBefore(r.zone, date, EndBefore(r.intervals, i, r.edge - MAX_INT32))
    ensures i <= |r.cuts| && (i == |r.intervals| ==> r.edge - MAX_INT32 <= r.cursor < r.horizon)
    ensures r.deadline.None? && r.horizon <= date + DAY - MIN_INT32 && before + 2 * (i + 1) <= r.Spending(|r.starts| + 1) <= MAX_STEPS
  {
    hide Sparse, Honest, IsStart, Reaches, Uniform, AllStarts, On, NoneBefore, StaleFrom;
    var t := RegularStart(r.zone, date);
    StartAhead(r.zone, date, t, EndBefore(r.intervals, i, r.edge - MAX_INT32));
    CoversFrom(r.zone, r.intervals, r.edge - MAX_INT32, r.cursor, i);
    hide Regular;
    CoversEnd(r.zone, r.intervals, r.edge - MAX_INT32, r.cursor);
    SpendingMore(r, |r.starts|);
  }

  lemma StartAhead(z: Zone, date: int, t: int, until: int)
    requires IsStart(z, date, Some(t)) && NoneBefore(z, date, until)
    ensures until <= t
  {}

  lemma SpendingMore(r: DateResolver, n: nat)
    requires n < MAX_DATES + 3
    ensures r.Spending(n + 1) == r.Spending(n) + SearchCost(r.cuts) && r.Spending(n + 1) <= r.Spending(MAX_DATES + 3)
  {
    hide SearchCost;
    OrderedTimes(n + 1, MAX_DATES + 3, SearchCost(r.cuts));
  }

  lemma OrderedTimes(a: nat, b: nat, c: nat)
    requires a <= b
    ensures a * c <= b * c
  {}

  lemma Found(r: DateResolver, date: int, i: nat, before: nat)
    requires |r.starts| < MAX_DATES + 3 && before + 2 * (i + 1) <= r.Spending(|r.starts| + 1)
    requires Counted(r.intervals, r.cuts, r.horizon, r.cursor) && r.steps + |StaleFrom(r.stale, r.cursor)| <= before + 2 * (i + 1)
    ensures r.steps + |StaleFrom(r.stale, r.cursor)| <= r.Spending(|r.starts| + 1)
  {}

  lemma EasyHasStart(r: DateResolver, date: int, start: Option<int>)
    requires r.Surveyed() && IsStart(r.zone, date, start)
    ensures start.Some?
  {
    hide IsStart, Reaches, Sparse, Honest;
    RegularHasStart(r.zone, date, start);
  }

  // --------------------------------------------------------------------- periods

  // The nominal period edges: floor gives the edge at or before a date, next the edge after an edge.
  datatype Grid = Grid(floor: int -> int, next: int -> int)

  predicate IsDate(d: int) { d % DAY == 0 }

  predicate IsEdgeOf(g: Grid, d: int) { IsDate(d) && g.floor(d) == d }

  /** A period edge grid: at most a leap year from one edge to the next. */
  ghost predicate GridLaws(g: Grid) {
    && (forall d :: IsDate(d) ==> IsEdgeOf(g, g.floor(d)) && g.floor(d) <= d < g.next(g.floor(d)))
    && (forall e :: IsEdgeOf(g, e) ==> IsEdgeOf(g, g.next(e)) && e < g.next(e) <= e + 366 * DAY)
  }

  function DayGrid(): Grid { Grid(d => d, d => d + DAY) }

  /** Days since Sunday; the epoch was a Thursday. */
  function Weekday(d: int): nat { (d / DAY + 4) % 7 }

  /** The Monday at or before a date. */
  function WeekFloor(d: int): int { d - (Weekday(d) + 6) % 7 * DAY }

  function WeekGrid(): Grid { Grid(WeekFloor, d => d + 7 * DAY) }

  /** Every date is an edge of its own. */
  lemma DayLaws()
    ensures GridLaws(DayGrid())
    ensures forall d :: IsDate(d) ==> IsEdgeOf(DayGrid(), d) && DayGrid().next(d) == d + DAY
  {}

  lemma ShiftDays(d: int, days: int)
    requires IsDate(d)
    ensures IsDate(d + days * DAY) && (d + days * DAY) / DAY == d / DAY + days
  {
    assert d == d / DAY * DAY;
    assert d + days * DAY == (d / DAY + days) * DAY;
  }

  lemma WeekFloorIs(d: int)
    requires IsDate(d)
    ensures IsDate(WeekFloor(d)) && Weekday(WeekFloor(d)) == 1 && WeekFloor(d) <= d < WeekFloor(d) + 7 * DAY
    ensures Weekday(d) == 1 <==> WeekFloor(d) == d
  {
    hide IsDate;
    var back := (Weekday(d) + 6) % 7;
    ShiftDays(d, 0 - back);
    Monday(d / DAY);
  }

  lemma Monday(x: int)
    ensures (x - ((x + 4) % 7 + 6) % 7 + 4) % 7 == 1
    ensures (x + 4) % 7 == 1 <==> ((x + 4) % 7 + 6) % 7 == 0
  {}

  lemma WeekStep(e: int)
    requires IsEdgeOf(WeekGrid(), e)
    ensures IsEdgeOf(WeekGrid(), e + 7 * DAY)
  {
    hide WeekFloor;
    ShiftDays(e, 7);
    WeekFloorIs(e);
    WeekFloorIs(e + 7 * DAY);
    assert (e / DAY + 7 + 4) % 7 == (e / DAY + 4) % 7;
  }

  /** Weeks start on Mondays, and form a grid; 5 January 1970 was a Monday. */
  lemma WeekLaws()
    ensures GridLaws(WeekGrid()) && IsEdgeOf(WeekGrid(), 4 * DAY)
    ensures forall d :: IsDate(d) ==> Weekday(WeekGrid().floor(d)) == 1
  {
    assert IsEdgeOf(WeekGrid(), 4 * DAY);
    hide IsDate, Weekday, WeekFloor;
    forall d | IsDate(d)
      ensures Weekday(WeekFloor(d)) == 1 && IsEdgeOf(WeekGrid(), WeekFloor(d)) && WeekFloor(d) <= d < WeekFloor(d) + 7 * DAY
    {
      WeekFloorIs(d);
      WeekFloorIs(WeekFloor(d));
    }
    forall e | IsEdgeOf(WeekGrid(), e) ensures IsEdgeOf(WeekGrid(), e + 7 * DAY) {
      WeekStep(e);
    }
  }

  // --------------------------------------------------------------------- buckets

  datatype Bucket = Bucket(startDate: int, untilDate: int, rangeStart: int, rangeEnd: int, partial: bool, inProgress: bool)

  datatype Window = Window(buckets: seq<Bucket>, lo: int, hi: int)

  function EndOf(buckets: seq<Bucket>, lo: int): int {
    if buckets == [] then lo else buckets[|buckets| - 1].rangeEnd
  }

  /** Nonempty intervals laid end to end from lo. */
  ghost predicate Chain(buckets: seq<Bucket>, lo: int) {
    && (forall i :: 0 <= i < |buckets| ==> buckets[i].rangeStart < buckets[i].rangeEnd)
    && (forall i :: 0 <= i < |buckets| ==> buckets[i].rangeStart == EndOf(buckets[..i], lo))
  }

  /** The nominal dates ascend too, and end by the given date. */
  ghost predicate Dated(buckets: seq<Bucket>, last: int) {
    && (forall i :: 0 <= i < |buckets| ==> buckets[i].startDate < buckets[i].untilDate <= last)
    && (forall i, j :: 0 <= i < j < |buckets| ==> buckets[i].untilDate <= buckets[j].startDate)
  }

  lemma DatedStep(buckets: seq<Bucket>, edge: int, b: Option<Bucket>, next: int)
    requires Dated(buckets, edge) && edge < next
    requires b.Some? ==> b.value.startDate == edge && b.value.untilDate == next
    ensures Dated(if b.Some? then buckets + [b.value] else buckets, next)
  {}

  /** The buckets divide [lo, hi) with no gap and no overlap. */
  ghost predicate Partition(w: Window) { w.buckets != [] && Chain(w.buckets, w.lo) && EndOf(w.buckets, w.lo) == w.hi }

  /** A bucket is the selected part of its period, whose edges are real local-date starts. */
  ghost predicate Describes(z: Zone, g: Grid, b: Bucket, lo: int, hi: int, now: int) {
    b.untilDate == g.next(b.startDate) &&
    exists from, to :: IsEdge(z, b.startDate, from) && IsEdge(z, b.untilDate, to) && IsClipOf(b, from, to, lo, hi, now)
  }

  predicate IsClipOf(b: Bucket, from: int, to: int, lo: int, hi: int, now: int) {
    && b.rangeStart == Max(from, lo) && b.rangeEnd == Min(to, hi)
    && (b.partial <==> from < lo || hi < to) && (b.inProgress <==> from <= now < to)
  }

  /** One period's bucket: nothing for an empty period, an error unless it meets the last one. */
  function Clip(edge: int, next: int, from: int, to: int, lo: int, hi: int, previous: int, now: int):
    (r: Outcome<Option<Bucket>>)
    ensures r.Ok? && r.value.Some? ==> var b := r.value.value;
      IsClipOf(b, from, to, lo, hi, now) && b.startDate == edge && b.untilDate == next && previous == b.rangeStart < b.rangeEnd
    ensures r.Ok? && r.value.None? ==> from == to
    ensures from <= to && from < hi && lo < to && lo < hi && previous == Max(from, lo) ==> r.Ok? && (from < to ==> r.value.Some?)
  {
    if from > to then Fail(Invalid)
    else if from == to then Ok(None)
    else
      var start, end := if from < lo then lo else from, if to > hi then hi else to;
      if !(start < end) || start != previous then Fail(Invalid)
      else Ok(Some(Bucket(edge, next, start, end, from != start || to != end, !(now < from) && now < to)))
  }

  ghost predicate AllDescribe(z: Zone, g: Grid, buckets: seq<Bucket>, lo: int, hi: int, now: int) {
    forall b <- buckets :: Describes(z, g, b, lo, hi, now)
  }

  lemma Link(z: Zone, g: Grid, buckets: seq<Bucket>, b: Bucket, lo: int, hi: int, now: int)
    requires Chain(buckets, lo) && EndOf(buckets, lo) == b.rangeStart < b.rangeEnd
    requires AllDescribe(z, g, buckets, lo, hi, now) && b.untilDate == g.next(b.startDate)
    requires exists from, to ::
      IsEdge(z, b.startDate, from) && IsEdge(z, b.untilDate, to) && IsClipOf(b, from, to, lo, hi, now)
    ensures Chain(buckets + [b], lo) && AllDescribe(z, g, buckets + [b], lo, hi, now)
  {
    hide IsEdge, IsClipOf, Chain, EndOf, AllDescribe;
    ChainMore(buckets, b, lo);
    DescribeMore(z, g, buckets, b, lo, hi, now);
  }

  lemma ChainMore(buckets: seq<Bucket>, b: Bucket, lo: int)
    requires Chain(buckets, lo) && EndOf(buckets, lo) == b.rangeStart < b.rangeEnd
    ensures Chain(buckets + [b], lo)
  {
    hide EndOf;
    var n, longer := |buckets|, buckets + [b];
    assert longer[..n] == buckets && longer[n] == b;
    forall i | 0 <= i < n
      ensures longer[i].rangeStart < longer[i].rangeEnd && longer[i].rangeStart == EndOf(longer[..i], lo)
    {
      assert longer[i] == buckets[i] && longer[..i] == buckets[..i];
    }
  }

  lemma DescribeMore(z: Zone, g: Grid, buckets: seq<Bucket>, b: Bucket, lo: int, hi: int, now: int)
    requires AllDescribe(z, g, buckets, lo, hi, now) && b.untilDate == g.next(b.startDate)
    requires exists from, to ::
      IsEdge(z, b.startDate, from) && IsEdge(z, b.untilDate, to) && IsClipOf(b, from, to, lo, hi, now)
    ensures AllDescribe(z, g, buckets + [b], lo, hi, now)
  {
    DescribesOne(z, g, b, lo, hi, now);
    hide Describes, IsEdge, IsClipOf;
  }

  lemma DescribesOne(z: Zone, g: Grid, b: Bucket, lo: int, hi: int, now: int)
    requires b.untilDate == g.next(b.startDate)
    requires exists from, to ::
      IsEdge(z, b.startDate, from) && IsEdge(z, b.untilDate, to) && IsClipOf(b, from, to, lo, hi, now)
    ensures Describes(z, g, b, lo, hi, now)
  {
    hide IsEdge, IsClipOf;
  }

  predicate ValidRange(since: int, until: int) {
    IsDate(since) && IsDate(until) && 0 <= since < until <= LAST_DATE && until - since <= MAX_DATES * DAY
  }

  // ----------------------------------------------------------------------- the window

  /** The edges of the periods ascend, and the last selected date exists. */
  ghost predicate Fair(z: Zone, until: int) { Tidy(z) && exists t :: IsStart(z, until - DAY, Some(t)) }

  /** A window that is answered: an honest and regular zone whose bounds leave the resolver within its
      budget, a valid range and no deadline. */
  ghost predicate Plain(z: Zone, since: int, until: int, deadline: Option<nat>) {
    Honest(z) && Regular(z) && Affordable(z, since, until) && deadline.None? && ValidRange(since, until)
  }

  /** A date that starts after the last year of the calendar. */
  ghost predicate TooLate(z: Zone, date: int) { exists t :: YEAR_10000 <= t && IsStart(z, date, Some(t)) }

  /** Why a window is refused. */
  ghost predicate Refused(z: Zone, since: int, until: int, deadline: Option<nat>, failure: Failure) {
    match failure
    case Canceled => deadline.Some?
    case Invalid =>
      || !(0 <= since < until <= LAST_DATE) || !Honest(z) || !Fair(z, until)
      || IsStart(z, since, None) || IsStart(z, until, None) || TooLate(z, since) || TooLate(z, until)
    case TooLarge => (until - since) / DAY > MAX_DATES || deadline.Some? || !Honest(z) || !Regular(z) || !Affordable(z, since, until)
  }

  /** Nothing of that is true of a plain window. */
  lemma PlainIsFair(z: Zone, since: int, until: int)
    requires Regular(z) && ValidRange(since, until)
    ensures Fair(z, until) && !IsStart(z, since, None) && !IsStart(z, until, None) && !TooLate(z, since) && !TooLate(z, until)
  {
    hide Regular, IsStart, Reaches, Tidy, Honest;
    RegularIsTidy(z);
    var last := RegularStart(z, until - DAY);
    var lo := RegularStart(z, since);
    var hi := RegularStart(z, until);
    forall t ensures IsStart(z, since, Some(t)) ==> t == lo {
      if IsStart(z, since, Some(t)) { StartUnique(z, since, Some(t), Some(lo)); }
    }
    forall t ensures IsStart(z, until, Some(t)) ==> t == hi {
      if IsStart(z, until, Some(t)) { StartUnique(z, until, Some(t), Some(hi)); }
    }
    NotMissing(z, since, lo);
    NotMissing(z, until, hi);
  }

  lemma NotMissing(z: Zone, date: int, t: int)
    requires IsStart(z, date, Some(t))
    ensures !IsStart(z, date, None)
  {
    assert On(z, date, t);
  }

  /** calendar: a window it returns is partitioned by its buckets in any zone, with at most MaxDates
      of them; it is refused only for what is wrong with the dates, the zone, the budgets or the
      context, so every plain window is answered. */
  method BuildCalendar(zone: Zone, grid: Grid, since: int, until: int, now: int, deadline: Option<nat>)
    returns (r: Outcome<Window>)
    requires Sound(zone) && GridLaws(grid) && IsDate(since) && IsDate(until)
    ensures r.Ok? ==> ValidRange(since, until) && Partition(r.value) && |r.value.buckets| <= MAX_DATES
    ensures r.Ok? ==> IsStart(zone, since, Some(r.value.lo)) && IsStart(zone, until, Some(r.value.hi))
    ensures r.Ok? ==> AllDescribe(zone, grid, r.value.buckets, r.value.lo, r.value.hi, now)
    ensures r.Ok? ==> exists last :: Dated(r.value.buckets, last)
    ensures r.Fail? ==> Refused(zone, since, until, deadline, r.failure)
    ensures Plain(zone, since, until, deadline) ==> r.Ok?
    ensures r.Ok? && Regular(zone) && grid == DayGrid() ==> |r.value.buckets| * DAY == until - since
  {
    hide IsStart, IsEdge, Sound, Chain, AllDescribe, GridLaws, Clip, DayGrid, Dated, Honest, Regular, Affordable, Fair, TooLate,
      DateResolver.Sure, DateResolver.Thrifty, DateResolver.Valid, Plain, Within;
    PlainIs(zone, since, until, deadline);
    if !(0 <= since <= LAST_DATE) || !(0 <= until <= LAST_DATE) || since >= until {
      return Fail(Invalid);
    }
    RangeIs(since, until);
    if (until - since) / DAY > MAX_DATES {
      return Fail(TooLarge);
    }
    FloorOf(grid, since);
    var edge := grid.floor(since);
    ghost var to, cuts, stale := Survey(zone, since, until);
    var resolver := new DateResolver(zone, edge, deadline, cuts, stale, to);
    SurveyIs(resolver, grid, since, until);
    var ends := WindowEnds(resolver, since, until);
    if ends.Fail? {
      return Fail(ends.failure);
    }
    r := FillBuckets(resolver, grid, since, until, ends.value.0, ends.value.1, now);
  }

  /** What a plain window is, and that in a regular zone every valid range is fair. */
  lemma PlainIs(z: Zone, since: int, until: int, deadline: Option<nat>)
    ensures Plain(z, since, until, deadline) ==>
      Honest(z) && Regular(z) && Affordable(z, since, until) && deadline.None? && ValidRange(since, until)
    ensures deadline.None? && Honest(z) && Regular(z) && Affordable(z, since, until) && ValidRange(since, until) ==>
      Plain(z, since, until, deadline)
    ensures Regular(z) && ValidRange(since, until) ==>
      Fair(z, until) && !IsStart(z, since, None) && !IsStart(z, until, None) && !TooLate(z, since) && !TooLate(z, until)
  {
    hide Honest, Regular, Affordable, Fair, IsStart, TooLate, ValidRange;
    if Regular(z) && ValidRange(since, until) { PlainIsFair(z, since, until); }
  }

  /** The instants of both ends. */
  method WindowEnds(resolver: DateResolver, since: int, until: int) returns (r: Outcome<(int, int)>)
    requires resolver.Valid() && resolver.edge <= since && ValidRange(since, until) && resolver.starts == map[] && resolver.Thrifty()
    modifies resolver`polls, resolver`steps, resolver`cursor, resolver`intervals, resolver`starts
    ensures resolver.Valid()
    ensures r.Ok? ==>
      IsStart(resolver.zone, since, Some(r.value.0)) && IsStart(resolver.zone, until, Some(r.value.1)) && r.value.0 < r.value.1 < YEAR_10000
    ensures r.Fail? ==> match r.failure
      case Canceled => resolver.deadline.Some?
      case Invalid =>
        || !Honest(resolver.zone) || !Fair(resolver.zone, until) || IsStart(resolver.zone, since, None)
        || IsStart(resolver.zone, until, None) || TooLate(resolver.zone, since) || TooLate(resolver.zone, until)
      case TooLarge => !resolver.Sure(until)
    ensures resolver.Sure(until) && r.Ok? ==> Budgeted(resolver, 0, resolver.edge)
  {
    hide IsStart, Honest, Regular, Fair, TooLate, DateResolver.Surveyed, DateResolver.Thrifty, DateResolver.Valid, IsDate;
    var lo := resolver.Start(since);
    if lo.Fail? {
      return Fail(lo.failure);
    }
    OneMoreStart(map[], since, lo.value);
    var hi := resolver.Start(until);
    if hi.Fail? {
      return Fail(hi.failure);
    }
    OneMoreStart(map[since := lo.value], until, hi.value);
    if lo.value.None? || hi.value.None? {
      return Fail(Invalid);
    }
    LateIs(resolver.zone, since, lo.value.value);
    LateIs(resolver.zone, until, hi.value.value);
    FairIsTidy(resolver.zone, until);
    DatesApart(since, until);
    if Fair(resolver.zone, until) { TidyWindow(resolver.zone, since, until, lo.value.value, hi.value.value); }
    if lo.value.value >= YEAR_10000 || hi.value.value >= YEAR_10000 || lo.value.value >= hi.value.value {
      return Fail(Invalid);
    }
    return Ok((lo.value.value, hi.value.value));
  }

  lemma LateIs(z: Zone, date: int, t: int)
    requires IsStart(z, date, Some(t))
    ensures t >= YEAR_10000 ==> TooLate(z, date)
  {
    hide IsStart;
  }

  /** The cuts and stale instants of an affordable window. */
  ghost method Survey(z: Zone, since: int, until: int) returns (to: int, cuts: set<int>, stale: set<int>)
    ensures Affordable(z, since, until) ==> Within(z, since, until, to, cuts, stale)
  {
    to, cuts, stale := 0, {}, {};
    if Affordable(z, since, until) {
      hide Within;
      to, cuts, stale :| Within(z, since, until, to, cuts, stale);
    }
  }

  lemma SurveyIs(r: DateResolver, g: Grid, since: int, until: int)
    requires GridLaws(g) && r.edge == g.floor(since) && ValidRange(since, until)
    requires Affordable(r.zone, since, until) ==> Within(r.zone, since, until, r.horizon, r.cuts, r.stale)
    ensures r.deadline.None? && Honest(r.zone) && Regular(r.zone) && Affordable(r.zone, since, until) ==> r.Sure(until)
  {
    hide Honest, Regular, Affordable;
    FloorOf(g, since);
    FloorNear(g, since);
    hide GridLaws;
    if Affordable(r.zone, since, until) {
      SparseFrom(r.zone, SearchFrom(since), r.edge - MAX_INT32, r.horizon, r.cuts, r.stale);
    }
  }

  lemma FloorNear(g: Grid, d: int)
    requires GridLaws(g) && IsDate(d)
    ensures d - 366 * DAY <= g.floor(d)
  {
    FloorOf(g, d);
    NextEdge(g, g.floor(d));
  }

  lemma SparseFrom(z: Zone, from: int, later: int, to: int, cuts: set<int>, stale: set<int>)
    requires from <= later && Sparse(z, from, to, cuts, stale)
    ensures Sparse(z, later, to, cuts, stale)
  {}

  /** The default period: one bucket for every date that has one, and none is ever merged. */
  method DayCalendar(zone: Zone, since: int, until: int, now: int, deadline: Option<nat>) returns (r: Outcome<Window>)
    requires Sound(zone) && IsDate(since) && IsDate(until)
    ensures r.Ok? ==> Partition(r.value) && forall b <- r.value.buckets :: b.untilDate == b.startDate + DAY
    ensures r.Ok? && Regular(zone) ==> |r.value.buckets| * DAY == until - since
    ensures Plain(zone, since, until, deadline) ==> r.Ok?
  {
    hide IsStart, IsEdge, Sound, Chain, Clip, Dated, IsClipOf, Plain, Regular, Refused;
    DayLaws();
    r := BuildCalendar(zone, DayGrid(), since, until, now, deadline);
  }

  // ---- the buckets follow the edges

  /** The buckets end where the edge is, cut to the window. */
  ghost predicate Tracked(z: Zone, buckets: seq<Bucket>, edge: int, lo: int, hi: int) {
    forall a :: IsEdge(z, edge, a) ==> EndOf(buckets, lo) == Max(Min(a, hi), lo)
  }

  lemma TidyWindow(z: Zone, since: int, until: int, lo: int, hi: int)
    requires Tidy(z) && since + DAY <= until && IsStart(z, since, Some(lo)) && IsStart(z, until, Some(hi))
    ensures lo < hi
  {
    hide IsEdge, IsStart;
    EdgeOfStart(z, since, lo);
    EdgeOfStart(z, until, hi);
    StartsDiffer(z, since, until, lo, hi);
  }

  lemma FirstTracked(z: Zone, first: int, since: int, lo: int, hi: int)
    requires first <= since && IsStart(z, since, Some(lo)) && lo < hi
    ensures Tidy(z) ==> Tracked(z, [], first, lo, hi)
  {
    hide IsEdge, IsStart;
    EdgeOfStart(z, since, lo);
  }

  /** Where a period that overlaps the window lies. */
  lemma TidyPeriod(z: Zone, edge: int, next: int, a: int, b: int, since: int, until: int, lo: int, hi: int)
    requires Fair(z, until) && IsEdge(z, edge, a) && IsEdge(z, next, b) && edge + DAY <= until && since + DAY <= next && edge <= next
    requires IsStart(z, since, Some(lo)) && IsStart(z, until, Some(hi))
    ensures a <= b && a < hi && lo < b
  {
    hide IsEdge, IsStart;
    EdgeOfStart(z, since, lo);
    EdgeOfStart(z, until, hi);
    var last :| IsStart(z, until - DAY, Some(last));
    EdgeOfStart(z, until - DAY, last);
    StartsDiffer(z, until - DAY, until, last, hi);
    assert a <= last <= hi;
    var days := EdgeDays(z, next, b);
    StartsDiffer(z, since, Later(next, days), lo, b);
  }

  lemma EdgeDays(z: Zone, date: int, t: int) returns (days: nat)
    requires IsEdge(z, date, t)
    ensures IsStart(z, Later(date, days), Some(t)) && date <= Later(date, days)
  {
    hide IsStart;
    days :| days <= MAX_DATES && EdgeAfter(z, date, days, t);
  }

  lemma TidyClip(z: Zone, buckets: seq<Bucket>, edge: int, next: int, a: int, b: int, lo: int, hi: int, now: int)
    requires Tracked(z, buckets, edge, lo, hi) && IsEdge(z, edge, a) && IsEdge(z, next, b)
    requires a <= b && a < hi && lo < b && lo < hi
    ensures var c := Clip(edge, next, a, b, lo, hi, EndOf(buckets, lo), now);
      && c.Ok? && (c.value.Some? <==> a < b)
      && Tracked(z, if c.value.Some? then buckets + [c.value.value] else buckets, next, lo, hi)
  {
    hide IsEdge;
    forall other | IsEdge(z, next, other) ensures other == b { EdgeUnique(z, next, other, b); }
  }

  /** What the searches for n periods and the two ends may have remembered. */
  ghost predicate Budgeted(r: DateResolver, n: nat, edge: int)
    reads r`steps, r`cursor, r`intervals, r`starts
  {
    r.Thrifty() && if n == 0 then |r.starts| <= 2 else edge in r.starts && |r.starts| <= n + 3
  }

  lemma SameKeys(a: map<int, Option<int>>, b: map<int, Option<int>>, date: int)
    requires b.Keys == a.Keys + {date}
    ensures |b| == |b.Keys| && |a| == |a.Keys| && |b| == |a| + (if date in a then 0 else 1) && date in b
    ensures forall d <- a :: d in b
  {
    assert date in b.Keys;
    assert forall d <- a :: d in b.Keys;
    if date in a { assert b.Keys == a.Keys; }
  }

  /** One turn of the loop: both edges and the clipped bucket. */
  method NextBucket(resolver: DateResolver, edge: int, next: int, lo: int, hi: int, buckets: seq<Bucket>, now: int,
                    ghost n: nat, ghost since: int, ghost until: int)
    returns (r: Outcome<Option<Bucket>>)
    requires resolver.Valid() && resolver.edge <= edge && edge + DAY <= next <= edge + 366 * DAY
    requires edge + DAY <= until && since + DAY <= next && lo < hi
    requires IsStart(resolver.zone, since, Some(lo)) && IsStart(resolver.zone, until, Some(hi))
    requires Fair(resolver.zone, until) ==> Tracked(resolver.zone, buckets, edge, lo, hi)
    requires resolver.Sure(until) ==> Budgeted(resolver, n, edge) && n < MAX_DATES
    modifies resolver`polls, resolver`steps, resolver`cursor, resolver`intervals, resolver`starts
    ensures resolver.Valid()
    ensures r.Ok? && r.value.Some? ==> var b := r.value.value;
      && b.rangeStart < b.rangeEnd && b.rangeStart == EndOf(buckets, lo) && b.startDate == edge && b.untilDate == next
      && exists from, to :: IsEdge(resolver.zone, edge, from) && IsEdge(resolver.zone, next, to) && IsClipOf(b, from, to, lo, hi, now)
    ensures r.Fail? ==> match r.failure
      case Canceled => resolver.deadline.Some?
      case Invalid => !Honest(resolver.zone) || !Fair(resolver.zone, until)
      case TooLarge => !resolver.Sure(until)
    ensures r.Ok? ==> exists to :: IsEdge(resolver.zone, next, to)
    ensures r.Ok? && Fair(resolver.zone, until) ==>
      Tracked(resolver.zone, if r.value.Some? then buckets + [r.value.value] else buckets, next, lo, hi)
    ensures r.Ok? && Regular(resolver.zone) ==> r.value.Some?
    ensures resolver.Sure(until) && r.Ok? ==> Budgeted(resolver, n + 1, next)
  {
    hide IsStart, IsEdge, Sound, Chain, AllDescribe, GridLaws, Clip, IsClipOf, DateResolver.Valid, DateResolver.Surveyed,
      DateResolver.Thrifty, Fair, Tracked, Regular, Honest, NoneUpTo;
    if resolver.Sure(until) { NoDeadline(resolver); }
    var canceled := resolver.Canceled();
    if canceled {
      return Fail(Failure.Canceled);
    }
    ghost var known := resolver.starts;
    var a := resolver.Edge(edge);
    if a.Fail? {
      SureEdge(resolver, edge);
      return Fail(a.failure);
    }
    if resolver.Sure(until) { SameKeys(known, resolver.starts, edge); }
    known := resolver.starts;
    var b := resolver.Edge(next);
    if b.Fail? {
      SureEdge(resolver, next);
      return Fail(b.failure);
    }
    if resolver.Sure(until) { SameKeys(known, resolver.starts, next); }
    if Fair(resolver.zone, until) {
      TidyPeriod(resolver.zone, edge, next, a.value, b.value, since, until, lo, hi);
      TidyClip(resolver.zone, buckets, edge, next, a.value, b.value, lo, hi, now);
    }
    if Regular(resolver.zone) { RegularPeriod(resolver.zone, edge, next, a.value, b.value); }
    r := Clip(edge, next, a.value, b.value, lo, hi, EndOf(buckets, lo), now);
    ClipIs(edge, next, a.value, b.value, lo, hi, EndOf(buckets, lo), now);
  }

  lemma ClipIs(edge: int, next: int, from: int, to: int, lo: int, hi: int, previous: int, now: int)
    ensures var c := Clip(edge, next, from, to, lo, hi, previous, now);
      (c.Fail? ==> c.failure.Invalid?) && (c.Ok? ==> (c.value.Some? <==> from < to))
  {}

  lemma SureEdge(r: DateResolver, date: int)
    ensures r.Excused(Invalid) ==> !Honest(r.zone)
    ensures r.Excused(Canceled) ==> r.deadline.Some?
  {}

  lemma RegularPeriod(z: Zone, edge: int, next: int, a: int, b: int)
    requires Regular(z) && edge + DAY <= next && IsEdge(z, edge, a) && IsEdge(z, next, b)
    ensures a < b
  {
    hide Regular, IsEdge, IsStart, Reaches;
    RegularEdge(z, edge, a);
    RegularEdge(z, next, b);
    ReachesAscend(z, edge, next, a, b);
    StartsDiffer(z, edge, next, a, b);
  }

  /** The loop over periods. */
  method FillBuckets(resolver: DateResolver, grid: Grid, since: int, until: int, lo: int, hi: int, now: int)
    returns (r: Outcome<Window>)
    requires resolver.Valid() && GridLaws(grid) && ValidRange(since, until) && lo < hi
    requires resolver.edge == grid.floor(since)
    requires IsStart(resolver.zone, since, Some(lo)) && IsStart(resolver.zone, until, Some(hi))
    requires resolver.Sure(until) ==> Budgeted(resolver, 0, resolver.edge)
    modifies resolver`polls, resolver`steps, resolver`cursor, resolver`intervals, resolver`starts
    ensures r.Ok? ==> r.value.lo == lo && r.value.hi == hi && Partition(r.value) && |r.value.buckets| <= MAX_DATES
    ensures r.Ok? ==> AllDescribe(resolver.zone, grid, r.value.buckets, lo, hi, now)
    ensures r.Ok? ==> exists last :: Dated(r.value.buckets, last)
    ensures r.Ok? && Regular(resolver.zone) && grid == DayGrid() ==> |r.value.buckets| * DAY == until - since
    ensures r.Fail? ==> match r.failure
      case Canceled => resolver.deadline.Some?
      case Invalid => !Honest(resolver.zone) || !Fair(resolver.zone, until)
      case TooLarge => !resolver.Sure(until)
  {
    hide *;
    RangeFacts(since, until);
    FirstPeriod(resolver.zone, grid, since, until, lo, hi, now);
    FirstTracked(resolver.zone, grid.floor(since), since, lo, hi);
    FairIsTidy(resolver.zone, until);
    var edge := grid.floor(since);
    var buckets := [];
    ghost var n := 0;
    ghost var fair, sure := Fair(resolver.zone, until), resolver.Sure(until);
    while edge < until
      invariant resolver.Valid() && IsEdgeOf(grid, edge) && resolver.edge <= edge
      invariant Walked(grid, n, edge, resolver.edge, since, until)
      invariant Chain(buckets, lo) && AllDescribe(resolver.zone, grid, buckets, lo, hi, now) && |buckets| <= n
      invariant Dated(buckets, edge)
      invariant fair ==> Tracked(resolver.zone, buckets, edge, lo, hi)
      invariant n > 0 ==> exists to :: IsEdge(resolver.zone, edge, to)
      invariant sure ==> Budgeted(resolver, n, edge)
      invariant Regular(resolver.zone) ==> |buckets| == n
      decreases until - edge
    {
      var next := grid.next(edge);
      WalkOn(grid, n, edge, resolver.edge, since, until);
      var bucket := NextBucket(resolver, edge, next, lo, hi, buckets, now, n, since, until);
      if bucket.Fail? {
        return Fail(bucket.failure);
      }
      DatedStep(buckets, edge, bucket.value, next);
      if bucket.value.Some? {
        if |buckets| >= MAX_BUCKETS {
          assert false;
        }
        Link(resolver.zone, grid, buckets, bucket.value.value, lo, hi, now);
        buckets := buckets + [bucket.value.value];
      }
      edge, n := next, n + 1;
    }
    Walking(grid, n, edge, resolver.edge, since, until);
    if fair { Arrived(resolver.zone, buckets, edge, until, lo, hi); }
    if |buckets| == 0 || EndOf(buckets, lo) != hi {
      return Fail(Invalid);
    }
    IsPartition(buckets, lo, hi);
    WalkEnds(grid, n, edge, resolver.edge, since, until);
    return Ok(Window(buckets, lo, hi));
  }

  lemma FairIsTidy(z: Zone, until: int)
    ensures Fair(z, until) ==> Tidy(z)
  {
    hide Tidy, IsStart;
  }

  /** The loop ends past the first period, and on the day grid at the last date. */
  lemma Walking(g: Grid, n: nat, edge: int, first: int, since: int, until: int)
    requires Walked(g, n, edge, first, since, until) && edge >= until && first <= since < until
    ensures n > 0 && (g == DayGrid() ==> n * DAY == until - since)
  {
    hide DayGrid;
  }

  lemma Arrived(z: Zone, buckets: seq<Bucket>, edge: int, until: int, lo: int, hi: int)
    requires Fair(z, until) && Tracked(z, buckets, edge, lo, hi) && edge >= until && lo < hi
    requires IsStart(z, until, Some(hi)) && exists to :: IsEdge(z, edge, to)
    ensures |buckets| > 0 && EndOf(buckets, lo) == hi
  {
    hide IsEdge, IsStart;
    EdgeOfStart(z, until, hi);
    var to :| IsEdge(z, edge, to);
    assert hi <= to;
  }

  /** Where n periods lead: at least n days past the first date, and exactly n on the day grid. */
  ghost predicate Walked(g: Grid, n: nat, edge: int, first: int, since: int, until: int) {
    && (if n == 0 then edge == first else since + n * DAY <= edge) && n <= MAX_DATES
    && (g == DayGrid() ==> edge == since + n * DAY <= until)
  }

  lemma RangeFacts(since: int, until: int)
    requires ValidRange(since, until)
    ensures IsDate(since) && IsDate(until) && since < until && until - since <= MAX_DATES * DAY
  {}

  lemma DayGridIs(g: Grid, d: int)
    requires g == DayGrid()
    ensures g.floor(d) == d && g.next(d) == d + DAY
  {}

  lemma FirstPeriod(z: Zone, g: Grid, since: int, until: int, lo: int, hi: int, now: int)
    requires GridLaws(g) && IsDate(since) && since < until
    ensures var first := g.floor(since); IsEdgeOf(g, first) && first <= since && Walked(g, 0, first, first, since, until)
    ensures Chain([], lo) && AllDescribe(z, g, [], lo, hi, now) && Dated([], g.floor(since))
  {
    hide GridLaws, IsDate, DayGrid;
    FloorOf(g, since);
    if g == DayGrid() { DayGridIs(g, since); }
  }

  lemma WalkOn(g: Grid, n: nat, edge: int, first: int, since: int, until: int)
    requires GridLaws(g) && ValidRange(since, until) && first == g.floor(since)
    requires Walked(g, n, edge, first, since, until) && IsEdgeOf(g, edge) && edge < until
    ensures var next := g.next(edge);
      IsEdgeOf(g, next) && edge + DAY <= next <= edge + 366 * DAY && edge + DAY <= until && since + DAY <= next && n < MAX_DATES < MAX_BUCKETS
      && Walked(g, n + 1, next, first, since, until)
  {
    hide GridLaws, IsDate, DayGrid;
    NextOf(g, edge);
    FloorOf(g, since);
    DatesApart(edge, until);
    if n == 0 { DatesApart(since, g.next(edge)); }
    if g == DayGrid() { DayGridIs(g, edge); }
  }

  lemma DatesApart(a: int, b: int)
    requires IsDate(a) && IsDate(b) && a < b
    ensures a + DAY <= b
  {}

  lemma WalkEnds(g: Grid, n: nat, edge: int, first: int, since: int, until: int)
    requires Walked(g, n, edge, first, since, until)
    ensures n <= MAX_DATES
  {}

  lemma IsPartition(buckets: seq<Bucket>, lo: int, hi: int)
    requires buckets != [] && Chain(buckets, lo) && EndOf(buckets, lo) == hi
    ensures Partition(Window(buckets, lo, hi))
  {
    hide Chain;
  }

  lemma RangeIs(since: int, until: int)
    requires IsDate(since) && IsDate(until) && 0 <= since < until <= LAST_DATE
    ensures (until - since) / DAY <= MAX_DATES ==> ValidRange(since, until)
    ensures ValidRange(since, until) ==> (until - since) / DAY <= MAX_DATES
  {}

  lemma FloorOf(g: Grid, d: int)
    requires GridLaws(g) && IsDate(d)
    ensures IsEdgeOf(g, g.floor(d)) && g.floor(d) <= d < g.next(g.floor(d))
  {}

  lemma NextOf(g: Grid, e: int)
    requires GridLaws(g) && IsEdgeOf(g, e)
    ensures IsEdgeOf(g, g.next(e)) && e + DAY <= g.next(e) <= e + 366 * DAY
  {
    NextEdge(g, e);
    hide GridLaws;
    DatesApart(e, g.next(e));
  }

  lemma NextEdge(g: Grid, e: int)
    requires GridLaws(g) && IsEdgeOf(g, e)
    ensures IsEdgeOf(g, g.next(e)) && e < g.next(e) <= e + 366 * DAY
  {
    hide IsDate;
  }

  // -------------------------------------------------------- the bucket of an instant

  lemma {:induction false} ChainOrder(buckets: seq<Bucket>, lo: int, i: nat, j: nat)
    requires Chain(buckets, lo) && i < j < |buckets|
    ensures buckets[i].rangeEnd <= buckets[j].rangeStart
    decreases j
  {
    assert buckets[j].rangeStart == EndOf(buckets[..j], lo) == buckets[j - 1].rangeEnd;
    if i < j - 1 {
      ChainOrder(buckets, lo, i, j - 1);
    }
  }

  predicate Holds(b: Bucket, ms: int) { b.rangeStart * 1000 <= ms < b.rangeEnd * 1000 }

  /** A millisecond timestamp lies in at most one bucket. */
  lemma BucketUnique(w: Window, ms: int, i: nat, j: nat)
    requires Partition(w) && i < |w.buckets| && j < |w.buckets|
    requires Holds(w.buckets[i], ms) && Holds(w.buckets[j], ms)
    ensures i == j
  {
    if i < j {
      ChainOrder(w.buckets, w.lo, i, j);
    } else if j < i {
      ChainOrder(w.buckets, w.lo, j, i);
    }
  }

  /** The pointer of readSection: timestamps come in ascending order, so it only moves forward,
      and it always finds the bucket; "outside report intervals" cannot happen. */
  method Advance(w: Window, bucket: nat, ms: int) returns (k: nat)
    requires Partition(w) && w.lo * 1000 <= ms < w.hi * 1000
    requires bucket < |w.buckets| && w.buckets[bucket].rangeStart * 1000 <= ms
    ensures bucket <= k < |w.buckets| && Holds(w.buckets[k], ms)
  {
    k := bucket;
    while k < |w.buckets| && ms >= w.buckets[k].rangeEnd * 1000
      invariant bucket <= k <= |w.buckets|
      invariant k == |w.buckets| ==> w.hi * 1000 <= ms
      invariant k < |w.buckets| ==> w.buckets[k].rangeStart * 1000 <= ms
    {
      NextStart(w, k);
      k := k + 1;
    }
  }

  lemma NextStart(w: Window, k: nat)
    requires Partition(w) && k < |w.buckets|
    ensures if k + 1 < |w.buckets| then w.buckets[k + 1].rangeStart == w.buckets[k].rangeEnd else w.buckets[k].rangeEnd == w.hi
  {
    if k + 1 < |w.buckets| { assert w.buckets[..k + 1][k] == w.buckets[k]; }
  }

  lemma FirstBucketStarts(w: Window)
    requires Partition(w)
    ensures w.buckets[0].rangeStart == w.lo
  {
    assert w.buckets[..0] == [];
  }
}
