/** What a report section must add up to, stated over the stored Turns themselves: every quantity
    of a Total is a sum of per-Turn weights (internal/usage/report/report.go, read.go). */
module Tallies {
  import opened Wrappers
  import opened Amounts

  datatype Reason = UnknownModel | AmbiguousModel | MissingRate | MissingUsage | InconsistentUsage

  datatype TurnValue = Priced(amount: Amount) | Unpriced(reason: Reason)

  // One accepted Turn: the start date of its bucket, its model, its reported counts, its value.
  datatype Entry = Entry(day: int, model: string, counts: seq<Option<nat>>, value: TurnValue)

  // The quantities a Total carries; metrics are numbered in projection order.
  datatype Measure = Turns | Sum(metric: nat) | Reported(metric: nat) | Dollars | PricedTurns | UnpricedTurns(reason: Reason)

  // The Turns a Total covers.
  datatype Scope = Everything | OfModel(model: string) | OfDay(day: int) | OfRow(day: int, model: string)

  predicate Covers(f: Scope, e: Entry) {
    match f
    case Everything => true
    case OfModel(model) => e.model == model
    case OfDay(day) => e.day == day
    case OfRow(day, model) => e.day == day && e.model == model
  }

  function Weight(e: Entry, m: Measure): nat {
    match m
    case Turns => 1
    case Sum(i) => if i < |e.counts| && e.counts[i].Some? then e.counts[i].value else 0
    case Reported(i) => if i < |e.counts| && e.counts[i].Some? then 1 else 0
    case Dollars => if e.value.Priced? then Worth(e.value.amount) else 0
    case PricedTurns => if e.value.Priced? then 1 else 0
    case UnpricedTurns(r) => if e.value == Unpriced(r) then 1 else 0
  }

  /** The sum of a measure over the entries in scope. */
  function Tally(entries: seq<Entry>, f: Scope, m: Measure): nat {
    if entries == [] then 0
    else
      var e := entries[|entries| - 1];
      Tally(entries[..|entries| - 1], f, m) + if Covers(f, e) then Weight(e, m) else 0
  }

  lemma TallyStep(entries: seq<Entry>, e: Entry, f: Scope, m: Measure)
    ensures Tally(entries + [e], f, m) == Tally(entries, f, m) + if Covers(f, e) then Weight(e, m) else 0
  {
    assert (entries + [e])[..|entries|] == entries;
  }

  /** Narrower scopes never hold more. */
  lemma {:induction false} TallyAtMost(entries: seq<Entry>, f: Scope, m: Measure)
    ensures Tally(entries, f, m) <= Tally(entries, Everything, m)
  {
    hide Weight, Covers;
    EverythingCovers();
    if entries != [] { TallyAtMost(entries[..|entries| - 1], f, m); }
  }

  lemma EverythingCovers()
    ensures forall e :: Covers(Everything, e)
  {}

  // ------------------------------------------------------------------ conservation

  function Over(scopes: seq<Scope>, entries: seq<Entry>, m: Measure): nat {
    if scopes == [] then 0 else Tally(entries, scopes[0], m) + Over(scopes[1..], entries, m)
  }

  /** How many of the scopes cover an entry. */
  function Coverings(scopes: seq<Scope>, e: Entry): nat {
    if scopes == [] then 0 else (if Covers(scopes[0], e) then 1 else 0) + Coverings(scopes[1..], e)
  }

  lemma {:induction false} OverStep(scopes: seq<Scope>, entries: seq<Entry>, e: Entry, m: Measure)
    ensures Over(scopes, entries + [e], m) == Over(scopes, entries, m) + Coverings(scopes, e) * Weight(e, m)
  {
    hide Tally, Weight, Covers;
    if scopes != [] {
      TallyStep(entries, e, scopes[0], m);
      OverStep(scopes[1..], entries, e, m);
      OneMore(Coverings(scopes[1..], e), Weight(e, m));
    }
  }

  lemma OneMore(c: nat, w: nat)
    ensures (c + 1) * w == c * w + w && (1 + c) * w == c * w + w && (0 + c) * w == c * w
  {}

  lemma {:induction false} OverNothing(scopes: seq<Scope>, m: Measure)
    ensures Over(scopes, [], m) == 0
  {
    if scopes != [] { OverNothing(scopes[1..], m); }
  }

  /** When each entry of a scope is covered by exactly one part, the parts add up to the whole. */
  lemma {:induction false} PartsAddUp(scopes: seq<Scope>, whole: Scope, entries: seq<Entry>, m: Measure)
    requires forall e <- entries :: Coverings(scopes, e) == if Covers(whole, e) then 1 else 0
    ensures Over(scopes, entries, m) == Tally(entries, whole, m)
  {
    hide Weight, Covers, Over, Coverings;
    if entries == [] {
      OverNothing(scopes, m);
    } else {
      var init, e := entries[..|entries| - 1], entries[|entries| - 1];
      assert entries == init + [e] && e in entries;
      PartsAddUp(scopes, whole, init, m);
      OverStep(scopes, init, e, m);
      TallyStep(init, e, whole, m);
    }
  }

  // ------------------------------------------------------------------- exact facts

  /** Turns are priced or unpriced for one of the five reasons. */
  lemma {:induction false} TurnsSplit(entries: seq<Entry>, f: Scope)
    ensures Tally(entries, f, Turns) == Tally(entries, f, PricedTurns)
      + Tally(entries, f, UnpricedTurns(UnknownModel)) + Tally(entries, f, UnpricedTurns(AmbiguousModel))
      + Tally(entries, f, UnpricedTurns(MissingRate)) + Tally(entries, f, UnpricedTurns(MissingUsage))
      + Tally(entries, f, UnpricedTurns(InconsistentUsage))
  {
    hide Covers, Weight;
    if entries != [] {
      TurnsSplit(entries[..|entries| - 1], f);
      OneOutcome(entries[|entries| - 1]);
    }
  }

  lemma OneOutcome(e: Entry)
    ensures 1 == Weight(e, Turns) == Weight(e, PricedTurns)
      + Weight(e, UnpricedTurns(UnknownModel)) + Weight(e, UnpricedTurns(AmbiguousModel))
      + Weight(e, UnpricedTurns(MissingRate)) + Weight(e, UnpricedTurns(MissingUsage))
      + Weight(e, UnpricedTurns(InconsistentUsage))
  {
    match e.value
    case Priced(_) =>
    case Unpriced(r) =>
      match r
      case UnknownModel =>
      case AmbiguousModel =>
      case MissingRate =>
      case MissingUsage =>
      case InconsistentUsage =>
  }
}
