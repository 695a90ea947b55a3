/** What the usage store promises in every interleaving (internal/usage/sqlitestore/store.go):
    the loss ledger balances, batches are bounded and disjoint, the drain ends. */
module UsageLedger {
  import opened Wrappers
  import opened UsageStore

  // ------------------------------------------------------------- reachable states

  ghost predicate Reachable(s: State) { exists run :: Run(INITIAL, run) == Some(s) }

  lemma ReachableInv(s: State)
    requires Reachable(s)
    ensures Inv(s)
  {
    hide Inv, Run;
    InitialInv();
    var run :| Run(INITIAL, run) == Some(s);
    RunKeeps(INITIAL, run, s);
  }

  /** No call is counted under two outcomes: the four loss and commit counters are the sizes
      of four pairwise disjoint sets of started calls. */
  lemma OutcomesDisjoint(s: State)
    requires Reachable(s)
    ensures s.p.started == |s.p.procs.Keys| && s.p.queueFull == |s.p.fullIds| && s.p.late == |s.p.lateIds|
    ensures s.w.committed == |s.w.committedIds| && s.w.runtimeLost == |s.w.lostIds|
    ensures s.p.fullIds !! s.p.lateIds && s.w.committedIds !! s.w.lostIds
    ensures (s.p.fullIds + s.p.lateIds) !! (s.w.committedIds + s.w.lostIds)
    ensures s.p.fullIds + s.p.lateIds + s.w.committedIds + s.w.lostIds <= s.p.procs.Keys
  {
    hide Reachable;
    ReachableInv(s);
    ProducerOutcomes(s.p, s.w);
    hide *;
  }

  lemma ProducerOutcomes(p: Producers, w: Writer)
    requires CountersInv(p) && OutcomeInv(p) && SettledInv(w) && p.enqueued == Owned(w)
    ensures p.fullIds !! p.lateIds && w.committedIds !! w.lostIds
    ensures (p.fullIds + p.lateIds) !! (w.committedIds + w.lostIds)
    ensures p.fullIds + p.lateIds + w.committedIds + w.lostIds <= p.procs.Keys
  {
    hide Ids, Finished;
    assert w.committedIds + w.lostIds <= p.enqueued;
  }

  lemma FourCount(a: set<CallId>, b: set<CallId>, c: set<CallId>, d: set<CallId>, all: set<CallId>)
    requires a !! b && c !! d && (a + b) !! (c + d) && a + b + c + d <= all
    ensures |all - (a + b + c + d)| == |all| - |a| - |b| - |c| - |d|
  {
    UnionCount(a, b);
    UnionCount(c, d);
    UnionCount(a + b, c + d);
    assert a + b + c + d == (a + b) + (c + d);
    UnionCount(all - (a + b + c + d), a + b + c + d);
    assert all == (all - (a + b + c + d)) + (a + b + c + d);
  }

  /** The ledger balances in every interleaving: the final subtraction never wraps, and what
      it leaves is exactly the number of started calls with no outcome at the sample points. */
  lemma FinalLedgerExact(s: State)
    requires Reachable(s) && s.c.snap.Published? && |s.p.procs.Keys| < TWO_64
    ensures var x := s.c.samples;
      && x.started - x.queueFull >= 0 && x.started - x.queueFull - x.late >= 0
      && x.started - x.queueFull - x.late - x.committed >= 0
      && x.started - x.queueFull - x.late - x.committed - x.runtimeLost >= 0
    ensures s.c.report.finalFlush == |s.c.seen.started - s.c.seen.Settled()|
    ensures s.c.report.queueFull == |s.c.seen.full| && s.c.report.late == |s.c.seen.late|
    ensures s.c.report.runtimeLost == |s.c.seen.lost| && s.c.samples.committed == |s.c.seen.committed|
  {
    OutcomesDisjoint(s);
    SampleFacts(s);
    hide Reachable;
    var seen := s.c.seen;
    FourCount(seen.committed, seen.lost, seen.full, seen.late, seen.started);
    Sub64Exact(s.c.samples, |s.p.procs.Keys|);
  }

  lemma SubsetCount(a: set<CallId>, b: set<CallId>)
    requires a <= b
    ensures |a| <= |b|
  {
    UnionCount(a, b - a);
    assert a + (b - a) == b;
  }

  lemma SampleFacts(s: State)
    requires Reachable(s) && s.c.snap.Published?
    ensures var seen, x := s.c.seen, s.c.samples;
      && seen.full <= s.p.fullIds && seen.late <= s.p.lateIds
      && seen.committed == s.w.committedIds && seen.lost == s.w.lostIds
      && x.queueFull == |seen.full| && x.late == |seen.late| && x.started == |seen.started|
      && x.committed == |seen.committed| && x.runtimeLost == |seen.lost|
      && seen.Settled() <= seen.started && s.c.report == ReportOf(x) && |seen.started| <= |s.p.procs.Keys|
  {
    hide Reachable, ProducersInv, PlacesInv, BoundsInv, AdmissionInv, SnapshotInv, ClosersInv, LossInv, SealInv, Owned;
    ReachableInv(s);
    SnapshotFacts(s.c, s.p, s.w);
  }

  lemma SnapshotFacts(c: Closing, p: Producers, w: Writer)
    requires SnapshotInv(c, p, w) && c.snap.Published?
    ensures var seen, x := c.seen, c.samples;
      && seen.full <= p.fullIds && seen.late <= p.lateIds
      && seen.committed == w.committedIds && seen.lost == w.lostIds
      && x.queueFull == |seen.full| && x.late == |seen.late| && x.started == |seen.started|
      && x.committed == |seen.committed| && x.runtimeLost == |seen.lost|
      && seen.Settled() <= seen.started && c.report == ReportOf(x) && |seen.started| <= |p.procs.Keys|
  {
    hide ReportOf;
    SubsetCount(c.seen.started, p.procs.Keys);
  }

  lemma Sub64Exact(x: Samples, calls: nat)
    requires x.queueFull + x.late + x.committed + x.runtimeLost <= x.started <= calls < TWO_64
    ensures ReportOf(x).finalFlush == x.started - x.queueFull - x.late - x.committed - x.runtimeLost
  {
    hide Sub64;
    Sub64Is(x.started, x.queueFull);
    Sub64Is(x.started - x.queueFull, x.late);
    Sub64Is(x.started - x.queueFull - x.late, x.committed);
    Sub64Is(x.started - x.queueFull - x.late - x.committed, x.runtimeLost);
  }

  lemma Sub64Is(a: nat, b: nat)
    requires b <= a < TWO_64
    ensures Sub64(a, b) == a - b
  {}

  /** Every batch given to the database holds 1 to 128 Turns, and no Turn is in two batches. */
  lemma BatchesBoundedAndDisjoint(s: State)
    requires Reachable(s)
    ensures forall i :: 0 <= i < |s.w.handed| ==> 0 < |s.w.handed[i]| <= BATCH_CAPACITY && Distinct(s.w.handed[i])
    ensures forall i, j :: 0 <= i < j < |s.w.handed| ==> Ids(s.w.handed[i]) !! Ids(s.w.handed[j])
  {
    ReachableInv(s);
    hide Reachable, Ids;
  }

  lemma QuiescentRecord(s: State, c: CallId, t: State)
    requires Inv(s) && s.w.quiescent && Step(s, Record(c)) == Some(t)
    ensures t.w == s.w && t.p.enqueued == s.p.enqueued
  {
    hide RecordStep, Inv, LossInv;
    QuiescentFacts(s);
    var room := |s.w.queue| < QUEUE_CAPACITY;
    var next := RecordStep(s.p, c, room).value;
    RecordNoSender(s.p, c, room, next.0, next.1);
    CallFits(s.p, c);
    RecordMoves(s.p, c, room, next.0, next.1);
  }

  lemma QuiescentWriter(w: Writer, a: Action, requested: bool, sealed: bool, active: int, stoppedAtSeal: bool)
    requires LossInv(w, sealed, stoppedAtSeal) && w.quiescent
    ensures RuntimeStep(w, a, requested, sealed).Some? ==> RuntimeStep(w, a, requested, sealed).value.quiescent
    ensures FinishStep(w, a, active, sealed).Some? ==> FinishStep(w, a, active, sealed).value.quiescent
  {
    hide RuntimeStep, FinishStep, LossInv;
    var r, f := RuntimeStep(w, a, requested, sealed), FinishStep(w, a, active, sealed);
    if r.Some? { RuntimeAdvances(w, a, requested, sealed, r.value, stoppedAtSeal); }
    if f.Some? { FinishAdvances(w, a, active, sealed, f.value, stoppedAtSeal); }
  }

  lemma QuiescentStep(s: State, a: Action, t: State)
    requires Inv(s) && s.w.quiescent && Step(s, a) == Some(t)
    ensures t.w.quiescent && t.p.enqueued == s.p.enqueued
  {
    if a.Record? {
      hide *;
      QuiescentRecord(s, a.call, t);
    } else {
      hide RecordStep, RuntimeStep, FinishStep, CloseStep, Inv, LossInv;
      QuiescentFacts(s);
      QuiescentWriter(s.w, a, s.c.requested, s.c.Sealed(), s.p.active, s.c.stoppedAtSeal);
    }
  }

  lemma QuiescentFacts(s: State)
    requires Inv(s)
    ensures LossInv(s.w, s.c.Sealed(), s.c.stoppedAtSeal) && WindowInv(s.p) && OutcomeInv(s.p)
    ensures s.w.quiescent ==> NoSender(s.p) && !s.p.admitting && (Draining(s.w.pc) || Ending(s.w.pc))
  {
    hide PlacesInv, BoundsInv, SnapshotInv, SealInv, Owned;
  }

  /** Once finish has seen zero producers, no Record call enqueues a Turn in any continuation. */
  lemma {:induction false} NoEnqueueAfterQuiescence(s: State, run: seq<Action>, t: State)
    requires Inv(s) && s.w.quiescent && Run(s, run) == Some(t)
    ensures t.w.quiescent && t.p.enqueued == s.p.enqueued
    decreases |run|
  {
    hide Inv, Step;
    if run != [] {
      var next := Step(s, run[0]).value;
      StepKeeps(s, run[0], next);
      QuiescentStep(s, run[0], next);
      NoEnqueueAfterQuiescence(next, run[1..], t);
    }
  }

  /** Every writer step of the drain lowers this. */
  function DrainMeasure(w: Writer): nat {
    10 * (2 * |w.queue| + |w.batch|) +
    match w.pc
    case DrainTop => 6 case Filling(_) => 5 case FinalWrite => 4 case FinalSettle(_) => 3
    case Discarding => 2 case CleaningUp => 1 case _ => 0
  }

  predicate IsWriterAction(a: Action) { !a.Record? && !a.StopAdmission? && !a.Close? && !a.GiveUp? }

  lemma FinishLowers(w: Writer, a: Action, active: int, sealed: bool, w': Writer)
    requires BoundsInv(w) && (Draining(w.pc) || Ending(w.pc)) && FinishStep(w, a, active, sealed) == Some(w')
    ensures DrainMeasure(w') < DrainMeasure(w)
  {
    hide Ids;
  }

  lemma DrainStepLowers(s: State, a: Action, t: State)
    requires Inv(s) && s.w.quiescent && Step(s, a) == Some(t)
    ensures IsWriterAction(a) ==> DrainMeasure(t.w) < DrainMeasure(s.w)
    ensures !IsWriterAction(a) ==> t.w == s.w
  {
    hide RecordStep, FinishStep, CloseStep, Inv, DrainMeasure, SettleCommitted, SettleRuntimeFailure, HandOver;
    QuiescentFacts(s);
    InvBounds(s);
    if IsWriterAction(a) {
      FinishLowers(s.w, a, s.p.active, s.c.Sealed(), t.w);
    } else if a.Record? {
      var room := |s.w.queue| < QUEUE_CAPACITY;
      var next := RecordStep(s.p, a.call, room).value;
      RecordNoSender(s.p, a.call, room, next.0, next.1);
    }
  }

  lemma InvBounds(s: State)
    requires Inv(s)
    ensures BoundsInv(s.w)
  {}

  function WriterMoves(run: seq<Action>): nat
    decreases |run|
  {
    if run == [] then 0 else (if IsWriterAction(run[0]) then 1 else 0) + WriterMoves(run[1..])
  }

  /** The drain terminates: after quiescence the writer makes at most DrainMeasure more steps,
      whatever the others do. */
  lemma {:induction false} DrainTerminates(s: State, run: seq<Action>, t: State)
    requires Inv(s) && s.w.quiescent && Run(s, run) == Some(t)
    ensures WriterMoves(run) + DrainMeasure(t.w) <= DrainMeasure(s.w)
    decreases |run|
  {
    hide Inv, Step, DrainMeasure, IsWriterAction;
    if run != [] {
      var next := Step(s, run[0]).value;
      StepKeeps(s, run[0], next);
      QuiescentStep(s, run[0], next);
      DrainStepLowers(s, run[0], next);
      DrainTerminates(next, run[1..], t);
    }
  }

  /** ... and until it has stopped, some writer step is possible: the drain never blocks. */
  lemma DrainNeverBlocks(s: State)
    requires Inv(s) && s.w.quiescent && !s.w.pc.Stopped?
    ensures exists a :: IsWriterAction(a) && Step(s, a).Some?
  {
    hide RuntimeStep, Inv, SettleCommitted, Forfeit, HandOver;
    QuiescentFacts(s);
    InvBounds(s);
    var a := match s.w.pc
      case DrainTop => BeginFill
      case Filling(owed) => if owed > 0 then Pop else EndFill
      case FinalWrite => EndWrite(true)
      case FinalSettle(_) => Settle
      case Discarding => Discard
      case _ => Cleanup(true);
    assert FinishStep(s.w, a, s.p.active, s.c.Sealed()).Some?;
    assert IsWriterAction(a) && Step(s, a).Some?;
  }

  /** When no write failed, cleanup finished before the snapshot, and exactly the calls that
      had returned by the seal were observed, the final losses are what the seal left behind. */
  lemma CleanFinalLosses(s: State)
    requires Reachable(s) && s.c.snap.Published? && |s.p.procs.Keys| < TWO_64
    requires s.w.failedWrites == 0 && s.c.stoppedAtSeal && s.c.seen.started == s.c.returnedAtSeal
    ensures s.c.report.finalFlush == |s.c.leftAtSeal|
    ensures s.w.quiescent ==> s.c.report.finalFlush == 0
    ensures s.c.report.finalFlush == 0 <==> s.w.quiescent || s.c.leftAtSeal == {}
  {
    hide Reachable;
    FinalLedgerExact(s);
    ReachableInv(s);
    SampleFacts(s);
    LeftBehind(s.c, s.p, s.w);
  }

  lemma LeftBehind(c: Closing, p: Producers, w: Writer)
    requires OutcomeInv(p) && SealInv(c, p, w) && SnapshotInv(c, p, w) && LossInv(w, c.Sealed(), c.stoppedAtSeal)
    requires c.snap.Published? && w.failedWrites == 0 && c.stoppedAtSeal && c.seen.started == c.returnedAtSeal
    ensures c.seen.started - c.seen.Settled() == c.leftAtSeal
    ensures w.quiescent ==> c.leftAtSeal == {}
  {
    hide ReportOf, ReturnedCalls, OutcomeInv;
    RejectedNotSent(p);
    LeftSets(c.returnedAtSeal, c.leftAtSeal, p.fullIds, p.lateIds, w.committedIds, c.seen.full, c.seen.late, p.enqueued);
    hide *;
    assert c.seen.Settled() == w.committedIds + {} + c.seen.full + c.seen.late;
  }

  lemma RejectedNotSent(p: Producers)
    requires OutcomeInv(p)
    ensures (p.fullIds + p.lateIds) !! p.enqueued
  {
    hide Finished;
  }

  lemma LeftSets(returned: set<CallId>, left: set<CallId>, full: set<CallId>, late: set<CallId>, committed: set<CallId>,
                 seenFull: set<CallId>, seenLate: set<CallId>, sent: set<CallId>)
    requires returned <= late + full + committed + left && left <= returned && left <= sent
    requires (full + late) !! sent && left !! committed
    requires seenFull <= full && seenLate <= late && returned * full <= seenFull && returned * late <= seenLate
    ensures returned - (committed + {} + seenFull + seenLate) == left
  {}

  // The condition is needed.  A call is about to send when Close cuts admission off; the
  // closer's context ends while waitForProducers still counts the call, so finish goes
  // straight to cleanup; the Turn is enqueued afterwards, and nobody takes it.
  const ABANDON_ENTER: seq<Action> := [Record(0), Record(0), Record(0), Record(0), Close(0), Close(0)]
  const ABANDON_FINISH: seq<Action> := [TakeFinalize, Abandon, Record(0), Record(0), Cleanup(true), Close(0)]
  const ABANDON_PUBLISH: seq<Action> := [Close(0), Close(0), Close(0), Close(0), Close(0)]

  lemma {:induction false} RunSplit(s: State, left: seq<Action>, right: seq<Action>, mid: State)
    requires Run(s, left) == Some(mid)
    ensures Run(s, left + right) == Run(mid, right)
    decreases |left|
  {
    hide Step;
    if left == [] {
      assert left + right == right;
    } else {
      assert (left + right)[1..] == left[1..] + right;
      RunSplit(Step(s, left[0]).value, left[1..], right, mid);
    }
  }

  lemma RunSix(s0: State, a: seq<Action>, s1: State, s2: State, s3: State, s4: State, s5: State, s6: State)
    requires |a| == 6 && Step(s0, a[0]) == Some(s1) && Step(s1, a[1]) == Some(s2) && Step(s2, a[2]) == Some(s3)
    requires Step(s3, a[3]) == Some(s4) && Step(s4, a[4]) == Some(s5) && Step(s5, a[5]) == Some(s6)
    ensures Run(s0, a) == Some(s6)
  {
    hide Step;
    assert Run(s5, a[5..]) == Some(s6) by { assert a[5..][1..] == []; }
    assert a[4..][1..] == a[5..] && a[3..][1..] == a[4..] && a[2..][1..] == a[3..] && a[1..][1..] == a[2..];
    assert Run(s4, a[4..]) == Some(s6);
    assert Run(s3, a[3..]) == Some(s6);
    assert Run(s2, a[2..]) == Some(s6);
    assert Run(s1, a[1..]) == Some(s6);
  }

  lemma AbandonEnter() returns (s: State)
    ensures Run(INITIAL, ABANDON_ENTER) == Some(s)
    ensures s == INITIAL.(p := s.p, c := s.c)
    ensures s.p ==
      INITIAL.p.(procs := map[0 := Sending], admitting := false, active := 1, started := 1, window := {0})
    ensures s.c == INITIAL.c.(closers := map[0 := Awaiting], requested := true)
  {
    var s1 := Step(INITIAL, Record(0)).value;
    var s2 := Step(s1, Record(0)).value;
    var s3 := Step(s2, Record(0)).value;
    var s4 := Step(s3, Record(0)).value;
    assert s4.p.procs == map[0 := Sending];
    var s5 := Step(s4, Close(0)).value;
    s := Step(s5, Close(0)).value;
    RunSix(INITIAL, ABANDON_ENTER, s1, s2, s3, s4, s5, s);
  }

  lemma WriterMove(s: State, a: Action, t: State)
    requires (a.TakeFinalize? && s.w.pc.Collecting? && s.c.requested && t == s.(w := s.w.(pc := Waiting)))
          || (a.Abandon? && s.w.pc.Waiting? && t == s.(w := s.w.(pc := CleaningUp)))
          || (a.Cleanup? && s.w.pc.CleaningUp? && t == s.(w := s.w.(pc := Stopped, cleanupOk := a.ok)))
    ensures Step(s, a) == Some(t)
  {}

  lemma SendMove(s: State, c: CallId, t: State)
    requires c in s.p.procs && s.p.procs[c].Sending? && |s.w.queue| < QUEUE_CAPACITY
    requires t == State(s.p.(procs := s.p.procs[c := Leaving], enqueued := s.p.enqueued + {c}),
                        s.w.(queue := s.w.queue + [c]), s.c)
    ensures Step(s, Record(c)) == Some(t)
  {}

  lemma LeaveMove(s: State, c: CallId, t: State)
    requires c in s.p.procs && s.p.procs[c].Leaving?
    requires t == s.(p := s.p.(procs := s.p.procs[c := Returned], active := s.p.active - 1, window := s.p.window - {c}))
    ensures Step(s, Record(c)) == Some(t)
  {}

  lemma AbandonFinish(s: State) returns (t: State)
    requires s == INITIAL.(p := s.p, c := s.c)
    requires s.p ==
      INITIAL.p.(procs := map[0 := Sending], admitting := false, active := 1, started := 1, window := {0})
    requires s.c == INITIAL.c.(closers := map[0 := Awaiting], requested := true)
    ensures Run(s, ABANDON_FINISH) == Some(t)
    ensures t.p.procs == map[0 := Returned] && t.p.started == 1 && t.p.late == t.p.queueFull == 0
    ensures t.w.pc.Stopped? && t.w.queue == [0] && t.w.batch == [] && t.w.failedWrites == 0
    ensures t.w.committed == t.w.runtimeLost == 0 && !t.w.quiescent
    ensures t.c == INITIAL.c.(closers := map[0 := Publishing], requested := true)
  {
    var s1 := s.(w := s.w.(pc := Waiting));
    var s2 := s.(w := s.w.(pc := CleaningUp));
    var s3 := State(s.p.(procs := s.p.procs[0 := Leaving], enqueued := s.p.enqueued + {0}),
                    s2.w.(queue := [] + [0]), s.c);
    var s4 := s3.(p := s3.p.(procs := s3.p.procs[0 := Returned], active := 0, window := {0} - {0}));
    var s5 := s4.(w := s4.w.(pc := Stopped, cleanupOk := true));
    t := s5.(c := s5.c.(closers := s5.c.closers[0 := Publishing]));
    hide RuntimeStep, FinishStep, RecordStep, Produce;
    assert Step(s, TakeFinalize) == Some(s1) by { WriterMove(s, TakeFinalize, s1); }
    assert Step(s1, Abandon) == Some(s2) by { WriterMove(s1, Abandon, s2); }
    assert Step(s2, Record(0)) == Some(s3) by { SendMove(s2, 0, s3); }
    assert Step(s3, Record(0)) == Some(s4) by { LeaveMove(s3, 0, s4); }
    assert Step(s4, Cleanup(true)) == Some(s5) by { WriterMove(s4, Cleanup(true), s5); }
    assert Step(s5, Close(0)) == Some(t);
    RunSix(s, ABANDON_FINISH, s1, s2, s3, s4, s5, t);
  }

  /** The publishing closer takes the next sample. */
  lemma SnapshotMove(s: State, c: Closing) returns (next: Closing)
    requires s.c == c && 0 in c.closers && c.closers[0].Publishing? && !c.snap.Published? && (c.runner == None || c.runner == Some(0))
    ensures Some(next) == SnapshotStep(c.(runner := Some(0)), s.p, s.w)
    ensures Step(s, Close(0)) == Some(s.(c := next))
    ensures next.closers == c.closers && next.runner == Some(0)
  {
    hide RuntimeStep, FinishStep, RecordStep, ReportOf, ReturnedCalls, Ids;
    next := SnapshotStep(c.(runner := Some(0)), s.p, s.w).value;
  }

  lemma AbandonPublish(s: State) returns (t: State)
    requires s.p.procs == map[0 := Returned] && s.p.started == 1 && s.p.late == s.p.queueFull == 0
    requires s.w.pc.Stopped? && s.w.queue == [0] && s.w.batch == [] && s.w.failedWrites == 0
    requires s.w.committed == s.w.runtimeLost == 0 && !s.w.quiescent
    requires s.c == INITIAL.c.(closers := map[0 := Publishing], requested := true)
    ensures Run(s, ABANDON_PUBLISH) == Some(t)
    ensures t.p == s.p && t.w == s.w && t.c.snap.Published? && t.c.report.finalFlush == 1
    ensures t.c.stoppedAtSeal && t.c.seen.started == t.c.returnedAtSeal
  {
    var c1 := SnapshotMove(s, s.c);
    var s1 := s.(c := c1);
    var c2 := SnapshotMove(s1, c1);
    var s2 := s.(c := c2);
    var c3 := SnapshotMove(s2, c2);
    var s3 := s.(c := c3);
    var c4 := SnapshotMove(s3, c3);
    var s4 := s.(c := c4);
    var c5 := SnapshotMove(s4, c4);
    t := s.(c := c5);
    hide Step;
    assert ReturnedCalls(s.p) == s.p.procs.Keys;
    RunFive(s, ABANDON_PUBLISH, s1, s2, s3, s4, t);
  }

  lemma RunFive(s0: State, a: seq<Action>, s1: State, s2: State, s3: State, s4: State, s5: State)
    requires |a| == 5 && Step(s0, a[0]) == Some(s1) && Step(s1, a[1]) == Some(s2) && Step(s2, a[2]) == Some(s3)
    requires Step(s3, a[3]) == Some(s4) && Step(s4, a[4]) == Some(s5)
    ensures Run(s0, a) == Some(s5)
  {
    hide Step;
    assert Run(s4, a[4..]) == Some(s5) by { assert a[4..][1..] == []; }
    assert a[3..][1..] == a[4..] && a[2..][1..] == a[3..] && a[1..][1..] == a[2..];
    assert Run(s3, a[3..]) == Some(s5);
    assert Run(s2, a[2..]) == Some(s5);
    assert Run(s1, a[1..]) == Some(s5);
  }

  /** No write failed, cleanup finished before the snapshot and no call was in flight, yet
      one Turn is reported lost: an abandoned wait for producers leaves it in the queue. */
  lemma AbandonedWaitLosesTurn() returns (t: State)
    ensures Run(INITIAL, ABANDON_ENTER + ABANDON_FINISH + ABANDON_PUBLISH) == Some(t)
    ensures t.c.snap.Published? && t.w.failedWrites == 0 && t.c.stoppedAtSeal
    ensures t.c.seen.started == t.c.returnedAtSeal && !t.w.quiescent
    ensures t.c.report.finalFlush == 1
  {
    hide Step, Run;
    var s := AbandonEnter();
    var u := AbandonFinish(s);
    t := AbandonPublish(u);
    RunSplit(INITIAL, ABANDON_ENTER, ABANDON_FINISH, s);
    RunSplit(INITIAL, ABANDON_ENTER + ABANDON_FINISH, ABANDON_PUBLISH, u);
  }
}
