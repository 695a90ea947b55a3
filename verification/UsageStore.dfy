/** The usage store's writer protocol (internal/usage/sqlitestore/store.go).

    Any number of Record calls, one writer goroutine and any number of Close calls share
    atomic counters, a bounded queue and a seal.  The protocol is a step function: an action
    names who moves, and every atomic operation of the Go code is one step, so a sequence of
    actions is one interleaving.  A Record call is identified with the Turn it carries.
    SQL is an oracle: the action that ends a write says whether the batch was committed.
    Fields marked "history" record what happened and never steer a step. */
module UsageStore {
  import opened Wrappers

  const QUEUE_CAPACITY := 1024
  const BATCH_CAPACITY := 128
  const TWO_64 := 0x1_0000_0000_0000_0000

  type CallId = nat
  type CloserId = nat

  // The next atomic operation of one Record call.
  datatype RecordPc =
    | Entered        // first admission load
    | RejectedEarly  // count the late drop, before joining the producers
    | Admitted       // join the producers
    | Counted        // second admission load
    | RejectedLate   // count the late drop, as a producer
    | Sending        // non-blocking send
    | Refused        // count the queue-full drop
    | Leaving        // deferred producers.Add(-1)
    | Returned

  datatype Producers = Producers(
    procs: map<CallId, RecordPc>,
    admitting: bool,
    active: int,                       // the producers counter
    started: nat, queueFull: nat, late: nat,
    window: set<CallId>,               // history: calls inside the producers window
    lateIds: set<CallId>, fullIds: set<CallId>, enqueued: set<CallId>)  // history: outcomes

  datatype WriterPc =
    | Collecting
    | RuntimeWrite
    | RuntimeSettle(ok: bool)
    | Waiting             // waitForProducers
    | DrainTop
    | Filling(owed: nat)  // receives still owed to the current batch
    | FinalWrite
    | FinalSettle(ok: bool)
    | Discarding          // drainCount
    | CleaningUp
    | Stopped

  datatype Writer = Writer(
    pc: WriterPc,
    queue: seq<CallId>, batch: seq<CallId>,
    cleanupOk: bool,
    committed: nat, runtimeLost: nat,
    committedIds: set<CallId>, lostIds: set<CallId>,  // history: settled Turns
    forfeited: set<CallId>,            // history: taken, but no counter may say so any more
    handed: seq<seq<CallId>>,          // history: every batch given to writeBatch
    quiescent: bool,                   // history: waitForProducers saw zero
    failedWrites: nat)                 // history

  datatype ClosePc = Requesting | Awaiting | Publishing | Closed(report: Report)

  datatype SnapshotPc = NotStarted | CleanupSampled | Sealed | FullSampled | LateSampled | Published

  datatype Samples = Samples(cleanup: bool, committed: nat, runtimeLost: nat, queueFull: nat, late: nat, started: nat)

  datatype Report = Report(queueFull: int, runtimeLost: int, late: int, finalFlush: int, cleanup: bool)

  // History: the calls each sampled counter had counted.
  datatype Observed = Observed(committed: set<CallId>, lost: set<CallId>, full: set<CallId>, late: set<CallId>, started: set<CallId>)
  {
    function Settled(): set<CallId> { committed + lost + full + late }
  }

  datatype Closing = Closing(
    closers: map<CloserId, ClosePc>, runner: Option<CloserId>,
    requested: bool, snap: SnapshotPc, samples: Samples, report: Report,
    seen: Observed,
    stoppedAtSeal: bool, returnedAtSeal: set<CallId>, leftAtSeal: set<CallId>)  // history
  {
    predicate Sealed() { !snap.NotStarted? && !snap.CleanupSampled? }
  }

  datatype State = State(p: Producers, w: Writer, c: Closing)

  datatype Action =
    | Record(call: CallId)
    | StopAdmission
    | Receive | BeginFlush | EndWrite(ok: bool) | Settle
    | TakeFinalize | SeeZero | Abandon | BeginFill | Pop | EndFill | Discard | Cleanup(ok: bool)
    | Close(closer: CloserId) | GiveUp(closer: CloserId)

  function Ids(s: seq<CallId>): set<CallId> { set c | c in s }

  predicate Distinct(s: seq<CallId>) { forall i, j :: 0 <= i < j < |s| ==> s[i] != s[j] }

  const INITIAL := State(
    Producers(map[], true, 0, 0, 0, 0, {}, {}, {}, {}),
    Writer(Collecting, [], [], false, 0, 0, {}, {}, {}, [], false, 0),
    Closing(map[], None, false, NotStarted, Samples(false, 0, 0, 0, 0, 0), Report(0, 0, 0, 0, false),
            Observed({}, {}, {}, {}, {}), false, {}, {}))

  // ------------------------------------------------------------------ steps

  /** One atomic operation of Record; an unknown call enters.  The flag says that the
      call sends its Turn, which succeeds exactly when the queue has room. */
  function RecordStep(p: Producers, c: CallId, room: bool): Option<(Producers, bool)> {
    if c !in p.procs then Some((p.(procs := p.procs[c := Entered], started := p.started + 1), false))
    else match p.procs[c]
      case Entered => Some((p.(procs := p.procs[c := if p.admitting then Admitted else RejectedEarly]), false))
      case RejectedEarly =>
        Some((p.(procs := p.procs[c := Returned], late := p.late + 1, lateIds := p.lateIds + {c}), false))
      case Admitted =>
        Some((p.(procs := p.procs[c := Counted], active := p.active + 1, window := p.window + {c}), false))
      case Counted => Some((p.(procs := p.procs[c := if p.admitting then Sending else RejectedLate]), false))
      case RejectedLate =>
        Some((p.(procs := p.procs[c := Leaving], late := p.late + 1, lateIds := p.lateIds + {c}), false))
      case Sending =>
        if room then Some((p.(procs := p.procs[c := Leaving], enqueued := p.enqueued + {c}), true))
        else Some((p.(procs := p.procs[c := Refused]), false))
      case Refused =>
        Some((p.(procs := p.procs[c := Leaving], queueFull := p.queueFull + 1, fullIds := p.fullIds + {c}), false))
      case Leaving =>
        Some((p.(procs := p.procs[c := Returned], active := p.active - 1, window := p.window - {c}), false))
      case Returned => None
  }

  /** writeBatch is called with the current batch. */
  function HandOver(w: Writer, next: WriterPc): Writer {
    w.(pc := next, handed := w.handed + [w.batch])
  }

  /** Turns that leave the batch uncounted: outcomes are sealed, or the final write failed. */
  function Forfeit(w: Writer, next: WriterPc): Writer {
    w.(pc := next, batch := [], forfeited := w.forfeited + Ids(w.batch))
  }

  function SettleCommitted(w: Writer, sealed: bool, next: WriterPc): Writer {
    if sealed then Forfeit(w, next)
    else w.(pc := next, committed := w.committed + |w.batch|, batch := [], committedIds := w.committedIds + Ids(w.batch))
  }

  function SettleRuntimeFailure(w: Writer, sealed: bool, next: WriterPc): Writer {
    if sealed then Forfeit(w, next)
    else w.(pc := next, runtimeLost := w.runtimeLost + |w.batch|, batch := [], lostIds := w.lostIds + Ids(w.batch))
  }

  function Min(a: int, b: int): int { if a < b then a else b }

  /** One operation of the runWriter loop. */
  function RuntimeStep(w: Writer, a: Action, requested: bool, sealed: bool): Option<Writer> {
    match a
    case Receive =>
      if w.pc.Collecting? && |w.batch| < BATCH_CAPACITY && w.queue != []
      then Some(w.(batch := w.batch + [w.queue[0]], queue := w.queue[1..])) else None
    case BeginFlush =>
      if w.pc.Collecting? && w.batch != [] then Some(HandOver(w, RuntimeWrite)) else None
    case EndWrite(ok) =>
      if w.pc.RuntimeWrite?
      then Some(w.(pc := RuntimeSettle(ok), failedWrites := w.failedWrites + if ok then 0 else 1)) else None
    case Settle =>
      if w.pc.RuntimeSettle?
      then Some(if w.pc.ok then SettleCommitted(w, sealed, Collecting) else SettleRuntimeFailure(w, sealed, Collecting))
      else None
    case TakeFinalize => if w.pc.Collecting? && requested then Some(w.(pc := Waiting)) else None
    case _ => None
  }

  /** One operation of finish and cleanup.  The wait for producers may be abandoned whatever the
      count is by then: it was read before the context was found done. */
  function FinishStep(w: Writer, a: Action, active: int, sealed: bool): Option<Writer> {
    match a
    case SeeZero => if w.pc.Waiting? && active == 0 then Some(w.(pc := DrainTop, quiescent := true)) else None
    case Abandon => if w.pc.Waiting? then Some(w.(pc := CleaningUp)) else None
    case BeginFill =>
      if w.pc.DrainTop? && |w.batch| <= BATCH_CAPACITY
      then Some(w.(pc := Filling(Min(BATCH_CAPACITY - |w.batch|, |w.queue|)))) else None
    case Pop =>
      if w.pc.Filling? && w.pc.owed > 0 && w.queue != []
      then Some(w.(pc := Filling(w.pc.owed - 1), batch := w.batch + [w.queue[0]], queue := w.queue[1..]))
      else None
    case EndFill =>
      if w.pc.Filling? && w.pc.owed == 0
      then Some(if w.batch == [] then w.(pc := CleaningUp) else HandOver(w, FinalWrite)) else None
    case EndWrite(ok) =>
      if w.pc.FinalWrite?
      then Some(w.(pc := FinalSettle(ok), failedWrites := w.failedWrites + if ok then 0 else 1)) else None
    case Settle =>
      if w.pc.FinalSettle?
      then Some(if w.pc.ok then SettleCommitted(w, sealed, DrainTop) else Forfeit(w, Discarding))
      else None
    case Discard =>
      if !w.pc.Discarding? then None
      else if w.queue == [] then Some(w.(pc := CleaningUp))
      else Some(w.(queue := w.queue[1..], forfeited := w.forfeited + {w.queue[0]}))
    case Cleanup(ok) => if w.pc.CleaningUp? then Some(w.(pc := Stopped, cleanupOk := ok)) else None
    case _ => None
  }

  // uint64 subtraction wraps.
  function Sub64(a: int, b: int): int { (a - b) % TWO_64 }

  function ReportOf(x: Samples): Report {
    Report(x.queueFull, x.runtimeLost, x.late,
           Sub64(Sub64(Sub64(Sub64(x.started, x.queueFull), x.late), x.committed), x.runtimeLost), x.cleanup)
  }

  function ReturnedCalls(p: Producers): set<CallId> { set c | c in p.procs && p.procs[c].Returned? }

  /** publishFinal: sample cleanup, seal and sample the writer's outcomes under one lock,
      then sample the rejections and, last, the started calls. */
  function SnapshotStep(c: Closing, p: Producers, w: Writer): Option<Closing> {
    match c.snap
    case NotStarted =>
      Some(c.(snap := CleanupSampled, samples := c.samples.(cleanup := w.pc.Stopped? && w.cleanupOk)))
    case CleanupSampled =>
      Some(c.(snap := Sealed,
              samples := c.samples.(committed := w.committed, runtimeLost := w.runtimeLost),
              seen := c.seen.(committed := w.committedIds, lost := w.lostIds),
              stoppedAtSeal := w.pc.Stopped?, returnedAtSeal := ReturnedCalls(p),
              leftAtSeal := Ids(w.queue) + Ids(w.batch)))
    case Sealed =>
      Some(c.(snap := FullSampled, samples := c.samples.(queueFull := p.queueFull), seen := c.seen.(full := p.fullIds)))
    case FullSampled =>
      Some(c.(snap := LateSampled, samples := c.samples.(late := p.late), seen := c.seen.(late := p.lateIds)))
    case LateSampled =>
      var x := c.samples.(started := p.started);
      Some(c.(snap := Published, samples := x, report := ReportOf(x), seen := c.seen.(started := p.procs.Keys)))
    case Published => None
  }

  /** One operation of a Close call that has cut off admission: request finalization once,
      wait, publish once, return the published report. */
  function CloseStep(c: Closing, k: CloserId, p: Producers, w: Writer): Option<Closing>
    requires k in c.closers
  {
    match c.closers[k]
    case Requesting => Some(c.(requested := true, closers := c.closers[k := Awaiting]))
    case Awaiting => if w.pc.Stopped? then Some(c.(closers := c.closers[k := Publishing])) else None
    case Publishing =>
      if c.snap.Published? then Some(c.(closers := c.closers[k := Closed(c.report)]))
      else if c.runner == None || c.runner == Some(k) then SnapshotStep(c.(runner := Some(k)), p, w)
      else None
    case Closed(_) => None
  }

  /** Producers change, and a sent Turn enters the queue. */
  function Produce(s: State, c: CallId, next: (Producers, bool)): State {
    State(next.0, if next.1 then s.w.(queue := s.w.queue + [c]) else s.w, s.c)
  }

  function Step(s: State, a: Action): Option<State> {
    match a
    case Record(c) =>
      (match RecordStep(s.p, c, |s.w.queue| < QUEUE_CAPACITY)
       case None => None
       case Some(next) => Some(Produce(s, c, next)))
    case StopAdmission => Some(s.(p := s.p.(admitting := false)))
    case Close(k) =>
      if k !in s.c.closers
      then Some(s.(p := s.p.(admitting := false), c := s.c.(closers := s.c.closers[k := Requesting])))
      else (match CloseStep(s.c, k, s.p, s.w)
            case None => None
            case Some(c) => Some(s.(c := c)))
    case GiveUp(k) =>  // the closer's context is done
      if k in s.c.closers && s.c.closers[k].Awaiting?
      then Some(s.(c := s.c.(closers := s.c.closers[k := Publishing]))) else None
    case _ =>
      match RuntimeStep(s.w, a, s.c.requested, s.c.Sealed())
      case Some(w) => Some(s.(w := w))
      case None =>
        match FinishStep(s.w, a, s.p.active, s.c.Sealed())
        case Some(w) => Some(s.(w := w))
        case None => None
  }

  /** The state after a run, or None when some action was not possible. */
  function Run(s: State, run: seq<Action>): Option<State>
    decreases |run|
  {
    if run == [] then Some(s)
    else match Step(s, run[0])
      case None => None
      case Some(next) => Run(next, run[1..])
  }

  // ------------------------------------------------------------- invariants

  predicate InWindow(pc: RecordPc) { pc.Counted? || pc.RejectedLate? || pc.Sending? || pc.Refused? || pc.Leaving? }

  predicate Finished(pc: RecordPc) { pc.Leaving? || pc.Returned? }

  /** Every producer-side counter equals the number of calls it stands for. */
  ghost predicate CountersInv(p: Producers) {
    && p.started == |p.procs.Keys| && p.active == |p.window|
    && p.late == |p.lateIds| && p.queueFull == |p.fullIds|
  }

  ghost predicate WindowInv(p: Producers) {
    forall c :: c in p.window <==> c in p.procs && InWindow(p.procs[c])
  }

  /** A call has an outcome exactly when its program counter is past it, and only one. */
  ghost predicate OutcomeInv(p: Producers) {
    && (forall c :: c in p.procs && Finished(p.procs[c]) ==> c in p.lateIds || c in p.fullIds || c in p.enqueued)
    && (forall c :: c in p.lateIds ==> c in p.procs && Finished(p.procs[c]) && c !in p.fullIds && c !in p.enqueued)
    && (forall c :: c in p.fullIds ==> c in p.procs && Finished(p.procs[c]) && c !in p.enqueued)
    && (forall c :: c in p.enqueued ==> c in p.procs && Finished(p.procs[c]))
  }

  predicate Writing(pc: WriterPc) {
    pc.RuntimeWrite? || pc.RuntimeSettle? || pc.FinalWrite? || pc.FinalSettle?
  }

  predicate Draining(pc: WriterPc) {
    pc.DrainTop? || pc.Filling? || pc.FinalWrite? || pc.FinalSettle? || pc.Discarding?
  }

  predicate Ending(pc: WriterPc) { pc.CleaningUp? || pc.Stopped? }

  /** The Turns the writer has settled one way or another. */
  function Done(w: Writer): set<CallId> { w.committedIds + w.lostIds + w.forfeited }

  ghost predicate SettledInv(w: Writer) {
    && w.committed == |w.committedIds| && w.runtimeLost == |w.lostIds|
    && w.committedIds !! w.lostIds && w.committedIds !! w.forfeited && w.lostIds !! w.forfeited
  }

  /** A Turn taken over from a producer is in exactly one place. */
  ghost predicate TurnsInv(w: Writer) {
    && Ids(w.queue) !! Ids(w.batch) && Ids(w.queue) !! Done(w) && Ids(w.batch) !! Done(w)
    && Distinct(w.queue) && Distinct(w.batch)
  }

  ghost predicate BoundsInv(w: Writer) {
    && |w.queue| <= QUEUE_CAPACITY && |w.batch| <= BATCH_CAPACITY
    && (Writing(w.pc) ==> w.batch != [])
    && (w.pc.Discarding? ==> w.batch == [])
    && (w.pc.Filling? ==> w.pc.owed <= |w.queue| && w.pc.owed + |w.batch| <= BATCH_CAPACITY)
  }

  function Owned(w: Writer): set<CallId> { Ids(w.queue) + Ids(w.batch) + Done(w) }

  /** Batches given to the database are bounded, duplicate-free and pairwise disjoint. */
  ghost predicate BatchesInv(w: Writer) {
    && (forall i :: 0 <= i < |w.handed| ==> 0 < |w.handed[i]| <= BATCH_CAPACITY && Distinct(w.handed[i]))
    && (forall i, j :: 0 <= i < j < |w.handed| ==> Ids(w.handed[i]) !! Ids(w.handed[j]))
    && (Writing(w.pc) ==> |w.handed| > 0 && w.handed[|w.handed| - 1] == w.batch)
    && (forall i :: 0 <= i < Written(w) ==> Ids(w.handed[i]) <= Done(w))
  }

  /** How many handed batches have left the writer's hands. */
  function Written(w: Writer): int { if Writing(w.pc) then |w.handed| - 1 else |w.handed| }

  ghost predicate PlacesInv(w: Writer) { SettledInv(w) && TurnsInv(w) && BatchesInv(w) }

  lemma IdsFacts(s: seq<CallId>, x: CallId)
    ensures Ids(s + [x]) == Ids(s) + {x}
    ensures Distinct(s) && x !in Ids(s) ==> Distinct(s + [x])
    ensures s != [] ==> Ids(s) == {s[0]} + Ids(s[1..])
    ensures s != [] && Distinct(s) ==> s[0] !in Ids(s[1..]) && Distinct(s[1..])
  {
    assert forall c :: c in s + [x] <==> c in s || c == x;
    if s != [] {
      assert s == [s[0]] + s[1..];
      assert forall c :: c in s <==> c == s[0] || c in s[1..];
    }
  }

  lemma {:induction false} IdsCount(s: seq<CallId>)
    requires Distinct(s)
    ensures |Ids(s)| == |s|
  {
    if s != [] {
      IdsFacts(s, 0);
      IdsCount(s[1..]);
    } else {
      assert Ids(s) == {};
    }
  }

  // ------------------------------------------------ producers keep the invariant

  /** What the invariant says about the one call that moves. */
  ghost predicate Fits(p: Producers, c: CallId) {
    c in p.procs ==>
      && (c in p.window <==> InWindow(p.procs[c]))
      && (!Finished(p.procs[c]) ==> c !in p.lateIds && c !in p.fullIds && c !in p.enqueued)
      && (Finished(p.procs[c]) ==> OneOf(c in p.lateIds, c in p.fullIds, c in p.enqueued))
  }

  predicate OneOf(a: bool, b: bool, c: bool) { (a && !b && !c) || (!a && b && !c) || (!a && !b && c) }

  lemma KeyCount(procs: map<CallId, RecordPc>, c: CallId, pc: RecordPc)
    ensures |procs[c := pc].Keys| == |procs.Keys| + if c in procs then 0 else 1
  {
    assert procs[c := pc].Keys == procs.Keys + {c};
  }

  lemma RecordKeepsStarted(p: Producers, c: CallId, room: bool, p': Producers, sent: bool)
    requires p.started == |p.procs.Keys| && RecordStep(p, c, room) == Some((p', sent))
    ensures p'.started == |p'.procs.Keys|
  {
    KeyCount(p.procs, c, p'.procs[c]);
  }

  ghost predicate Grows(before: set<CallId>, after: set<CallId>, c: CallId) { c !in before && after == before + {c} }

  /** A step changes a counter together with the set of calls it counts. */
  lemma RecordMoves(p: Producers, c: CallId, room: bool, p': Producers, sent: bool)
    requires Fits(p, c) && RecordStep(p, c, room) == Some((p', sent))
    ensures (p'.late == p.late && p'.lateIds == p.lateIds) || (p'.late == p.late + 1 && Grows(p.lateIds, p'.lateIds, c))
    ensures (p'.queueFull == p.queueFull && p'.fullIds == p.fullIds) ||
            (p'.queueFull == p.queueFull + 1 && Grows(p.fullIds, p'.fullIds, c))
    ensures (p'.active == p.active && p'.window == p.window) || (p'.active == p.active + 1 && Grows(p.window, p'.window, c)) ||
            (p'.active == p.active - 1 && c in p.window && p'.window == p.window - {c})
    ensures c in p'.procs && p'.procs == p.procs[c := p'.procs[c]] && p'.admitting == p.admitting
    ensures (p'.enqueued == p.enqueued && !sent) || (sent && room && Grows(p.enqueued, p'.enqueued, c))
    ensures sent ==> c in p.procs && p.procs[c].Sending?
  {}

  lemma RecordKeepsCounters(p: Producers, c: CallId, room: bool, p': Producers, sent: bool)
    requires CountersInv(p) && Fits(p, c) && RecordStep(p, c, room) == Some((p', sent))
    ensures CountersInv(p')
  {
    hide RecordStep, Fits;
    RecordMoves(p, c, room, p', sent);
    RecordKeepsStarted(p, c, room, p', sent);
  }

  lemma RecordFits(p: Producers, c: CallId, room: bool, p': Producers, sent: bool)
    requires Fits(p, c) && (c !in p.procs ==> c !in p.window && c !in p.lateIds && c !in p.fullIds && c !in p.enqueued)
    requires RecordStep(p, c, room) == Some((p', sent))
    ensures Fits(p', c)
  {}

  lemma RecordKeepsCalls(p: Producers, c: CallId, room: bool, p': Producers, sent: bool)
    requires WindowInv(p) && OutcomeInv(p) && RecordStep(p, c, room) == Some((p', sent))
    ensures WindowInv(p') && OutcomeInv(p') && Fits(p, c)
  {
    hide RecordStep, Fits, WindowInv, OutcomeInv;
    CallFits(p, c);
    RecordMoves(p, c, room, p', sent);
    CallNew(p, c);
    RecordFits(p, c, room, p', sent);
    OthersWindow(p, c, p');
    OthersOutcome(p, c, p');
  }

  lemma CallNew(p: Producers, c: CallId)
    requires WindowInv(p) && OutcomeInv(p)
    ensures c !in p.procs ==> c !in p.window && c !in p.lateIds && c !in p.fullIds && c !in p.enqueued
  {
    hide InWindow, Finished;
  }

  /** What the invariant says of one call carries over to all when only that call moved. */
  lemma OthersWindow(p: Producers, c: CallId, p': Producers)
    requires WindowInv(p) && Fits(p', c) && c in p'.procs && p'.procs == p.procs[c := p'.procs[c]]
    requires p'.window - {c} == p.window - {c}
    ensures WindowInv(p')
  {
    hide InWindow, Finished, OneOf;
    forall d ensures d in p'.window <==> d in p'.procs && InWindow(p'.procs[d]) {
      if d != c { assert d in p'.window - {c} <==> d in p.window - {c}; }
    }
  }

  predicate SameBut(a: set<CallId>, b: set<CallId>, c: CallId) { a - {c} == b - {c} }

  lemma SameAt(a: set<CallId>, b: set<CallId>, c: CallId, d: CallId)
    requires SameBut(a, b, c) && d != c
    ensures d in a <==> d in b
  {
    assert d in a - {c} <==> d in b - {c};
  }

  lemma OthersOutcome(p: Producers, c: CallId, p': Producers)
    requires OutcomeInv(p) && Fits(p', c) && c in p'.procs && p'.procs == p.procs[c := p'.procs[c]]
    requires SameBut(p'.lateIds, p.lateIds, c) && SameBut(p'.fullIds, p.fullIds, c) && SameBut(p'.enqueued, p.enqueued, c)
    ensures OutcomeInv(p')
  {
    hide InWindow, Finished, SameBut;
    forall d | d in p'.procs || d in p'.lateIds || d in p'.fullIds || d in p'.enqueued
      ensures d in p'.procs && (Finished(p'.procs[d]) <==> d in p'.lateIds || d in p'.fullIds || d in p'.enqueued)
        && !(d in p'.lateIds && d in p'.fullIds) && !(d in p'.lateIds && d in p'.enqueued) && !(d in p'.fullIds && d in p'.enqueued)
    {
      if d != c {
        SameAt(p'.lateIds, p.lateIds, c, d);
        SameAt(p'.fullIds, p.fullIds, c, d);
        SameAt(p'.enqueued, p.enqueued, c, d);
      }
    }
  }

  lemma CallFits(p: Producers, c: CallId)
    requires WindowInv(p) && OutcomeInv(p)
    ensures Fits(p, c)
  {}

  lemma EnqueueKeeps(w: Writer, c: CallId, w': Writer)
    requires TurnsInv(w) && BoundsInv(w) && BatchesInv(w)
    requires |w.queue| < QUEUE_CAPACITY && c !in Owned(w) && w' == w.(queue := w.queue + [c])
    ensures TurnsInv(w') && BoundsInv(w') && BatchesInv(w') && Owned(w') == Owned(w) + {c}
  {
    IdsFacts(w.queue, c);
  }

  // --------------------------------------------------- the writer keeps the invariant

  lemma UnionCount(a: set<CallId>, b: set<CallId>)
    requires a !! b
    ensures |a + b| == |a| + |b|
  {}

  /** A batch apart from the three outcome sets may join the first of them. */
  lemma Joins(own: set<CallId>, x: set<CallId>, y: set<CallId>, batch: set<CallId>)
    requires own !! x && own !! y && batch !! own + x + y
    ensures own + batch !! x && own + batch !! y && |own + batch| == |own| + |batch|
    ensures (own + batch) + x + y == own + x + y + batch && x + (own + batch) + y == x + own + y + batch
  {
    UnionCount(own, batch);
  }

  lemma CommitKeeps(w: Writer, w': Writer)
    requires SettledInv(w) && TurnsInv(w) && w' == SettleCommitted(w, false, w'.pc)
    ensures SettledInv(w') && Done(w') == Done(w) + Ids(w.batch)
  {
    hide Ids, Distinct;
    IdsCount(w.batch);
    var batch := Ids(w.batch);
    assert w'.committedIds == w.committedIds + batch && w'.lostIds == w.lostIds && w'.forfeited == w.forfeited;
    assert Done(w) == w.committedIds + w.lostIds + w.forfeited && batch !! Done(w);
    Joins(w.committedIds, w.lostIds, w.forfeited, batch);
  }

  lemma LoseKeeps(w: Writer, w': Writer)
    requires SettledInv(w) && TurnsInv(w) && w' == SettleRuntimeFailure(w, false, w'.pc)
    ensures SettledInv(w') && Done(w') == Done(w) + Ids(w.batch)
  {
    hide Ids, Distinct;
    IdsCount(w.batch);
    var batch := Ids(w.batch);
    assert w'.lostIds == w.lostIds + batch && w'.committedIds == w.committedIds && w'.forfeited == w.forfeited;
    assert Done(w) == w.committedIds + w.lostIds + w.forfeited && batch !! Done(w);
    Swapped(w.committedIds, w.lostIds, w.forfeited);
    Joins(w.lostIds, w.committedIds, w.forfeited, batch);
  }

  lemma Swapped(a: set<CallId>, b: set<CallId>, c: set<CallId>)
    ensures a + b + c == b + a + c
  {}

  lemma ForfeitKeeps(w: Writer, w': Writer)
    requires SettledInv(w) && TurnsInv(w) && w' == Forfeit(w, w'.pc)
    ensures SettledInv(w') && Done(w') == Done(w) + Ids(w.batch)
  {}

  /** A settled batch leaves the writer empty-handed; nothing else moves. */
  lemma EmptyHanded(w: Writer, w': Writer)
    requires TurnsInv(w) && w'.batch == [] && w'.queue == w.queue && Done(w') == Done(w) + Ids(w.batch)
    ensures TurnsInv(w') && Owned(w') == Owned(w)
  {
    assert Ids([]) == {};
    hide Done;
  }

  /** The batch is settled: its Turns move from the batch to the settled ones. */
  lemma SettleKeeps(w: Writer, sealed: bool, w': Writer)
    requires SettledInv(w) && TurnsInv(w)
    requires w' == SettleCommitted(w, sealed, w'.pc) || w' == SettleRuntimeFailure(w, sealed, w'.pc) || w' == Forfeit(w, w'.pc)
    ensures SettledInv(w') && TurnsInv(w') && Owned(w') == Owned(w)
    ensures Done(w') == Done(w) + Ids(w.batch) && w'.batch == [] && w'.handed == w.handed && w'.queue == w.queue
  {
    if w' == Forfeit(w, w'.pc) { ForfeitKeeps(w, w'); }
    else if w' == SettleCommitted(w, false, w'.pc) { CommitKeeps(w, w'); }
    else { LoseKeeps(w, w'); }
    EmptyHanded(w, w');
    hide SettledInv, TurnsInv, Owned, Done, Ids;
  }

  lemma BatchSettled(w: Writer, w': Writer)
    requires BatchesInv(w) && Writing(w.pc) && !Writing(w'.pc)
    requires w'.handed == w.handed && Done(w') == Done(w) + Ids(w.batch)
    ensures BatchesInv(w')
  {}

  lemma HandOverKeeps(w: Writer, next: WriterPc)
    requires PlacesInv(w) && BoundsInv(w) && !Writing(w.pc) && w.batch != [] && Writing(next)
    ensures PlacesInv(HandOver(w, next)) && Owned(HandOver(w, next)) == Owned(w)
  {}

  /** Moving the first of the queue behind the batch keeps the places apart and their union. */
  lemma TakeMoves(queue: seq<CallId>, batch: seq<CallId>, done: set<CallId>)
    requires queue != [] && Distinct(queue) && Distinct(batch)
    requires Ids(queue) !! Ids(batch) && Ids(queue) !! done && Ids(batch) !! done
    ensures var rest, more := queue[1..], batch + [queue[0]];
      && Distinct(rest) && Distinct(more)
      && Ids(rest) !! Ids(more) && Ids(rest) !! done && Ids(more) !! done
      && Ids(rest) + Ids(more) + done == Ids(queue) + Ids(batch) + done
  {
    IdsFacts(queue, 0);
    IdsFacts(batch, queue[0]);
    assert queue[0] in Ids(queue);
    hide Ids, Distinct;
  }

  lemma TakeKeeps(w: Writer, w': Writer)
    requires PlacesInv(w) && w.queue != [] && !Writing(w.pc) && !Writing(w'.pc)
    requires w' == w.(pc := w'.pc, batch := w.batch + [w.queue[0]], queue := w.queue[1..])
    ensures PlacesInv(w') && Owned(w') == Owned(w)
  {
    hide Ids, Distinct, BatchesInv;
    TakeMoves(w.queue, w.batch, Done(w));
    SameHanded(w, w');
  }

  /** Between writes the batches handed over do not depend on the queue and the batch in hand. */
  lemma SameHanded(w: Writer, w': Writer)
    requires BatchesInv(w) && !Writing(w.pc) && !Writing(w'.pc) && w'.handed == w.handed && Done(w') == Done(w)
    ensures BatchesInv(w')
  {
    hide Ids, Distinct, Done;
  }

  lemma DiscardKeeps(w: Writer, w': Writer)
    requires SettledInv(w) && TurnsInv(w) && w.queue != []
    requires w' == w.(queue := w.queue[1..], forfeited := w.forfeited + {w.queue[0]})
    ensures SettledInv(w') && TurnsInv(w')
  {
    IdsFacts(w.queue, 0);
  }

  lemma DiscardOwns(w: Writer, w': Writer)
    requires w.queue != []
    requires w' == w.(queue := w.queue[1..], forfeited := w.forfeited + {w.queue[0]})
    ensures Done(w') == Done(w) + {w.queue[0]} && Owned(w') == Owned(w)
  {
    IdsFacts(w.queue, 0);
  }

  lemma RuntimeKeepsBounds(w: Writer, a: Action, requested: bool, sealed: bool, w': Writer)
    requires BoundsInv(w) && RuntimeStep(w, a, requested, sealed) == Some(w')
    ensures BoundsInv(w')
  {}

  lemma FinishKeepsBounds(w: Writer, a: Action, active: int, sealed: bool, w': Writer)
    requires BoundsInv(w) && FinishStep(w, a, active, sealed) == Some(w')
    ensures BoundsInv(w')
  {}

  lemma RuntimeSettleKeeps(w: Writer, requested: bool, sealed: bool, w': Writer)
    requires PlacesInv(w) && RuntimeStep(w, Settle, requested, sealed) == Some(w')
    ensures PlacesInv(w') && Owned(w') == Owned(w)
  {
    hide SettledInv, TurnsInv, BatchesInv, Owned, Done, Ids;
    SettleKeeps(w, sealed, w');
    BatchSettled(w, w');
  }

  lemma FinishSettleKeeps(w: Writer, active: int, sealed: bool, w': Writer)
    requires PlacesInv(w) && FinishStep(w, Settle, active, sealed) == Some(w')
    ensures PlacesInv(w') && Owned(w') == Owned(w)
  {
    hide SettledInv, TurnsInv, BatchesInv, Owned, Done, Ids;
    SettleKeeps(w, sealed, w');
    BatchSettled(w, w');
  }

  lemma RuntimeKeeps(w: Writer, a: Action, requested: bool, sealed: bool, w': Writer)
    requires PlacesInv(w) && BoundsInv(w) && RuntimeStep(w, a, requested, sealed) == Some(w')
    ensures PlacesInv(w') && Owned(w') == Owned(w)
  {
    hide SettledInv, TurnsInv, BatchesInv, Owned, Done, Ids, SettleCommitted, SettleRuntimeFailure;
    match a
    case Receive => TakeKeeps(w, w');
    case BeginFlush => HandOverKeeps(w, RuntimeWrite);
    case Settle => RuntimeSettleKeeps(w, requested, sealed, w');
    case _ => FrameKeeps(w, w');
  }

  lemma FinishDiscardKeeps(w: Writer, active: int, sealed: bool, w': Writer)
    requires PlacesInv(w) && FinishStep(w, Discard, active, sealed) == Some(w') && w.queue != []
    ensures PlacesInv(w') && Owned(w') == Owned(w)
  {
    hide SettledInv, TurnsInv, Owned, Done, Ids;
    DiscardKeeps(w, w');
    DiscardOwns(w, w');
  }

  lemma FrameKeeps(w: Writer, w': Writer)
    requires PlacesInv(w) && Writing(w.pc) == Writing(w'.pc)
    requires w' == w.(pc := w'.pc, cleanupOk := w'.cleanupOk, quiescent := w'.quiescent, failedWrites := w'.failedWrites)
    ensures PlacesInv(w') && Owned(w') == Owned(w)
  {}

  lemma FinishKeeps(w: Writer, a: Action, active: int, sealed: bool, w': Writer)
    requires PlacesInv(w) && BoundsInv(w) && FinishStep(w, a, active, sealed) == Some(w')
    ensures PlacesInv(w') && Owned(w') == Owned(w)
  {
    hide SettledInv, TurnsInv, BatchesInv, Owned, Done, Ids, SettleCommitted, Forfeit;
    match a
    case Pop => TakeKeeps(w, w');
    case EndFill => if w.batch != [] { HandOverKeeps(w, FinalWrite); } else { FrameKeeps(w, w'); }
    case Settle => FinishSettleKeeps(w, active, sealed, w');
    case Discard => if w.queue != [] { FinishDiscardKeeps(w, active, sealed, w'); } else { FrameKeeps(w, w'); }
    case _ => FrameKeeps(w, w');
  }

  // --------------------------------------------- admission, snapshot, seal, losses

  ghost predicate ProducersInv(p: Producers) { CountersInv(p) && WindowInv(p) && OutcomeInv(p) }

  ghost predicate NoSender(p: Producers) { forall c :: c in p.procs ==> !p.procs[c].Sending? }

  /** Finalization starts only after admission closed; quiescence leaves no sender behind,
      and cleanup after quiescence leaves no Turn behind. */
  ghost predicate AdmissionInv(s: State) {
    var w := s.w;
    && ((s.c.requested || s.c.closers != map[]) ==> !s.p.admitting)
    && (w.pc.Waiting? || Ending(w.pc) || Draining(w.pc) ==> s.c.requested)
    && (Draining(w.pc) ==> w.quiescent)
    && (w.quiescent ==> s.c.requested && (Draining(w.pc) || Ending(w.pc)) && NoSender(s.p))
    && (w.quiescent && Ending(w.pc) ==> w.queue == [] && w.batch == [])
    && (w.pc.Filling? && w.batch == [] ==> w.pc.owed == Min(BATCH_CAPACITY, |w.queue|))
  }

  function Rank(snap: SnapshotPc): nat {
    match snap
    case NotStarted => 0 case CleanupSampled => 1 case Sealed => 2
    case FullSampled => 3 case LateSampled => 4 case Published => 5
  }

  /** Samples are past values of the counters, and stand for subsets of the calls. */
  ghost predicate SnapshotInv(c: Closing, p: Producers, w: Writer) {
    && (c.Sealed() ==> c.seen.committed == w.committedIds && c.samples.committed == |w.committedIds|)
    && (c.Sealed() ==> c.seen.lost == w.lostIds && c.samples.runtimeLost == |w.lostIds|)
    && (Rank(c.snap) >= 3 ==> c.seen.full <= p.fullIds && c.samples.queueFull == |c.seen.full|)
    && (Rank(c.snap) >= 4 ==> c.seen.late <= p.lateIds && c.samples.late == |c.seen.late|)
    && (c.snap.Published? ==>
          && c.seen.started <= p.procs.Keys && c.samples.started == |c.seen.started|
          && c.seen.Settled() <= c.seen.started && c.report == ReportOf(c.samples))
  }

  /** Every finished Close returned the one published report. */
  ghost predicate ClosersInv(c: Closing) {
    forall k :: k in c.closers && c.closers[k].Closed? ==> c.snap.Published? && c.closers[k].report == c.report
  }

  /** While no write has failed, a Turn is forfeited only by a settlement after the seal. */
  ghost predicate LossInv(w: Writer, sealed: bool, stoppedAtSeal: bool) {
    && (w.pc.FinalSettle? && !w.pc.ok ==> w.failedWrites > 0)
    && (w.pc.RuntimeSettle? && !w.pc.ok ==> w.failedWrites > 0)
    && (w.pc.Discarding? ==> w.failedWrites > 0)
    && (w.failedWrites == 0 ==> w.lostIds == {})
    && (w.failedWrites == 0 && (!sealed || stoppedAtSeal) ==> w.forfeited == {})
    && (sealed && stoppedAtSeal ==> w.pc.Stopped?)
  }

  /** What the seal found: with the writer stopped and no failed write, every call that had
      returned is counted or was left behind. */
  ghost predicate SealInv(c: Closing, p: Producers, w: Writer) {
    c.Sealed() ==>
      && c.returnedAtSeal <= ReturnedCalls(p)
      && c.leftAtSeal <= p.enqueued
      && (c.stoppedAtSeal && w.quiescent ==> c.leftAtSeal == {})
      && c.leftAtSeal !! w.committedIds
      && (c.stoppedAtSeal && w.failedWrites == 0 ==>
            c.returnedAtSeal <= p.lateIds + p.fullIds + w.committedIds + c.leftAtSeal)
      && (Rank(c.snap) >= 3 ==> c.returnedAtSeal * p.fullIds <= c.seen.full)
      && (Rank(c.snap) >= 4 ==> c.returnedAtSeal * p.lateIds <= c.seen.late)
      && (c.snap.Published? ==> c.leftAtSeal <= c.seen.started)
  }

  ghost predicate Inv(s: State) {
    && ProducersInv(s.p) && PlacesInv(s.w) && BoundsInv(s.w) && s.p.enqueued == Owned(s.w)
    && AdmissionInv(s) && SnapshotInv(s.c, s.p, s.w) && ClosersInv(s.c)
    && LossInv(s.w, s.c.Sealed(), s.c.stoppedAtSeal) && SealInv(s.c, s.p, s.w)
  }

  // ---- a Record step

  /** Outcomes only accumulate, and a call that has returned gains none. */
  ghost predicate Advances(p: Producers, p': Producers) {
    && p.fullIds <= p'.fullIds && p.lateIds <= p'.lateIds && p.enqueued <= p'.enqueued
    && p.procs.Keys <= p'.procs.Keys && ReturnedCalls(p) <= ReturnedCalls(p')
    && ReturnedCalls(p) * p'.fullIds <= p.fullIds && ReturnedCalls(p) * p'.lateIds <= p.lateIds
  }

  lemma RecordReturned(p: Producers, c: CallId, room: bool, p': Producers, sent: bool)
    requires RecordStep(p, c, room) == Some((p', sent))
    ensures c in p.procs ==> !p.procs[c].Returned?
  {}

  lemma RecordAdvances(p: Producers, c: CallId, room: bool, p': Producers, sent: bool)
    requires WindowInv(p) && OutcomeInv(p) && RecordStep(p, c, room) == Some((p', sent))
    ensures Advances(p, p')
  {
    hide RecordStep;
    CallFits(p, c);
    RecordReturned(p, c, room, p', sent);
    RecordMoves(p, c, room, p', sent);
  }

  lemma AdvanceKeepsSnapshot(c: Closing, p: Producers, w: Writer, p': Producers)
    requires SnapshotInv(c, p, w) && SealInv(c, p, w) && Advances(p, p')
    ensures SnapshotInv(c, p', w) && SealInv(c, p', w)
  {
    hide ReturnedCalls;
  }

  lemma RecordNoSender(p: Producers, c: CallId, room: bool, p': Producers, sent: bool)
    requires NoSender(p) && !p.admitting && RecordStep(p, c, room) == Some((p', sent))
    ensures NoSender(p') && !sent
  {}

  lemma RecordKeepsAdmission(s: State, c: CallId, next: (Producers, bool))
    requires WindowInv(s.p) && OutcomeInv(s.p) && AdmissionInv(s)
    requires RecordStep(s.p, c, |s.w.queue| < QUEUE_CAPACITY) == Some(next)
    ensures AdmissionInv(Produce(s, c, next))
  {
    hide RecordStep, WindowInv, OutcomeInv;
    CallFits(s.p, c);
    RecordMoves(s.p, c, |s.w.queue| < QUEUE_CAPACITY, next.0, next.1);
    if s.w.quiescent {
      RecordNoSender(s.p, c, |s.w.queue| < QUEUE_CAPACITY, next.0, next.1);
    }
  }

  lemma RecordKeeps(s: State, c: CallId, next: (Producers, bool))
    requires Inv(s) && RecordStep(s.p, c, |s.w.queue| < QUEUE_CAPACITY) == Some(next)
    ensures Inv(Produce(s, c, next))
  {
    hide RecordStep, CountersInv, WindowInv, OutcomeInv, Fits, SettledInv, TurnsInv, BatchesInv, BoundsInv,
         AdmissionInv, SnapshotInv, SealInv, LossInv, ClosersInv, Advances, Owned, Ids;
    var room := |s.w.queue| < QUEUE_CAPACITY;
    RecordKeepsCalls(s.p, c, room, next.0, next.1);
    RecordKeepsCounters(s.p, c, room, next.0, next.1);
    RecordMoves(s.p, c, room, next.0, next.1);
    RecordKeepsAdmission(s, c, next);
    RecordAdvances(s.p, c, room, next.0, next.1);
    AdvanceKeepsSnapshot(s.c, s.p, s.w, next.0);
    if next.1 {
      EnqueueKeeps(s.w, c, s.w.(queue := s.w.queue + [c]));
      EnqueueFrame(s.w, c, s.c, next.0);
    }
  }

  /** Only the queue changed, so nothing else the invariant reads did. */
  lemma EnqueueFrame(w: Writer, c: CallId, closing: Closing, p: Producers)
    requires SettledInv(w) && SnapshotInv(closing, p, w) && SealInv(closing, p, w)
    requires LossInv(w, closing.Sealed(), closing.stoppedAtSeal)
    ensures var w' := w.(queue := w.queue + [c]);
      && SettledInv(w') && SnapshotInv(closing, p, w') && SealInv(closing, p, w')
      && LossInv(w', closing.Sealed(), closing.stoppedAtSeal)
  {}

  // ---- a writer step

  lemma RuntimeKeepsAdmission(s: State, a: Action, w: Writer)
    requires AdmissionInv(s) && RuntimeStep(s.w, a, s.c.requested, s.c.Sealed()) == Some(w)
    ensures AdmissionInv(s.(w := w))
  {}

  lemma NobodySending(p: Producers)
    requires WindowInv(p) && p.active == |p.window| == 0
    ensures NoSender(p)
  {
    forall c | c in p.procs ensures !p.procs[c].Sending? {
      assert c !in p.window;
    }
  }

  lemma FinishKeepsAdmission(s: State, a: Action, w: Writer)
    requires ProducersInv(s.p) && BoundsInv(s.w) && AdmissionInv(s)
    requires FinishStep(s.w, a, s.p.active, s.c.Sealed()) == Some(w)
    ensures AdmissionInv(s.(w := w))
  {
    hide *;
    if a.SeeZero? { ZeroKeepsAdmission(s, a, w); } else { DrainKeepsAdmission(s, a, w); }
  }

  lemma ZeroKeepsAdmission(s: State, a: Action, w: Writer)
    requires a.SeeZero? && ProducersInv(s.p) && AdmissionInv(s)
    requires FinishStep(s.w, a, s.p.active, s.c.Sealed()) == Some(w)
    ensures AdmissionInv(s.(w := w))
  {
    hide WindowInv, OutcomeInv, Ids, NoSender;
    NobodySending(s.p);
  }

  lemma DrainKeepsAdmission(s: State, a: Action, w: Writer)
    requires !a.SeeZero? && BoundsInv(s.w) && AdmissionInv(s)
    requires FinishStep(s.w, a, s.p.active, s.c.Sealed()) == Some(w)
    ensures AdmissionInv(s.(w := w))
  {
    hide WindowInv, OutcomeInv, Ids, NoSender;
  }

  /** After the seal the writer settles nothing, and a stopped writer never moves. */
  ghost predicate WriterAdvances(w: Writer, w': Writer, sealed: bool) {
    && (sealed ==> w'.committedIds == w.committedIds && w'.lostIds == w.lostIds)
    && (w.quiescent ==> w'.quiescent) && w.failedWrites <= w'.failedWrites
    && !w.pc.Stopped?
  }

  lemma RuntimeAdvances(w: Writer, a: Action, requested: bool, sealed: bool, w': Writer, stoppedAtSeal: bool)
    requires RuntimeStep(w, a, requested, sealed) == Some(w') && LossInv(w, sealed, stoppedAtSeal)
    ensures WriterAdvances(w, w', sealed) && LossInv(w', sealed, stoppedAtSeal)
  {}

  lemma FinishAdvances(w: Writer, a: Action, active: int, sealed: bool, w': Writer, stoppedAtSeal: bool)
    requires FinishStep(w, a, active, sealed) == Some(w') && LossInv(w, sealed, stoppedAtSeal)
    ensures WriterAdvances(w, w', sealed) && LossInv(w', sealed, stoppedAtSeal)
  {}

  lemma WriterAdvanceKeeps(c: Closing, p: Producers, w: Writer, w': Writer)
    requires SnapshotInv(c, p, w) && SealInv(c, p, w) && LossInv(w, c.Sealed(), c.stoppedAtSeal)
    requires WriterAdvances(w, w', c.Sealed())
    ensures SnapshotInv(c, p, w') && SealInv(c, p, w')
  {
    hide ReturnedCalls;
  }

  lemma RuntimeStepKeeps(s: State, a: Action, w: Writer)
    requires Inv(s) && RuntimeStep(s.w, a, s.c.requested, s.c.Sealed()) == Some(w)
    ensures Inv(s.(w := w))
  {
    hide RuntimeStep, CountersInv, WindowInv, OutcomeInv, PlacesInv, BoundsInv,
         AdmissionInv, SnapshotInv, SealInv, LossInv, ClosersInv, WriterAdvances, Owned;
    RuntimeKeepsBounds(s.w, a, s.c.requested, s.c.Sealed(), w);
    RuntimeKeeps(s.w, a, s.c.requested, s.c.Sealed(), w);
    RuntimeKeepsAdmission(s, a, w);
    RuntimeAdvances(s.w, a, s.c.requested, s.c.Sealed(), w, s.c.stoppedAtSeal);
    WriterAdvanceKeeps(s.c, s.p, s.w, w);
  }

  lemma FinishStepKeeps(s: State, a: Action, w: Writer)
    requires Inv(s) && FinishStep(s.w, a, s.p.active, s.c.Sealed()) == Some(w)
    ensures Inv(s.(w := w))
  {
    hide FinishStep, CountersInv, WindowInv, OutcomeInv, PlacesInv, BoundsInv,
         AdmissionInv, SnapshotInv, SealInv, LossInv, ClosersInv, WriterAdvances, Owned;
    FinishKeepsBounds(s.w, a, s.p.active, s.c.Sealed(), w);
    FinishKeeps(s.w, a, s.p.active, s.c.Sealed(), w);
    FinishKeepsAdmission(s, a, w);
    FinishAdvances(s.w, a, s.p.active, s.c.Sealed(), w, s.c.stoppedAtSeal);
    WriterAdvanceKeeps(s.c, s.p, s.w, w);
  }

  // ---- a Close step

  lemma SealTakes(c: Closing, p: Producers, w: Writer)
    requires c.snap.CleanupSampled? && ProducersInv(p) && PlacesInv(w) && p.enqueued == Owned(w)
    requires LossInv(w, false, c.stoppedAtSeal) && (w.quiescent && w.pc.Stopped? ==> w.queue == [] && w.batch == [])
    ensures var c' := SnapshotStep(c, p, w).value;
      SnapshotInv(c', p, w) && SealInv(c', p, w) && LossInv(w, c'.Sealed(), c'.stoppedAtSeal)
  {
    hide SnapshotInv, SealInv, LossInv, CountersInv, WindowInv, OutcomeInv, SettledInv, TurnsInv, BatchesInv, Owned, SnapshotStep;
    SealSamples(c, p, w);
    SealLeaves(c, p, w);
    SealLoses(c, p, w);
  }

  lemma SealSamples(c: Closing, p: Producers, w: Writer)
    requires c.snap.CleanupSampled? && SettledInv(w)
    ensures SnapshotInv(SnapshotStep(c, p, w).value, p, w)
  {
    hide ReturnedCalls, Ids;
  }

  lemma SealLoses(c: Closing, p: Producers, w: Writer)
    requires c.snap.CleanupSampled? && LossInv(w, false, c.stoppedAtSeal)
    ensures var c' := SnapshotStep(c, p, w).value; LossInv(w, c'.Sealed(), c'.stoppedAtSeal)
  {
    hide ReturnedCalls, Ids;
  }

  lemma SealLeaves(c: Closing, p: Producers, w: Writer)
    requires c.snap.CleanupSampled? && OutcomeInv(p) && TurnsInv(w) && p.enqueued == Owned(w)
    requires LossInv(w, false, c.stoppedAtSeal) && (w.quiescent && w.pc.Stopped? ==> w.queue == [] && w.batch == [])
    ensures SealInv(SnapshotStep(c, p, w).value, p, w)
  {
    hide Distinct, Finished;
    ReturnedHaveOutcomes(p);
  }

  lemma ReturnedHaveOutcomes(p: Producers)
    requires OutcomeInv(p)
    ensures ReturnedCalls(p) <= p.lateIds + p.fullIds + p.enqueued
  {}

  lemma SnapshotKeeps(c: Closing, p: Producers, w: Writer, c': Closing)
    requires ProducersInv(p) && PlacesInv(w) && p.enqueued == Owned(w) && (c.snap.CleanupSampled? ==> !c.Sealed())
    requires SnapshotInv(c, p, w) && SealInv(c, p, w) && LossInv(w, c.Sealed(), c.stoppedAtSeal)
    requires w.quiescent && w.pc.Stopped? ==> w.queue == [] && w.batch == []
    requires SnapshotStep(c, p, w) == Some(c')
    ensures SnapshotInv(c', p, w) && SealInv(c', p, w) && LossInv(w, c'.Sealed(), c'.stoppedAtSeal)
  {
    if c.snap.CleanupSampled? {
      hide SnapshotStep, SnapshotInv, SealInv, PlacesInv;
      SealTakes(c, p, w);
    } else {
      hide PlacesInv, WindowInv, ReturnedCalls;
      SampleKeeps(c, p, w, c');
    }
  }

  lemma OutcomesAreCalls(p: Producers, w: Writer)
    requires OutcomeInv(p) && p.enqueued == Owned(w)
    ensures p.fullIds <= p.procs.Keys && p.lateIds <= p.procs.Keys && p.enqueued <= p.procs.Keys
    ensures w.committedIds <= p.procs.Keys && w.lostIds <= p.procs.Keys
  {
    hide Ids;
  }

  lemma SampleKeeps(c: Closing, p: Producers, w: Writer, c': Closing)
    requires CountersInv(p) && OutcomeInv(p) && p.enqueued == Owned(w) && !c.snap.CleanupSampled?
    requires SnapshotInv(c, p, w) && SealInv(c, p, w) && LossInv(w, c.Sealed(), c.stoppedAtSeal)
    requires SnapshotStep(c, p, w) == Some(c')
    ensures SnapshotInv(c', p, w) && SealInv(c', p, w) && LossInv(w, c'.Sealed(), c'.stoppedAtSeal)
  {
    OutcomesAreCalls(p, w);
    SampleKeepsSnapshot(c, p, w, c');
    SampleKeepsSeal(c, p, w, c');
    hide *;
  }

  lemma SampleKeepsSnapshot(c: Closing, p: Producers, w: Writer, c': Closing)
    requires CountersInv(p) && !c.snap.CleanupSampled? && SnapshotInv(c, p, w) && SnapshotStep(c, p, w) == Some(c')
    requires p.fullIds <= p.procs.Keys && p.lateIds <= p.procs.Keys
    requires w.committedIds <= p.procs.Keys && w.lostIds <= p.procs.Keys
    ensures SnapshotInv(c', p, w)
  {
    hide ReportOf;
  }

  lemma SampleKeepsSeal(c: Closing, p: Producers, w: Writer, c': Closing)
    requires !c.snap.CleanupSampled? && p.enqueued <= p.procs.Keys && SnapshotStep(c, p, w) == Some(c')
    requires SealInv(c, p, w) && LossInv(w, c.Sealed(), c.stoppedAtSeal)
    ensures SealInv(c', p, w) && LossInv(w, c'.Sealed(), c'.stoppedAtSeal)
  {
    hide ReturnedCalls;
  }

  lemma CloseKeeps(s: State, k: CloserId, c: Closing)
    requires Inv(s) && k in s.c.closers && CloseStep(s.c, k, s.p, s.w) == Some(c)
    ensures Inv(s.(c := c))
  {
    hide CountersInv, WindowInv, OutcomeInv, PlacesInv, BoundsInv, SnapshotInv, SealInv, LossInv, Owned, SnapshotStep, NoSender;
    if s.c.closers[k].Publishing? && !s.c.snap.Published? {
      var c0 := s.c.(runner := Some(k));
      RunnerFrame(s.c, c0, s.p, s.w);
      SnapshotKeeps(c0, s.p, s.w, c);
      SnapshotFrame(c0, s.p, s.w, c);
    } else {
      RunnerFrame(s.c, c, s.p, s.w);
    }
  }

  /** The invariant does not read who is publishing, nor how far the other closers are. */
  lemma RunnerFrame(c: Closing, c': Closing, p: Producers, w: Writer)
    requires SnapshotInv(c, p, w) && SealInv(c, p, w) && LossInv(w, c.Sealed(), c.stoppedAtSeal)
    requires c' == c.(runner := c'.runner, closers := c'.closers, requested := c'.requested)
    ensures SnapshotInv(c', p, w) && SealInv(c', p, w) && LossInv(w, c'.Sealed(), c'.stoppedAtSeal)
  {
    hide ReturnedCalls;
  }

  lemma SnapshotFrame(c: Closing, p: Producers, w: Writer, c': Closing)
    requires SnapshotStep(c, p, w) == Some(c')
    ensures c'.closers == c.closers && c'.requested == c.requested && !c.snap.Published?
  {
    hide ReturnedCalls, Ids;
  }

  lemma AdmissionStops(s: State, p: Producers, c: Closing)
    requires Inv(s) && p == s.p.(admitting := false)
    requires c == s.c.(closers := c.closers)
    requires forall k :: k in c.closers && c.closers[k].Closed? ==> k in s.c.closers && s.c.closers[k] == c.closers[k]
    ensures Inv(State(p, s.w, c))
  {
    hide CountersInv, PlacesInv, BoundsInv, SnapshotInv, SealInv, LossInv, Owned;
    RunnerFrame(s.c, c, s.p, s.w);
    StopFrame(s.p, p, c, s.w);
  }

  lemma StopFrame(p: Producers, p': Producers, c: Closing, w: Writer)
    requires CountersInv(p) && SnapshotInv(c, p, w) && SealInv(c, p, w) && p' == p.(admitting := false)
    ensures CountersInv(p') && SnapshotInv(c, p', w) && SealInv(c, p', w)
  {
    assert ReturnedCalls(p') == ReturnedCalls(p);
    hide ReturnedCalls;
  }

  lemma GiveUpKeeps(s: State, k: CloserId)
    requires Inv(s) && k in s.c.closers && s.c.closers[k].Awaiting?
    ensures Inv(s.(c := s.c.(closers := s.c.closers[k := Publishing])))
  {
    hide ProducersInv, PlacesInv, BoundsInv, SnapshotInv, SealInv, LossInv, Owned;
    RunnerFrame(s.c, s.c.(closers := s.c.closers[k := Publishing]), s.p, s.w);
  }

  /** Every interleaving keeps the invariant: one step. */
  lemma StepKeeps(s: State, a: Action, t: State)
    requires Inv(s) && Step(s, a) == Some(t)
    ensures Inv(t)
  {
    hide Inv, RecordStep, RuntimeStep, FinishStep, CloseStep;
    match a
    case Record(c) => RecordKeeps(s, c, RecordStep(s.p, c, |s.w.queue| < QUEUE_CAPACITY).value);
    case StopAdmission => StopKeeps(s);
    case Close(k) =>
      if k in s.c.closers { CloseKeeps(s, k, CloseStep(s.c, k, s.p, s.w).value); } else { EnterKeeps(s, k); }
    case GiveUp(k) => GiveUpKeeps(s, k);
    case _ =>
      var runtime := RuntimeStep(s.w, a, s.c.requested, s.c.Sealed());
      if runtime.Some? { RuntimeStepKeeps(s, a, runtime.value); }
      else { FinishStepKeeps(s, a, FinishStep(s.w, a, s.p.active, s.c.Sealed()).value); }
  }

  lemma StopKeeps(s: State)
    requires Inv(s)
    ensures Inv(s.(p := s.p.(admitting := false)))
  {
    AdmissionStops(s, s.p.(admitting := false), s.c);
    hide *;
  }

  lemma EnterKeeps(s: State, k: CloserId)
    requires Inv(s) && k !in s.c.closers
    ensures Inv(s.(p := s.p.(admitting := false), c := s.c.(closers := s.c.closers[k := Requesting])))
  {
    hide *;
    AdmissionStops(s, s.p.(admitting := false), s.c.(closers := s.c.closers[k := Requesting]));
  }

  lemma {:induction false} RunKeeps(s: State, run: seq<Action>, t: State)
    requires Inv(s) && Run(s, run) == Some(t)
    ensures Inv(t)
    decreases |run|
  {
    hide Inv, Step;
    if run != [] {
      StepKeeps(s, run[0], Step(s, run[0]).value);
      RunKeeps(Step(s, run[0]).value, run[1..], t);
    }
  }

  lemma InitialInv()
    ensures Inv(INITIAL)
  {
    assert Ids([]) == {};
  }
}
