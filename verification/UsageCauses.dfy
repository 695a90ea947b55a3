/** Why each Turn of the usage store has the outcome it has (internal/usage/sqlitestore/store.go).
    A trace watches a run from outside: what every Record call read from the admission flag and how
    full it found the queue, what the database answered to every batch, what the drain dropped, and
    what cleanup said.  It looks only at the state before each action, never at what the step does. */
module UsageCauses {
  import opened Wrappers
  import opened UsageStore
  import opened UsageLedger

  // What the Record calls saw: the admission flags each loaded, the queue length its send met, and
  // whether anyone has closed admission.
  datatype Calls = Calls(loads: map<CallId, seq<bool>>, met: map<CallId, nat>, closed: bool)

  // The Turns in the order they were sent, and those the failed drain dropped.
  datatype Flow = Flow(sent: seq<CallId>, dropped: seq<CallId>)

  // The Turns of the batches the database committed, and of those it refused, while the store ran
  // and when it finished; how many batches it refused.
  datatype Writes = Writes(wrote: set<CallId>, failedRuntime: set<CallId>, failedFinal: set<CallId>, failures: nat)

  // What cleanup said, whether it had said so when the final report sampled it, and which closers
  // stopped waiting.
  datatype Ends = Ends(cleaned: Option<bool>, sampled: Option<bool>, gaveUp: set<CloserId>)

  datatype Trace = Trace(calls: Calls, flow: Flow, writes: Writes, ends: Ends)

  const UNSEEN := Trace(Calls(map[], map[], false), Flow([], []), Writes({}, {}, {}, 0), Ends(None, None, {}))

  function LoadsOf(x: Calls, c: CallId): seq<bool> { if c in x.loads then x.loads[c] else [] }

  function MetOf(x: Calls, c: CallId): Option<nat> { if c in x.met then Some(x.met[c]) else None }

  function ObserveCall(x: Calls, s: State, c: CallId): Calls {
    if c !in s.p.procs then x
    else if s.p.procs[c].Entered? || s.p.procs[c].Counted? then x.(loads := x.loads[c := LoadsOf(x, c) + [s.p.admitting]])
    else if s.p.procs[c].Sending? then x.(met := x.met[c := |s.w.queue|])
    else x
  }

  function ObserveSend(f: Flow, s: State, c: CallId): Flow {
    if c in s.p.procs && s.p.procs[c].Sending? && |s.w.queue| < QUEUE_CAPACITY then f.(sent := f.sent + [c]) else f
  }

  function ObserveAnswer(x: Writes, w: Writer, ok: bool): Writes {
    if ok then x.(wrote := x.wrote + Ids(w.batch))
    else if w.pc.RuntimeWrite? then x.(failedRuntime := x.failedRuntime + Ids(w.batch), failures := x.failures + 1)
    else x.(failedFinal := x.failedFinal + Ids(w.batch), failures := x.failures + 1)
  }

  function ObserveClose(x: Ends, c: Closing, k: CloserId): Ends {
    if k in c.closers && c.closers[k].Publishing? && c.snap.NotStarted? then x.(sampled := Some(x.cleaned == Some(true))) else x
  }

  function Observe(x: Trace, s: State, a: Action): Trace {
    match a
    case Record(c) => x.(calls := ObserveCall(x.calls, s, c), flow := ObserveSend(x.flow, s, c))
    case StopAdmission => x.(calls := x.calls.(closed := true))
    case Close(k) =>
      if k in s.c.closers then x.(ends := ObserveClose(x.ends, s.c, k)) else x.(calls := x.calls.(closed := true))
    case GiveUp(k) => x.(ends := x.ends.(gaveUp := x.ends.gaveUp + {k}))
    case EndWrite(ok) => x.(writes := ObserveAnswer(x.writes, s.w, ok))
    case Discard => if s.w.queue == [] then x else x.(flow := x.flow.(dropped := x.flow.dropped + [s.w.queue[0]]))
    case Cleanup(ok) => x.(ends := x.ends.(cleaned := Some(ok)))
    case _ => x
  }

  /** What is seen along a run. */
  function Watch(x: Trace, s: State, run: seq<Action>): Trace
    decreases |run|
  {
    if run == [] || Step(s, run[0]).None? then x
    else Watch(Observe(x, s, run[0]), Step(s, run[0]).value, run[1..])
  }

  // -------------------------------------------------------------------- Record calls

  /** How far a call is, and what it saw on the way. */
  predicate CallTrue(p: Producers, x: Calls, c: CallId) {
    var loads, met := LoadsOf(x, c), MetOf(x, c);
    && (false in loads ==> !p.admitting)
    && if c !in p.procs then loads == [] && met.None?
       else match p.procs[c]
         case Entered => loads == [] && met.None?
         case RejectedEarly => loads == [false] && met.None?
         case Admitted => loads == [true] && met.None?
         case Counted => loads == [true] && met.None?
         case RejectedLate => loads == [true, false] && met.None?
         case Sending => loads == [true, true] && met.None?
         case Refused => loads == [true, true] && met.Some? && met.value >= QUEUE_CAPACITY
         case _ =>
           if c in p.lateIds then (loads == [false] || loads == [true, false]) && met.None?
           else loads == [true, true] && met.Some? && (if c in p.fullIds then met.value >= QUEUE_CAPACITY else met.value < QUEUE_CAPACITY)
  }

  ghost predicate CallsTrue(p: Producers, x: Calls) { x.closed == !p.admitting && forall c: CallId :: CallTrue(p, x, c) }

  /** The call that moved. */
  lemma CallMoves(s: State, x: Calls, c: CallId, next: (Producers, bool))
    requires CallTrue(s.p, x, c) && Fits(s.p, c)
    requires RecordStep(s.p, c, |s.w.queue| < QUEUE_CAPACITY) == Some(next)
    ensures CallTrue(next.0, ObserveCall(x, s, c), c)
  {}

  lemma SeenBefore(s: State, x: Calls, c: CallId, d: CallId)
    requires d != c
    ensures var y := ObserveCall(x, s, c); LoadsOf(y, d) == LoadsOf(x, d) && MetOf(y, d) == MetOf(x, d) && y.closed == x.closed
  {}

  lemma OthersStay(p: Producers, x: Calls, p': Producers, x': Calls, d: CallId)
    requires CallTrue(p, x, d) && LoadsOf(x', d) == LoadsOf(x, d) && MetOf(x', d) == MetOf(x, d)
    requires p'.admitting ==> p.admitting
    requires d in p.procs <==> d in p'.procs
    requires d in p.procs ==> p'.procs[d] == p.procs[d] && (d in p'.lateIds <==> d in p.lateIds) && (d in p'.fullIds <==> d in p.fullIds)
    ensures CallTrue(p', x', d)
  {}

  lemma RecordTold(s: State, x: Calls, c: CallId, next: (Producers, bool))
    requires WindowInv(s.p) && OutcomeInv(s.p) && CallsTrue(s.p, x)
    requires RecordStep(s.p, c, |s.w.queue| < QUEUE_CAPACITY) == Some(next)
    ensures CallsTrue(next.0, ObserveCall(x, s, c))
  {
    hide RecordStep, WindowInv, OutcomeInv, Fits, CallTrue, ObserveCall, LoadsOf, MetOf;
    CallFits(s.p, c);
    RecordMoves(s.p, c, |s.w.queue| < QUEUE_CAPACITY, next.0, next.1);
    assert CallTrue(s.p, x, c);
    CallMoves(s, x, c, next);
    SeenBefore(s, x, c, c + 1);
    forall d: CallId ensures CallTrue(next.0, ObserveCall(x, s, c), d) {
      if d != c {
        SeenBefore(s, x, c, d);
        assert CallTrue(s.p, x, d);
        OthersStay(s.p, x, next.0, ObserveCall(x, s, c), d);
      }
    }
  }

  lemma StopTold(p: Producers, x: Calls)
    requires CallsTrue(p, x)
    ensures CallsTrue(p.(admitting := false), x.(closed := true))
  {
    hide CallTrue;
    forall d: CallId ensures CallTrue(p.(admitting := false), x.(closed := true), d) {
      assert CallTrue(p, x, d);
      OthersStay(p, x, p.(admitting := false), x.(closed := true), d);
    }
  }

  // --------------------------------------------------------------- the way of a Turn

  function Flat(batches: seq<seq<CallId>>): seq<CallId> {
    if batches == [] then [] else Flat(batches[..|batches| - 1]) + batches[|batches| - 1]
  }

  /** Turns keep the order in which they were sent: batches first, then the one being filled, then
      what the drain dropped, then the queue. */
  predicate FlowTrue(w: Writer, f: Flow) {
    && f.sent == Flat(w.handed) + (if Writing(w.pc) then [] else w.batch) + f.dropped + w.queue
    && (f.dropped != [] ==> w.batch == [] && (w.pc.Discarding? || Ending(w.pc)))
  }

  lemma FlatMore(batches: seq<seq<CallId>>, last: seq<CallId>)
    ensures Flat(batches + [last]) == Flat(batches) + last
  {
    assert (batches + [last])[..|batches|] == batches;
  }

  lemma SendTold(w: Writer, f: Flow, c: CallId)
    requires FlowTrue(w, f)
    ensures FlowTrue(w.(queue := w.queue + [c]), f.(sent := f.sent + [c]))
  {
    hide Flat;
  }

  lemma TakeFlows(w: Writer, f: Flow, w': Writer)
    requires FlowTrue(w, f) && w.queue != [] && !Writing(w.pc) && !Writing(w'.pc) && !w.pc.Discarding? && !Ending(w.pc)
    requires w' == w.(pc := w'.pc, batch := w.batch + [w.queue[0]], queue := w.queue[1..])
    ensures FlowTrue(w', f)
  {
    hide Flat;
    assert w.queue == [w.queue[0]] + w.queue[1..];
  }

  lemma HandFlows(w: Writer, f: Flow, next: WriterPc)
    requires FlowTrue(w, f) && !Writing(w.pc) && Writing(next) && !w.pc.Discarding? && !Ending(w.pc)
    ensures FlowTrue(HandOver(w, next), f)
  {
    FlatMore(w.handed, w.batch);
    hide Flat;
  }

  lemma SettleFlows(w: Writer, f: Flow, w': Writer)
    requires FlowTrue(w, f) && Writing(w.pc) && !Writing(w'.pc) && w'.batch == [] && w'.handed == w.handed && w'.queue == w.queue
    ensures FlowTrue(w', f)
  {
    hide Flat;
  }

  lemma DropFlows(w: Writer, f: Flow, w': Writer)
    requires FlowTrue(w, f) && w.pc.Discarding? && w.queue != [] && w.batch == []
    requires w' == w.(queue := w.queue[1..], forfeited := w'.forfeited)
    ensures FlowTrue(w', f.(dropped := f.dropped + [w.queue[0]]))
  {
    hide Flat;
    assert w.queue == [w.queue[0]] + w.queue[1..];
  }

  lemma SameFlows(w: Writer, f: Flow, w': Writer)
    requires FlowTrue(w, f) && Writing(w.pc) == Writing(w'.pc)
    requires w'.batch == w.batch && w'.handed == w.handed && w'.queue == w.queue
    requires w.pc.Discarding? || Ending(w.pc) ==> w'.pc.Discarding? || Ending(w'.pc)
    ensures FlowTrue(w', f)
  {}

  lemma RuntimeFlows(w: Writer, f: Flow, a: Action, requested: bool, sealed: bool, w': Writer)
    requires FlowTrue(w, f) && RuntimeStep(w, a, requested, sealed) == Some(w')
    ensures FlowTrue(w', f) && !a.Discard? && !a.Cleanup?
  {
    hide FlowTrue, Ids;
    match a
    case Receive => TakeFlows(w, f, w');
    case BeginFlush => HandFlows(w, f, RuntimeWrite);
    case Settle => SettleFlows(w, f, w');
    case _ => SameFlows(w, f, w');
  }

  lemma FinishFlows(w: Writer, f: Flow, a: Action, active: int, sealed: bool, w': Writer)
    requires FlowTrue(w, f) && BoundsInv(w) && FinishStep(w, a, active, sealed) == Some(w')
    ensures FlowTrue(w', if a.Discard? && w.queue != [] then f.(dropped := f.dropped + [w.queue[0]]) else f)
  {
    hide FlowTrue, Ids;
    match a
    case Pop => TakeFlows(w, f, w');
    case EndFill => if w.batch == [] { SameFlows(w, f, w'); } else { HandFlows(w, f, FinalWrite); }
    case Settle => SettleFlows(w, f, w');
    case Discard => if w.queue == [] { SameFlows(w, f, w'); } else { DropFlows(w, f, w'); }
    case _ => SameFlows(w, f, w');
  }

  // -------------------------------------------------------------- the database's answers

  function Answered(pc: WriterPc, ok: bool): bool { (pc.RuntimeSettle? || pc.FinalSettle?) && pc.ok == ok }

  // Answered, but not settled yet: committed, refused while running, refused at the end.
  function Landed(w: Writer): set<CallId> { if Answered(w.pc, true) then Ids(w.batch) else {} }

  function Spoiled(w: Writer): set<CallId> { if w.pc.RuntimeSettle? && !w.pc.ok then Ids(w.batch) else {} }

  function Ruined(w: Writer): set<CallId> { if w.pc.FinalSettle? && !w.pc.ok then Ids(w.batch) else {} }

  /** Only committed Turns are counted as committed and only Turns of refused runtime batches as
      lost; until the seal all of them are, and whatever is forfeited is neither. */
  ghost predicate WritesTrue(w: Writer, sealed: bool, x: Writes, dropped: set<CallId>) {
    && w.committedIds <= x.wrote && w.lostIds <= x.failedRuntime && w.failedWrites == x.failures
    && (!sealed ==> x.wrote == w.committedIds + Landed(w) && x.failedRuntime == w.lostIds + Spoiled(w))
    && x.wrote + x.failedRuntime + x.failedFinal + dropped == Done(w) + Landed(w) + Spoiled(w) + Ruined(w)
    && x.wrote !! x.failedRuntime && x.failedFinal + dropped !! x.wrote + x.failedRuntime
    && Landed(w) <= x.wrote && Spoiled(w) <= x.failedRuntime && Ruined(w) <= x.failedFinal
  }

  predicate Settling(pc: WriterPc) { pc.RuntimeSettle? || pc.FinalSettle? }

  lemma Unsettled(w: Writer)
    ensures !Settling(w.pc) ==> Landed(w) == {} && Spoiled(w) == {} && Ruined(w) == {}
    ensures w.pc.RuntimeSettle? || w.pc.FinalSettle? ==> Landed(w) + Spoiled(w) + Ruined(w) == Ids(w.batch)
  {}

  lemma AnswerTold(w: Writer, sealed: bool, x: Writes, dropped: set<CallId>, ok: bool, w': Writer)
    requires WritesTrue(w, sealed, x, dropped) && TurnsInv(w) && (w.pc.RuntimeWrite? || w.pc.FinalWrite?)
    requires w'.pc == (if w.pc.RuntimeWrite? then RuntimeSettle(ok) else FinalSettle(ok))
    requires w' == w.(pc := w'.pc, failedWrites := w.failedWrites + if ok then 0 else 1)
    ensures WritesTrue(w', sealed, ObserveAnswer(x, w, ok), dropped)
  {
    hide Ids, Distinct;
    Unsettled(w);
  }

  lemma SettledTold(w: Writer, sealed: bool, x: Writes, dropped: set<CallId>, w': Writer)
    requires WritesTrue(w, sealed, x, dropped) && Settling(w.pc) && !Settling(w'.pc)
    requires Done(w') == Done(w) + Ids(w.batch) && w'.failedWrites == w.failedWrites
    requires sealed ==> w'.committedIds == w.committedIds && w'.lostIds == w.lostIds
    requires !sealed ==> w'.committedIds == w.committedIds + Landed(w) && w'.lostIds == w.lostIds + Spoiled(w)
    ensures WritesTrue(w', sealed, x, dropped)
  {
    hide Ids, Done;
    Unsettled(w);
    Unsettled(w');
    hide Landed, Spoiled, Ruined;
  }

  lemma QuietTold(w: Writer, sealed: bool, x: Writes, dropped: set<CallId>, w': Writer)
    requires WritesTrue(w, sealed, x, dropped) && !Settling(w.pc) && !Settling(w'.pc)
    requires Done(w') == Done(w) && w'.committedIds == w.committedIds && w'.lostIds == w.lostIds && w'.failedWrites == w.failedWrites
    ensures WritesTrue(w', sealed, x, dropped)
  {
    Unsettled(w);
    Unsettled(w');
    hide Landed, Spoiled, Ruined, Done;
  }

  lemma DropTold(w: Writer, sealed: bool, x: Writes, dropped: set<CallId>, w': Writer)
    requires WritesTrue(w, sealed, x, dropped) && TurnsInv(w) && w.pc.Discarding? && w.queue != []
    requires w' == w.(queue := w.queue[1..], forfeited := w.forfeited + {w.queue[0]})
    ensures WritesTrue(w', sealed, x, dropped + {w.queue[0]})
  {
    assert w.queue[0] in Ids(w.queue);
    hide Ids, Distinct;
    Unsettled(w);
    Unsettled(w');
    hide Landed, Spoiled, Ruined;
  }

  lemma RuntimeTold(w: Writer, x: Writes, dropped: set<CallId>, a: Action, requested: bool, sealed: bool, w': Writer)
    requires WritesTrue(w, sealed, x, dropped) && PlacesInv(w) && RuntimeStep(w, a, requested, sealed) == Some(w')
    ensures WritesTrue(w', sealed, if a.EndWrite? then ObserveAnswer(x, w, a.ok) else x, dropped)
  {
    hide WritesTrue, SettledInv, TurnsInv, BatchesInv, Ids, ObserveAnswer;
    match a
    case EndWrite(ok) => AnswerTold(w, sealed, x, dropped, ok, w');
    case Settle =>
      SettleKeeps(w, sealed, w');
      SettledTold(w, sealed, x, dropped, w');
    case _ => QuietTold(w, sealed, x, dropped, w');
  }

  lemma FinishTold(w: Writer, x: Writes, dropped: set<CallId>, a: Action, active: int, sealed: bool, w': Writer)
    requires WritesTrue(w, sealed, x, dropped) && PlacesInv(w) && FinishStep(w, a, active, sealed) == Some(w')
    ensures WritesTrue(w', sealed, if a.EndWrite? then ObserveAnswer(x, w, a.ok) else x,
                       dropped + if a.Discard? && w.queue != [] then {w.queue[0]} else {})
  {
    hide WritesTrue, SettledInv, TurnsInv, BatchesInv, Ids, ObserveAnswer;
    assert dropped + {} == dropped;
    match a
    case EndWrite(ok) => AnswerTold(w, sealed, x, dropped, ok, w');
    case Settle =>
      SettleKeeps(w, sealed, w');
      SettledTold(w, sealed, x, dropped, w');
    case Discard => if w.queue == [] { QuietTold(w, sealed, x, dropped, w'); } else { DropTold(w, sealed, x, dropped, w'); }
    case _ => QuietTold(w, sealed, x, dropped, w');
  }

  // ----------------------------------------------------------------- cleanup and closers

  /** Closing is requested once a closer has asked. */
  ghost predicate RequestedTrue(c: Closing) { c.requested <==> exists k :: k in c.closers && !c.closers[k].Requesting? }

  /** Cleanup's answer is kept and sampled as it was; a closer publishes once the writer has stopped
      or it gave up waiting. */
  ghost predicate EndsTrue(c: Closing, w: Writer, x: Ends) {
    && (w.pc.Stopped? <==> x.cleaned.Some?) && (x.cleaned.Some? ==> w.cleanupOk == x.cleaned.value)
    && (c.snap.NotStarted? <==> x.sampled.None?) && (x.sampled.Some? ==> c.samples.cleanup == x.sampled.value)
    && (x.sampled == Some(true) ==> x.cleaned == Some(true))
    && (c.snap.Published? ==> c.report.cleanup == c.samples.cleanup)
    && (c.runner.Some? && !c.snap.Published? ==> c.runner.value in c.closers && c.closers[c.runner.value].Publishing?)
    && RequestedTrue(c)
    && (forall k :: k in c.closers && (c.closers[k].Publishing? || c.closers[k].Closed?) ==> k in x.gaveUp || w.pc.Stopped?)
  }

  lemma RuntimeEnds(w: Writer, a: Action, requested: bool, sealed: bool, w': Writer)
    requires RuntimeStep(w, a, requested, sealed) == Some(w')
    ensures !w.pc.Stopped? && !w'.pc.Stopped? && !a.Cleanup?
  {}

  lemma FinishEnds(w: Writer, a: Action, active: int, sealed: bool, w': Writer)
    requires FinishStep(w, a, active, sealed) == Some(w')
    ensures !w.pc.Stopped? && (w'.pc.Stopped? <==> a.Cleanup?) && (a.Cleanup? ==> w'.cleanupOk == a.ok)
  {}

  lemma WriterEnds(c: Closing, w: Writer, x: Ends, a: Action, w': Writer)
    requires EndsTrue(c, w, x) && !w.pc.Stopped? && (w'.pc.Stopped? <==> a.Cleanup?) && (a.Cleanup? ==> w'.cleanupOk == a.ok)
    ensures EndsTrue(c, w', if a.Cleanup? then x.(cleaned := Some(a.ok)) else x)
  {}

  /** The closer that moved. */
  lemma RequestedMoves(c: Closing, p: Producers, w: Writer, k: CloserId, c': Closing)
    requires RequestedTrue(c) && k in c.closers && CloseStep(c, k, p, w) == Some(c')
    ensures RequestedTrue(c') && k in c'.closers && c'.closers == c.closers[k := c'.closers[k]]
  {
    hide Ids, ReturnedCalls, ReportOf;
    assert k in c'.closers && c'.closers == c.closers[k := c'.closers[k]];
    if c.closers[k].Requesting? {
      assert k in c'.closers && !c'.closers[k].Requesting?;
    } else if c.requested {
      var j :| j in c.closers && !c.closers[j].Requesting?;
      assert j in c'.closers && !c'.closers[j].Requesting?;
    }
  }

  lemma CloserMoves(c: Closing, p: Producers, w: Writer, x: Ends, k: CloserId, c': Closing)
    requires EndsTrue(c, w, x) && k in c.closers && CloseStep(c, k, p, w) == Some(c')
    ensures EndsTrue(c', w, ObserveClose(x, c, k))
  {
    RequestedMoves(c, p, w, k, c');
    hide Ids, ReturnedCalls, Sub64, RequestedTrue;
  }

  lemma CloserEnters(c: Closing, w: Writer, x: Ends, k: CloserId)
    requires EndsTrue(c, w, x) && k !in c.closers
    ensures EndsTrue(c.(closers := c.closers[k := Requesting]), w, x)
  {
    var more := c.closers[k := Requesting];
    if c.requested {
      var j :| j in c.closers && !c.closers[j].Requesting?;
      assert j in more && !more[j].Requesting?;
    }
  }

  lemma CloserGivesUp(c: Closing, w: Writer, x: Ends, k: CloserId)
    requires EndsTrue(c, w, x) && k in c.closers && c.closers[k].Awaiting?
    ensures EndsTrue(c.(closers := c.closers[k := Publishing]), w, x.(gaveUp := x.gaveUp + {k}))
  {
    var now := c.closers[k := Publishing];
    assert k in now && !now[k].Requesting?;
    assert c.requested;
  }

  // ------------------------------------------------------------------------ whole runs

  /** Exactly the Turns that entered the queue were seen to be sent. */
  ghost predicate SentTrue(p: Producers, f: Flow) { Ids(f.sent) == p.enqueued && Distinct(f.sent) }

  ghost predicate Told(s: State, x: Trace) {
    && CallsTrue(s.p, x.calls) && SentTrue(s.p, x.flow) && FlowTrue(s.w, x.flow)
    && WritesTrue(s.w, s.c.Sealed(), x.writes, Ids(x.flow.dropped)) && EndsTrue(s.c, s.w, x.ends)
  }

  lemma SeenSent(s: State, x: Flow, c: CallId, next: (Producers, bool))
    requires Fits(s.p, c) && SentTrue(s.p, x) && RecordStep(s.p, c, |s.w.queue| < QUEUE_CAPACITY) == Some(next)
    ensures SentTrue(next.0, ObserveSend(x, s, c)) && ObserveSend(x, s, c) == if next.1 then x.(sent := x.sent + [c]) else x
  {
    RecordMoves(s.p, c, |s.w.queue| < QUEUE_CAPACITY, next.0, next.1);
    SendSeen(s, c, next);
    hide RecordStep, Fits;
    IdsFacts(x.sent, c);
  }

  lemma SendSeen(s: State, c: CallId, next: (Producers, bool))
    requires RecordStep(s.p, c, |s.w.queue| < QUEUE_CAPACITY) == Some(next)
    ensures next.1 <==> c in s.p.procs && s.p.procs[c].Sending? && |s.w.queue| < QUEUE_CAPACITY
  {}

  lemma RecordSeen(s: State, x: Trace, c: CallId, next: (Producers, bool))
    requires Inv(s) && Told(s, x) && RecordStep(s.p, c, |s.w.queue| < QUEUE_CAPACITY) == Some(next)
    ensures Told(Produce(s, c, next), Observe(x, s, Record(c)))
  {
    hide RecordStep, CountersInv, WindowInv, OutcomeInv, PlacesInv, BoundsInv, AdmissionInv, SnapshotInv, ClosersInv, LossInv, SealInv,
      CallsTrue, SentTrue, FlowTrue, WritesTrue, EndsTrue, ObserveCall, ObserveSend, Ids, Owned, Fits;
    CallFits(s.p, c);
    RecordTold(s, x.calls, c, next);
    SeenSent(s, x.flow, c, next);
    if next.1 { SendTold(s.w, x.flow, c); }
    QueueOnly(s.w, c, s.c, x, next.1);
  }

  lemma QueueOnly(w: Writer, c: CallId, closing: Closing, x: Trace, sent: bool)
    requires WritesTrue(w, closing.Sealed(), x.writes, Ids(x.flow.dropped)) && EndsTrue(closing, w, x.ends)
    ensures var w' := if sent then w.(queue := w.queue + [c]) else w;
      WritesTrue(w', closing.Sealed(), x.writes, Ids(x.flow.dropped)) && EndsTrue(closing, w', x.ends)
  {
    hide Ids;
  }

  /** A step of the writer, whichever loop it is in. */
  lemma WriterSteps(s: State, a: Action, t: State)
    requires IsWriterAction(a) && Step(s, a) == Some(t)
    ensures t == s.(w := t.w)
    ensures RuntimeStep(s.w, a, s.c.requested, s.c.Sealed()) == Some(t.w) || FinishStep(s.w, a, s.p.active, s.c.Sealed()) == Some(t.w)
  {
    hide RuntimeStep, FinishStep;
  }

  lemma WriterSeen(s: State, x: Trace, a: Action, t: State)
    requires IsWriterAction(a) && Inv(s) && Told(s, x) && Step(s, a) == Some(t)
    ensures Told(t, Observe(x, s, a))
  {
    hide Step, RuntimeStep, FinishStep, ProducersInv, BoundsInv, PlacesInv, AdmissionInv, SnapshotInv, ClosersInv, LossInv, SealInv,
      CallsTrue, SentTrue, FlowTrue, WritesTrue, EndsTrue, ObserveAnswer, Ids, Owned;
    WriterSteps(s, a, t);
    var sealed := s.c.Sealed();
    if RuntimeStep(s.w, a, s.c.requested, sealed) == Some(t.w) {
      RuntimeFlows(s.w, x.flow, a, s.c.requested, sealed, t.w);
      RuntimeTold(s.w, x.writes, Ids(x.flow.dropped), a, s.c.requested, sealed, t.w);
      RuntimeEnds(s.w, a, s.c.requested, sealed, t.w);
    } else {
      FinishFlows(s.w, x.flow, a, s.p.active, sealed, t.w);
      FinishTold(s.w, x.writes, Ids(x.flow.dropped), a, s.p.active, sealed, t.w);
      FinishEnds(s.w, a, s.p.active, sealed, t.w);
      if s.w.queue != [] { IdsFacts(x.flow.dropped, s.w.queue[0]); }
      NoMore(Ids(x.flow.dropped));
    }
    WriterEnds(s.c, s.w, x.ends, a, t.w);
    SentSame(s.p, x.flow, Observe(x, s, a).flow);
  }

  lemma NoMore(a: set<CallId>)
    ensures a + {} == a
  {}

  lemma SentSame(p: Producers, f: Flow, g: Flow)
    requires SentTrue(p, f) && g.sent == f.sent
    ensures SentTrue(p, g)
  {}

  lemma SealSeen(c: Closing, c': Closing, w: Writer, x: Writes, dropped: set<CallId>)
    requires WritesTrue(w, c.Sealed(), x, dropped) && (c.Sealed() ==> c'.Sealed())
    ensures WritesTrue(w, c'.Sealed(), x, dropped)
  {
    hide Landed, Spoiled, Ruined, Done;
  }

  lemma StaysSealed(c: Closing, k: CloserId, p: Producers, w: Writer, c': Closing)
    requires k in c.closers && CloseStep(c, k, p, w) == Some(c')
    ensures c.Sealed() ==> c'.Sealed()
  {
    hide ReturnedCalls, Ids, Sub64;
  }

  lemma CloseSeen(s: State, x: Trace, k: CloserId, t: State)
    requires Told(s, x) && Step(s, Close(k)) == Some(t)
    ensures Told(t, Observe(x, s, Close(k)))
  {
    hide CloseStep, CallsTrue, SentTrue, FlowTrue, WritesTrue, EndsTrue, ObserveClose, Ids;
    if k in s.c.closers {
      StaysSealed(s.c, k, s.p, s.w, t.c);
      SealSeen(s.c, t.c, s.w, x.writes, Ids(x.flow.dropped));
      CloserMoves(s.c, s.p, s.w, x.ends, k, t.c);
    } else {
      StopTold(s.p, x.calls);
      StopSent(s.p, x.flow);
      CloserEnters(s.c, s.w, x.ends, k);
    }
  }

  lemma StopSent(p: Producers, f: Flow)
    requires SentTrue(p, f)
    ensures SentTrue(p.(admitting := false), f)
  {}

  lemma StepTold(s: State, x: Trace, a: Action, t: State)
    requires Inv(s) && Told(s, x) && Step(s, a) == Some(t)
    ensures Told(t, Observe(x, s, a))
  {
    if IsWriterAction(a) {
      hide *;
      WriterSeen(s, x, a, t);
    } else if a.Record? {
      hide Inv, Told, RecordStep, Observe;
      RecordSeen(s, x, a.call, RecordStep(s.p, a.call, |s.w.queue| < QUEUE_CAPACITY).value);
    } else if a.Close? {
      hide *;
      CloseSeen(s, x, a.closer, t);
    } else {
      hide Inv, CallsTrue, SentTrue, FlowTrue, WritesTrue, EndsTrue, RecordStep, CloseStep, RuntimeStep, FinishStep;
      if a.StopAdmission? {
        StopTold(s.p, x.calls);
        StopSent(s.p, x.flow);
      } else {
        CloserGivesUp(s.c, s.w, x.ends, a.closer);
      }
    }
  }

  lemma {:induction false} WatchTold(s: State, x: Trace, run: seq<Action>, t: State)
    requires Inv(s) && Told(s, x) && Run(s, run) == Some(t)
    ensures Inv(t) && Told(t, Watch(x, s, run))
    decreases |run|
  {
    hide Inv, Told, Step, Observe;
    if run != [] {
      var next := Step(s, run[0]).value;
      StepKeeps(s, run[0], next);
      StepTold(s, x, run[0], next);
      WatchTold(next, Observe(x, s, run[0]), run[1..], t);
    }
  }

  lemma UnseenTold()
    ensures Told(INITIAL, UNSEEN)
  {
    assert Flat([]) == [] && Ids([]) == {};
    forall c: CallId ensures CallTrue(INITIAL.p, UNSEEN.calls, c) {}
  }

  lemma RunTold(run: seq<Action>, s: State)
    requires Run(INITIAL, run) == Some(s)
    ensures Inv(s) && Told(s, Watch(UNSEEN, INITIAL, run))
  {
    hide *;
    InitialInv();
    UnseenTold();
    WatchTold(INITIAL, UNSEEN, run, s);
  }

  /** Every Record call that is through has exactly the outcome that what it saw entails: late if it
      found admission closed, refused if it met a full queue, in the queue otherwise. */
  lemma RecordOutcome(run: seq<Action>, s: State, c: CallId)
    requires Run(INITIAL, run) == Some(s) && c in s.p.procs && Finished(s.p.procs[c])
    ensures var x := Watch(UNSEEN, INITIAL, run).calls; var loads, met := LoadsOf(x, c), MetOf(x, c);
      && (c in s.p.lateIds <==> loads == [false] || loads == [true, false])
      && (c in s.p.fullIds <==> loads == [true, true] && met.Some? && met.value >= QUEUE_CAPACITY)
      && (c in s.p.enqueued <==> loads == [true, true] && met.Some? && met.value < QUEUE_CAPACITY)
      && (c in s.p.lateIds || c in s.p.fullIds || c in s.p.enqueued)
  {
    hide *;
    RunCall(run, s, c);
    CallOutcome(s.p, Watch(UNSEEN, INITIAL, run).calls, c);
  }

  lemma CallOutcome(p: Producers, x: Calls, c: CallId)
    requires CallTrue(p, x, c) && OutcomeInv(p) && c in p.procs && Finished(p.procs[c])
    ensures var loads, met := LoadsOf(x, c), MetOf(x, c);
      && (c in p.lateIds <==> loads == [false] || loads == [true, false])
      && (c in p.fullIds <==> loads == [true, true] && met.Some? && met.value >= QUEUE_CAPACITY)
      && (c in p.enqueued <==> loads == [true, true] && met.Some? && met.value < QUEUE_CAPACITY)
      && (c in p.lateIds || c in p.fullIds || c in p.enqueued)
  {
    hide LoadsOf, MetOf;
  }

  lemma RunCall(run: seq<Action>, s: State, c: CallId)
    requires Run(INITIAL, run) == Some(s)
    ensures var x := Watch(UNSEEN, INITIAL, run).calls; CallTrue(s.p, x, c) && (x.closed <==> !s.p.admitting) && OutcomeInv(s.p)
  {
    hide *;
    RunTold(run, s);
    ToldCall(s, Watch(UNSEEN, INITIAL, run), c);
    InvOutcomes(s);
  }

  lemma ToldCall(s: State, x: Trace, c: CallId)
    requires Told(s, x)
    ensures CallTrue(s.p, x.calls, c) && (x.calls.closed <==> !s.p.admitting)
  {
    hide CallTrue, SentTrue, FlowTrue, WritesTrue, EndsTrue;
  }

  lemma InvOutcomes(s: State)
    requires Inv(s)
    ensures WindowInv(s.p) && OutcomeInv(s.p) && BoundsInv(s.w) && s.p.enqueued == Owned(s.w)
  {
    hide PlacesInv, BoundsInv, SnapshotInv, SealInv, Owned;
  }

  /** Admission is closed exactly when someone has stopped it, and a call that enters after that is
      counted as late, whatever happens. */
  lemma CutoffIsFinal(run: seq<Action>, more: seq<Action>, s: State, t: State, c: CallId)
    requires Run(INITIAL, run) == Some(s) && Run(s, more) == Some(t)
    ensures s.p.admitting <==> !Watch(UNSEEN, INITIAL, run).calls.closed
    ensures !s.p.admitting && c !in s.p.procs && c in t.p.procs && Finished(t.p.procs[c]) ==> c in t.p.lateIds
  {
    hide *;
    RunTold(run, s);
    RunCall(run, s, c);
    var x := Watch(UNSEEN, INITIAL, run);
    if !s.p.admitting && c !in s.p.procs && c in t.p.procs && Finished(t.p.procs[c]) {
      NothingLoaded(s.p, x.calls, c);
      OnlyClosed(s, x, more, t, c);
    }
  }

  lemma NothingLoaded(p: Producers, x: Calls, c: CallId)
    requires CallTrue(p, x, c) && c !in p.procs
    ensures true !in LoadsOf(x, c)
  {
    hide LoadsOf, MetOf;
  }

  /** Once admission is closed a call that has not entered loads nothing but false. */
  lemma {:induction false} OnlyClosed(s: State, x: Trace, run: seq<Action>, t: State, c: CallId)
    requires Inv(s) && Told(s, x) && Run(s, run) == Some(t) && !s.p.admitting && true !in LoadsOf(x.calls, c)
    requires c in t.p.procs && Finished(t.p.procs[c])
    ensures c in t.p.lateIds
    decreases |run|
  {
    hide Inv, Step, Observe, LoadsOf, Finished;
    if run == [] {
      ClosedIsLate(s, x, c);
    } else {
      var next := Step(s, run[0]).value;
      StepKeeps(s, run[0], next);
      StepTold(s, x, run[0], next);
      LoadsClosed(s, x, run[0], next, c);
      OnlyClosed(next, Observe(x, s, run[0]), run[1..], t, c);
    }
  }

  lemma ClosedIsLate(s: State, x: Trace, c: CallId)
    requires Told(s, x) && true !in LoadsOf(x.calls, c) && c in s.p.procs && Finished(s.p.procs[c])
    ensures c in s.p.lateIds
  {
    ToldCall(s, x, c);
    hide Told, LoadsOf, MetOf;
    assert [true, true][0] in [true, true];
  }

  lemma LoadsClosed(s: State, x: Trace, a: Action, t: State, c: CallId)
    requires Step(s, a) == Some(t) && !s.p.admitting && true !in LoadsOf(x.calls, c)
    ensures !t.p.admitting && true !in LoadsOf(Observe(x, s, a).calls, c)
  {
    hide RuntimeStep, FinishStep, CloseStep;
  }

  /** What is counted is what the database said.  Committed Turns were committed, lost ones were
      refused while the store ran; until the seal every settled answer is counted; the refused final
      batch and what the drain drops are counted as neither. */
  lemma AnswersAreCounted(run: seq<Action>, s: State)
    requires Run(INITIAL, run) == Some(s)
    ensures var x := Watch(UNSEEN, INITIAL, run); var w := x.writes;
      && s.w.committed == |s.w.committedIds| && s.w.committedIds <= w.wrote
      && s.w.runtimeLost == |s.w.lostIds| && s.w.lostIds <= w.failedRuntime
      && (!s.c.Sealed() && !Settling(s.w.pc) ==> s.w.committedIds == w.wrote && s.w.lostIds == w.failedRuntime)
      && (w.failedFinal + Ids(x.flow.dropped)) !! (s.w.committedIds + s.w.lostIds) && w.wrote !! w.failedRuntime
      && s.w.failedWrites == w.failures
  {
    hide Run, Watch, Ids;
    RunTold(run, s);
    var x := Watch(UNSEEN, INITIAL, run);
    AnswersOf(s.w, s.c.Sealed(), x.writes, Ids(x.flow.dropped));
    OutcomesOf(run, s);
  }

  lemma AnswersOf(w: Writer, sealed: bool, x: Writes, dropped: set<CallId>)
    requires WritesTrue(w, sealed, x, dropped)
    ensures w.committedIds <= x.wrote && w.lostIds <= x.failedRuntime && x.wrote !! x.failedRuntime && w.failedWrites == x.failures
    ensures (x.failedFinal + dropped) !! (w.committedIds + w.lostIds)
    ensures !sealed && !Settling(w.pc) ==> w.committedIds == x.wrote && w.lostIds == x.failedRuntime
  {
    Unsettled(w);
    hide Landed, Spoiled, Ruined, Done;
  }

  lemma OutcomesOf(run: seq<Action>, s: State)
    requires Run(INITIAL, run) == Some(s)
    ensures s.w.committed == |s.w.committedIds| && s.w.runtimeLost == |s.w.lostIds|
  {
    hide Run;
    assert Reachable(s);
    OutcomesDisjoint(s);
  }

  /** No Turn is lost, doubled or moved on the way: the Turns sent are, in order, those of the batches
      given to the database, of the batch in hand, those the drain dropped and those in the queue. */
  lemma TurnsKeepOrder(run: seq<Action>, s: State)
    requires Run(INITIAL, run) == Some(s)
    ensures var x := Watch(UNSEEN, INITIAL, run).flow;
      && x.sent == Flat(s.w.handed) + (if Writing(s.w.pc) then [] else s.w.batch) + x.dropped + s.w.queue
      && Ids(x.sent) == s.p.enqueued && Distinct(x.sent)
  {
    hide Run, Watch, Ids, Flat, Distinct;
    RunTold(run, s);
  }

  /** The final report says cleanup succeeded exactly when it had by the time it was sampled; a closer
      publishes only after cleanup, or after its own context ended. */
  lemma CleanupIsReported(run: seq<Action>, s: State, k: CloserId)
    requires Run(INITIAL, run) == Some(s)
    ensures var x := Watch(UNSEEN, INITIAL, run).ends;
      && (s.c.snap.Published? ==> x.sampled == Some(s.c.report.cleanup))
      && (x.sampled == Some(true) ==> x.cleaned == Some(true))
      && (k in s.c.closers && (s.c.closers[k].Publishing? || s.c.closers[k].Closed?) ==> k in x.gaveUp || x.cleaned.Some?)
  {
    hide Run, Watch;
    RunTold(run, s);
  }

  // ------------------------------------------------------------------------- progress

  /** A bound on the operations a Record call has left. */
  function Left(pc: RecordPc): nat {
    match pc
    case Entered => 6 case Admitted => 5 case Counted => 4 case Sending => 3
    case Refused => 2 case RejectedLate => 2 case Leaving => 1 case RejectedEarly => 1 case Returned => 0
  }

  /** Record never waits: until it has returned its next operation is possible and brings it nearer
      to its return, and nobody else's operation takes it back. */
  lemma RecordNeverWaits(s: State, a: Action, c: CallId)
    requires c in s.p.procs
    ensures !s.p.procs[c].Returned? ==> Step(s, Record(c)).Some?
    ensures Step(s, a).Some? ==> var t := Step(s, a).value;
      && c in t.p.procs
      && if a == Record(c) then Left(t.p.procs[c]) < Left(s.p.procs[c]) else t.p.procs[c] == s.p.procs[c]
  {
    hide *;
    OwnStep(s, c);
    if a != Record(c) { OthersStep(s, a, c); }
  }

  lemma OwnStep(s: State, c: CallId)
    requires c in s.p.procs
    ensures !s.p.procs[c].Returned? ==> Step(s, Record(c)).Some?
    ensures Step(s, Record(c)).Some? ==>
      var t := Step(s, Record(c)).value; c in t.p.procs && Left(t.p.procs[c]) < Left(s.p.procs[c])
  {
    hide RuntimeStep, FinishStep, CloseStep;
  }

  lemma OthersStep(s: State, a: Action, c: CallId)
    requires c in s.p.procs && a != Record(c)
    ensures Step(s, a).Some? ==> c in Step(s, a).value.p.procs && Step(s, a).value.p.procs[c] == s.p.procs[c]
  {
    hide RuntimeStep, FinishStep, CloseStep;
  }

  /** A bound on the operations a Close call has left. */
  function CloseLeft(c: Closing, k: CloserId): nat
    requires k in c.closers
  {
    match c.closers[k]
    case Requesting => 3 + (5 - Rank(c.snap))
    case Awaiting => 2 + (5 - Rank(c.snap))
    case Publishing => 1 + (5 - Rank(c.snap))
    case Closed(_) => 0
  }

  predicate IsCloserAction(a: Action, k: CloserId) { a == Close(k) || a == GiveUp(k) }

  lemma CloseLowers(s: State, a: Action, t: State, k: CloserId)
    requires k in s.c.closers && Step(s, a) == Some(t)
    ensures k in t.c.closers && CloseLeft(t.c, k) <= CloseLeft(s.c, k)
    ensures IsCloserAction(a, k) ==> CloseLeft(t.c, k) < CloseLeft(s.c, k)
  {
    hide RecordStep, RuntimeStep, FinishStep, CloseStep, CloseLeft;
    if a.Close? && a.closer in s.c.closers { CloserLowers(s.c, a.closer, s.p, s.w, t.c, k); } else { OthersLower(s.c, t.c, k, a); }
  }

  lemma CloserLowers(c: Closing, j: CloserId, p: Producers, w: Writer, c': Closing, k: CloserId)
    requires j in c.closers && k in c.closers && CloseStep(c, j, p, w) == Some(c')
    ensures k in c'.closers && CloseLeft(c', k) <= CloseLeft(c, k) && (j == k ==> CloseLeft(c', k) < CloseLeft(c, k))
  {
    hide ReturnedCalls, Ids, ReportOf;
  }

  lemma OthersLower(c: Closing, c': Closing, k: CloserId, a: Action)
    requires k in c.closers && c'.snap == c.snap && !(a.Close? && a.closer in c.closers)
    requires c'.closers == c.closers
      || (a.Close? && c'.closers == c.closers[a.closer := Requesting])
      || (a.GiveUp? && a.closer in c.closers && c.closers[a.closer].Awaiting? && c'.closers == c.closers[a.closer := Publishing])
    requires a.GiveUp? ==> c'.closers != c.closers
    ensures k in c'.closers && CloseLeft(c', k) <= CloseLeft(c, k) && (IsCloserAction(a, k) ==> CloseLeft(c', k) < CloseLeft(c, k))
  {}

  /** Close never hangs on another: while a Close call is unfinished, it can go on, or its context can
      end its wait, or the call that publishes for both can go on. */
  lemma CloseNeverStuck(run: seq<Action>, s: State, k: CloserId)
    requires Run(INITIAL, run) == Some(s) && k in s.c.closers && !s.c.closers[k].Closed?
    ensures exists j :: j in s.c.closers && (Step(s, Close(j)).Some? || Step(s, GiveUp(j)).Some?)
  {
    hide *;
    RunTold(run, s);
    var x := Watch(UNSEEN, INITIAL, run);
    RunnerIs(s, x);
    var c := s.c;
    var j := if c.closers[k].Publishing? && !c.snap.Published? && c.runner.Some? then c.runner.value else k;
    CloserGoes(s, j);
  }

  lemma CloserGoes(s: State, j: CloserId)
    requires j in s.c.closers && !s.c.closers[j].Closed?
    requires s.c.closers[j].Publishing? && !s.c.snap.Published? ==> s.c.runner == None || s.c.runner == Some(j)
    ensures Step(s, Close(j)).Some? || Step(s, GiveUp(j)).Some?
  {
    hide SnapshotStep, RecordStep, RuntimeStep, FinishStep;
    SnapshotGoes(s.c.(runner := Some(j)), s.p, s.w);
  }

  lemma RunnerIs(s: State, x: Trace)
    requires Told(s, x)
    ensures s.c.runner.Some? && !s.c.snap.Published? ==> s.c.runner.value in s.c.closers && s.c.closers[s.c.runner.value].Publishing?
  {
    hide CallsTrue, SentTrue, FlowTrue, WritesTrue;
  }

  lemma SnapshotGoes(c: Closing, p: Producers, w: Writer)
    ensures !c.snap.Published? ==> SnapshotStep(c, p, w).Some?
  {
    hide ReturnedCalls, Ids, Sub64;
  }

  /** A Close call takes at most eight operations, in any run. */
  lemma {:induction false} CloseSteps(s: State, run: seq<Action>, t: State, k: CloserId)
    requires k in s.c.closers && Run(s, run) == Some(t)
    ensures k in t.c.closers && CloserMovesOf(run, k) + CloseLeft(t.c, k) <= CloseLeft(s.c, k) <= 8
    decreases |run|
  {
    hide Step, IsCloserAction;
    if run != [] {
      CloseLowers(s, run[0], Step(s, run[0]).value, k);
      CloseSteps(Step(s, run[0]).value, run[1..], t, k);
    }
  }

  function CloserMovesOf(run: seq<Action>, k: CloserId): nat {
    if run == [] then 0 else (if IsCloserAction(run[0], k) then 1 else 0) + CloserMovesOf(run[1..], k)
  }

  /** The writer never blocks: with a Turn in hand or in the queue, with finalization requested, or
      inside finish, some writer step is possible. */
  lemma WriterNeverBlocks(s: State)
    requires Inv(s) && !s.w.pc.Stopped?
    requires s.w.queue != [] || s.w.batch != [] || s.c.requested || !s.w.pc.Collecting?
    ensures exists a :: IsWriterAction(a) && Step(s, a).Some?
  {
    hide Inv, SettleCommitted, SettleRuntimeFailure, Forfeit, HandOver;
    InvBounds(s);
    var a := match s.w.pc
      case Collecting => if s.c.requested then TakeFinalize else if s.w.batch != [] then BeginFlush else Receive
      case RuntimeWrite => EndWrite(true)
      case RuntimeSettle(_) => Settle
      case Waiting => Abandon
      case DrainTop => BeginFill
      case Filling(owed) => if owed > 0 then Pop else EndFill
      case FinalWrite => EndWrite(true)
      case FinalSettle(_) => Settle
      case Discarding => Discard
      case _ => Cleanup(true);
    assert IsWriterAction(a) && Step(s, a).Some?;
  }
}
