/** What leads to what in a run of the SSE pump (internal/sse/pump.go): the cause of every outcome, the
    transformer's calls and their output, the timers, and cancellation.  A trace watches a run from
    outside; it looks only at the state before each action, never at what the step does. */
module PumpCauses {
  import opened Wrappers
  import opened Pump
  import opened PumpRuns

  // Whether a write to the client failed and whether the transformer panicked; what the transformer
  // was asked to transform and what it gave back while the client was there; when the loop last took
  // up waiting for the upstream, and when the client last got a frame or a keepalive.
  datatype Trace = Trace(failedWrite: bool, panicked: bool, asked: seq<Frame>, given: seq<Frame>, waitingSince: nat, wroteAt: nat)

  const UNSEEN := Trace(false, false, [], [], 0, 0)

  function ObserveCall(x: Trace, s: State, frames: seq<Frame>, panicked: bool): Trace {
    var y := if s.l.Transforming? then x.(asked := x.asked + [s.l.frame]) else x;
    if s.w.canceled then y else if panicked then y.(panicked := true) else y.(given := y.given + frames)
  }

  function ObserveWrite(x: Trace, s: State, ok: bool): Trace {
    if !ok then x.(failedWrite := true)
    else if s.l.Rendering? then x
    else if s.l.Keeping? && s.l.rearm then x.(wroteAt := s.w.now, waitingSince := s.w.now)
    else x.(wroteAt := s.w.now)
  }

  function Observe(x: Trace, s: State, a: Action): Trace {
    match a
    case Called(frames, panicked) => ObserveCall(x, s, frames, panicked)
    case Wrote(ok) => ObserveWrite(x, s, ok)
    case Proceed =>
      if s.l.Writing? && s.l.after.AfterTransform? && !(s.l.after.tick && s.l.after.empty) then x.(waitingSince := s.w.now) else x
    case _ => x
  }

  /** What is seen along a run. */
  function Watch(p: Policy, x: Trace, s: State, run: seq<Action>): Trace
    decreases |run|
  {
    if run == [] || Step(p, s, run[0]).None? then x
    else Watch(p, Observe(x, s, run[0]), Step(p, s, run[0]).value, run[1..])
  }

  // --------------------------------------------------------------- the cause of an outcome

  /** The read that was accepted last. */
  function Last(h: History): Option<Read> {
    if 0 < h.accepted <= |h.published| then Some(h.published[h.accepted - 1]) else None
  }

  /** Why the stream has to end before a terminal frame, by what came from upstream. */
  function Cause(h: History): Option<Outcome> {
    if h.stall.Some? then Some(Stall)
    else match Last(h)
      case Some(Eof) => Some(Synthesized)
      case Some(Broken) => Some(UpstreamError)
      case _ => None
  }

  predicate Caused(p: Policy, s: State, x: Trace) {
    && (!s.l.Returned? ==> !x.failedWrite)
    && (x.panicked ==> p.transforms && (s.l.Rendering? || s.l.Returned?))
    && match s.l
       case Stalled => s.h.stall.Some?
       case Accepted(read, _) => s.h.stall.None? && Last(s.h) == Some(read)
       case Transforming(frame, _) => s.h.stall.None? && p.transforms && Last(s.h) == Some(Got(frame))
       case Finalizing(cause) => p.transforms && Cause(s.h) == Some(cause)
       case Writing(_, after) =>
         if after.AfterFinalize? then p.transforms && Cause(s.h) == Some(after.cause) else Cause(s.h) == None
       case Rendering(cause) => if x.panicked then cause == ShimError else Cause(s.h) == Some(cause)
       case Returned(outcome) => outcome.Some? ==> Justified(p, s, x, outcome.value)
       case _ => s.h.stall.None?
  }

  /** What an outcome says of the run. */
  predicate Justified(p: Policy, s: State, x: Trace, outcome: Outcome) {
    && (x.failedWrite ==> outcome == ClientCancel)
    && match outcome
       case ClientCancel => s.w.canceled || x.failedWrite
       case Clean => x.panicked || Cause(s.h).Some? || p.keepalive.Some?
       case _ => if x.panicked then outcome == ShimError else Cause(s.h) == Some(outcome)
  }

  lemma CausedOutside(p: Policy, s: State, x: Trace, a: Action)
    requires Outside(a) && Next(s) && Caused(p, s, x) && Step(p, s, a).Some?
    ensures Caused(p, Step(p, s, a).value, x)
  {
    OutsideOnly(p, s, a);
    hide Step;
  }

  /** The world and the reader leave the loop, the wire and what was accepted alone. */
  lemma OutsideOnly(p: Policy, s: State, a: Action)
    requires Outside(a) && Step(p, s, a).Some?
    ensures var t := Step(p, s, a).value;
      && t.l == s.l && t.out == s.out && (s.w.canceled ==> t.w.canceled) && s.w.now <= t.w.now
      && t.h.accepted == s.h.accepted && t.h.stall == s.h.stall && s.h.published <= t.h.published
  {}

  lemma CausedPolled(p: Policy, s: State, x: Trace)
    requires Polls(s.l) && Handshake(s) && Next(s) && WireInv(s) && Armable(p, s) && Caused(p, s, x) && Step(p, s, Proceed).Some?
    ensures Caused(p, Step(p, s, Proceed).value, Observe(x, s, Proceed))
  {
    hide WireOrder, HasTerminal, HasError, Verdict;
  }

  lemma CausedWorked(p: Policy, s: State, x: Trace)
    requires !Polls(s.l) && Handshake(s) && Next(s) && WireInv(s) && Armable(p, s) && Caused(p, s, x) && Step(p, s, Proceed).Some?
    ensures Caused(p, Step(p, s, Proceed).value, Observe(x, s, Proceed))
  {
    hide WireOrder, HasTerminal, HasError, Verdict;
  }

  lemma CausedProceed(p: Policy, s: State, x: Trace)
    requires Handshake(s) && Next(s) && WireInv(s) && Armable(p, s) && Caused(p, s, x) && Step(p, s, Proceed).Some?
    ensures Caused(p, Step(p, s, Proceed).value, Observe(x, s, Proceed))
  {
    hide *;
    if Polls(s.l) { CausedPolled(p, s, x); } else { CausedWorked(p, s, x); }
  }

  /** Only a keepalive interval makes keepalive ticks. */
  predicate Armable(p: Policy, s: State) {
    && (p.keepalive.None? ==> s.w.keepalive.Off?)
    && (p.idle.None? ==> s.w.stall.Off?)
    && (s.l.KeepTick? || s.l.KeepPoll? || s.l.Keeping? ==> p.keepalive.Some?)
    && (s.l.AwaitTime? || s.l.Arbitrate? || s.l.Accepted? || s.l.Transforming? ==> (s.l.tick ==> p.keepalive.Some?))
    && (s.l.Writing? && s.l.after.AfterTransform? ==> (s.l.after.tick ==> p.keepalive.Some?))
  }

  lemma ArmableOutside(p: Policy, s: State, a: Action)
    requires Outside(a) && Armable(p, s) && Step(p, s, a).Some?
    ensures Armable(p, Step(p, s, a).value)
  {}

  lemma ArmableProceed(p: Policy, s: State, a: Action)
    requires a.Proceed? && Armable(p, s) && Step(p, s, a).Some?
    ensures Armable(p, Step(p, s, a).value)
  {}

  lemma ArmableInside(p: Policy, s: State, a: Action)
    requires !Outside(a) && !a.Proceed? && Armable(p, s) && Step(p, s, a).Some?
    ensures Armable(p, Step(p, s, a).value)
  {}

  lemma CausedTaken(p: Policy, s: State, x: Trace, a: Action)
    requires Takes(a) && Handshake(s) && Caused(p, s, x) && Step(p, s, a).Some?
    ensures Caused(p, Step(p, s, a).value, x)
  {}

  lemma CausedCalled(p: Policy, s: State, x: Trace, a: Action)
    requires a.Called? && WireInv(s) && Caused(p, s, x) && Step(p, s, a).Some?
    ensures Caused(p, Step(p, s, a).value, Observe(x, s, a))
  {
    hide WireOrder, HasTerminal, HasError, Verdict;
  }

  lemma CausedWrote(p: Policy, s: State, x: Trace, a: Action)
    requires a.Wrote? && WireInv(s) && Caused(p, s, x) && Step(p, s, a).Some?
    ensures Caused(p, Step(p, s, a).value, Observe(x, s, a))
  {
    hide WireOrder, HasTerminal, HasError, Verdict;
  }

  // ----------------------------------------------------------------------- the transformer

  /** Frames accepted but not given to the transformer yet. */
  function Unasked(l: Loop): seq<Frame> {
    match l
    case Accepted(read, _) => if Failed(read) then [] else [read.frame]
    case Transforming(frame, _) => [frame]
    case _ => []
  }

  function Unwritten(l: Loop): seq<Frame> { if l.Writing? then l.frames else [] }

  /** The transformer is called once for each accepted frame, in order, and the client gets what it
      gave back, in order. */
  predicate Transformed(p: Policy, s: State, x: Trace) {
    p.transforms && s.h.accepted <= |s.h.published| ==>
      && (if s.l.Returned? && s.l.outcome == Some(ClientCancel) then x.asked <= Taken(s.h) && Delivered(s.out.events) <= x.given
          else x.asked + Unasked(s.l) == Taken(s.h) && Delivered(s.out.events) + Unwritten(s.l) == x.given)
  }

  lemma TransformedOutside(p: Policy, s: State, x: Trace, a: Action)
    requires Outside(a) && Next(s) && Transformed(p, s, x) && Step(p, s, a).Some?
    ensures Transformed(p, Step(p, s, a).value, x)
  {
    OutsideOnly(p, s, a);
    OutsideTaken(s.h, Step(p, s, a).value.h);
    hide Step, Delivered, Taken;
  }

  lemma OutsideTaken(h: History, h': History)
    requires h.accepted == h'.accepted <= |h.published| && h.published <= h'.published
    ensures Taken(h') == Taken(h)
  {
    assert h'.published[..h.accepted] == h.published[..h.accepted];
  }

  lemma TransformedJudged(p: Policy, s: State, x: Trace)
    requires s.l.Arbitrate? && Counted(s) && Next(s) && Transformed(p, s, x) && Step(p, s, Proceed).Some?
    ensures Transformed(p, Step(p, s, Proceed).value, x)
  {
    hide Delivered, Taken, Ascending;
    TakenOne(s.h);
    TakenReads(s.h);
  }

  lemma TransformedInside(p: Policy, s: State, x: Trace, a: Action)
    requires !Outside(a) && !a.Wrote? && !a.Called? && !(a.Proceed? && s.l.Arbitrate?)
    requires Next(s) && Caused(p, s, x) && Transformed(p, s, x) && Step(p, s, a).Some?
    ensures Transformed(p, Step(p, s, a).value, Observe(x, s, a))
  {
    hide Delivered, Taken, Justified, Cause;
    TakenReads(s.h);
  }

  lemma TransformedCalled(p: Policy, s: State, x: Trace, a: Action)
    requires a.Called? && Transformed(p, s, x) && Step(p, s, a).Some?
    ensures Transformed(p, Step(p, s, a).value, Observe(x, s, a))
  {
    hide Delivered, Taken;
  }

  lemma TransformedWrote(p: Policy, s: State, x: Trace, a: Action)
    requires a.Wrote? && Transformed(p, s, x) && Step(p, s, a).Some?
    ensures Transformed(p, Step(p, s, a).value, Observe(x, s, a))
  {
    hide Delivered, Taken;
    if s.l.Rendering? {
      DeliveredEmit(s.out, ErrorOut(s.l.cause, a.ok));
    } else if s.l.Writing? {
      if s.l.frames != [] { DeliveredEmit(s.out, FrameOut(s.l.frames[0])); }
    } else {
      DeliveredEmit(s.out, KeepaliveOut);
    }
  }

  // ---------------------------------------------------------------------------- timers

  /** An armed timer ends its interval after the event that armed it, and has fired no earlier. */
  predicate Timed(t: Timer, interval: Option<nat>, since: nat) {
    match t
    case Off => interval.None?
    case Idle => interval.Some?
    case Armed(deadline) => interval.Some? && deadline == since + interval.value
    case Fired(tick) => interval.Some? && since + interval.value <= tick
  }

  predicate Running(t: Timer) { !t.Idle? }

  predicate Due(interval: Option<nat>, since: nat, now: nat) { interval.Some? && since + interval.value <= now }

  /** The loop has taken a keepalive tick and written nothing since. */
  predicate Quiet(l: Loop) {
    || l.KeepTick? || l.KeepPoll? || l.Keeping? || (l.AwaitTime? && l.tick) || (l.Arbitrate? && l.tick) || (l.Accepted? && l.tick)
    || (l.Transforming? && l.tick)
  }

  /** The stopwatch runs from when the loop took up waiting, and the keepalive interval from the last
      write: both are running whenever the loop selects. */
  predicate TimersTrue(p: Policy, s: State, x: Trace) {
    && Timed(s.w.stall, p.idle, x.waitingSince) && Timed(s.w.keepalive, p.keepalive, x.wroteAt)
    && x.waitingSince <= s.w.now && x.wroteAt <= s.w.now && NotAfter(s.w.keepalive, s.w.now)
    && (s.l.Selecting? || s.l.KeepTick? || s.l.KeepPoll? || (s.l.Keeping? && !s.l.rearm) ==> Running(s.w.stall))
    && (s.l.Selecting? || s.l.StallTick? || s.l.StallPoll? ==> Running(s.w.keepalive))
    && (TickOf(s.l).Some? ==> Due(p.idle, x.waitingSince, TickOf(s.l).value))
    && (s.h.stall.Some? ==> Due(p.idle, x.waitingSince, s.h.stall.value.tick))
    && (Quiet(s.l) ==> Due(p.keepalive, x.wroteAt, s.w.now) && s.w.keepalive.Idle?)
    && ((s.l.AwaitTime? || s.l.Arbitrate? || s.l.Accepted? || s.l.Transforming?) && !s.l.tick ==> Running(s.w.keepalive))
    && (s.l.Writing? && s.l.after.AfterTransform? ==>
          if s.l.after.tick && (s.l.after.empty || s.l.frames != []) then
            (s.l.after.empty ==> s.l.frames == [] && Due(p.keepalive, x.wroteAt, s.w.now) && s.w.keepalive.Idle?)
          else Running(s.w.keepalive))
  }

  lemma TimersOutside(p: Policy, s: State, x: Trace, a: Action)
    requires Outside(a) && TimersTrue(p, s, x) && Step(p, s, a).Some?
    ensures TimersTrue(p, Step(p, s, a).value, Observe(x, s, a))
  {}

  lemma TimersStallPolled(p: Policy, s: State, x: Trace, a: Action)
    requires a.Proceed? && (s.l.StallTick? || s.l.StallPoll?) && TimersTrue(p, s, x) && Step(p, s, a).Some?
    ensures TimersTrue(p, Step(p, s, a).value, Observe(x, s, a))
  {}

  lemma TimersKeepPolled(p: Policy, s: State, x: Trace, a: Action)
    requires a.Proceed? && (s.l.KeepTick? || s.l.KeepPoll?) && TimersTrue(p, s, x) && Step(p, s, a).Some?
    ensures TimersTrue(p, Step(p, s, a).value, Observe(x, s, a))
  {}

  lemma TimersPolled(p: Policy, s: State, x: Trace, a: Action)
    requires a.Proceed? && Polls(s.l) && TimersTrue(p, s, x) && Step(p, s, a).Some?
    ensures TimersTrue(p, Step(p, s, a).value, Observe(x, s, a))
  {
    hide TimersTrue, Step, Observe;
    if s.l.StallTick? || s.l.StallPoll? { TimersStallPolled(p, s, x, a); } else { TimersKeepPolled(p, s, x, a); }
  }

  lemma TimersJudged(p: Policy, s: State, x: Trace, a: Action)
    requires a.Proceed? && s.l.Arbitrate? && Clocked(s) && TimersTrue(p, s, x) && Step(p, s, a).Some?
    ensures TimersTrue(p, Step(p, s, a).value, Observe(x, s, a))
  {}

  /** While the loop waits, works or writes, no stall is declared. */
  lemma NoStallYet(p: Policy, s: State, x: Trace)
    requires Caused(p, s, x)
    ensures s.l.Keeping? || (s.l.Writing? && s.l.after.AfterTransform?) ==> s.h.stall.None?
  {
    hide Justified;
  }

  lemma TimersWritten(p: Policy, s: State, x: Trace, a: Action)
    requires a.Proceed? && s.l.Writing? && Caused(p, s, x) && TimersTrue(p, s, x) && Step(p, s, a).Some?
    ensures TimersTrue(p, Step(p, s, a).value, Observe(x, s, a))
  {
    NoStallYet(p, s, x);
    hide Caused;
  }

  lemma TimersFinished(p: Policy, s: State, x: Trace, a: Action)
    requires a.Proceed? && !Polls(s.l) && !s.l.Arbitrate? && !s.l.Writing? && TimersTrue(p, s, x) && Step(p, s, a).Some?
    ensures TimersTrue(p, Step(p, s, a).value, Observe(x, s, a))
  {}

  lemma TimersTaken(p: Policy, s: State, x: Trace, a: Action)
    requires Takes(a) && Clocked(s) && TimersTrue(p, s, x) && Step(p, s, a).Some?
    ensures TimersTrue(p, Step(p, s, a).value, Observe(x, s, a))
  {
    hide Ascending;
  }

  lemma TimersTransformed(p: Policy, s: State, x: Trace, a: Action)
    requires a.Called? && s.l.Transforming? && TimersTrue(p, s, x) && Step(p, s, a).Some?
    ensures TimersTrue(p, Step(p, s, a).value, Observe(x, s, a))
  {}

  lemma TimersFinalized(p: Policy, s: State, x: Trace, a: Action)
    requires a.Called? && !s.l.Transforming? && TimersTrue(p, s, x) && Step(p, s, a).Some?
    ensures TimersTrue(p, Step(p, s, a).value, Observe(x, s, a))
  {}

  lemma TimersCalled(p: Policy, s: State, x: Trace, a: Action)
    requires a.Called? && TimersTrue(p, s, x) && Step(p, s, a).Some?
    ensures TimersTrue(p, Step(p, s, a).value, Observe(x, s, a))
  {
    hide TimersTrue, Step, Observe;
    if s.l.Transforming? { TimersTransformed(p, s, x, a); } else { TimersFinalized(p, s, x, a); }
  }

  lemma TimersWrote(p: Policy, s: State, x: Trace, a: Action)
    requires a.Wrote? && Caused(p, s, x) && TimersTrue(p, s, x) && Step(p, s, a).Some?
    ensures TimersTrue(p, Step(p, s, a).value, Observe(x, s, a))
  {
    NoStallYet(p, s, x);
    hide Caused;
  }

  // ------------------------------------------------------------------------ whole runs

  predicate Told(p: Policy, s: State, x: Trace) { Armable(p, s) && Caused(p, s, x) && Transformed(p, s, x) && TimersTrue(p, s, x) }

  lemma StartTold(p: Policy)
    ensures Told(p, Start(p), UNSEEN)
  {}

  lemma ArmableKept(p: Policy, s: State, a: Action)
    requires Armable(p, s) && Step(p, s, a).Some?
    ensures Armable(p, Step(p, s, a).value)
  {
    hide *;
    if Outside(a) { ArmableOutside(p, s, a); } else if a.Proceed? { ArmableProceed(p, s, a); } else { ArmableInside(p, s, a); }
  }

  lemma Kinds(a: Action)
    ensures Outside(a) || a.Proceed? || Takes(a) || a.Called? || a.Wrote?
    ensures Outside(a) ==> !a.Proceed? && !Takes(a) && !a.Called? && !a.Wrote?
    ensures Takes(a) ==> !a.Proceed? && !a.Called? && !a.Wrote?
  {}

  lemma Unobserved(x: Trace, s: State, a: Action)
    requires Outside(a) || Takes(a)
    ensures Observe(x, s, a) == x
  {}

  lemma CausedKept(p: Policy, s: State, x: Trace, a: Action)
    requires Inv(p, s) && Told(p, s, x) && Step(p, s, a).Some?
    ensures Caused(p, Step(p, s, a).value, Observe(x, s, a))
  {
    hide Step, Observe, Armable, Caused, Transformed, TimersTrue, Verbatim, Next, Handshake, WireInv, Clocked, Counted, Ordered,
      Stopwatch, Named, Outside, Takes;
    Kinds(a);
    if Outside(a) {
      Unobserved(x, s, a);
      CausedOutside(p, s, x, a);
    } else if a.Proceed? {
      CausedProceed(p, s, x);
    } else if Takes(a) {
      Unobserved(x, s, a);
      CausedTaken(p, s, x, a);
    } else if a.Called? {
      CausedCalled(p, s, x, a);
    } else {
      CausedWrote(p, s, x, a);
    }
  }

  lemma TransformedKept(p: Policy, s: State, x: Trace, a: Action)
    requires Inv(p, s) && Told(p, s, x) && Step(p, s, a).Some?
    ensures Transformed(p, Step(p, s, a).value, Observe(x, s, a))
  {
    hide Step, Observe, Armable, Caused, Transformed, TimersTrue, Verbatim, Next, Handshake, WireInv, Clocked, Counted, Ordered,
      Stopwatch, Named, Outside, Takes;
    Kinds(a);
    if Outside(a) {
      Unobserved(x, s, a);
      TransformedOutside(p, s, x, a);
    } else if a.Wrote? {
      TransformedWrote(p, s, x, a);
    } else if a.Called? {
      TransformedCalled(p, s, x, a);
    } else if a.Proceed? && s.l.Arbitrate? {
      JudgedUnobserved(x, s);
      TransformedJudged(p, s, x);
    } else {
      TransformedInside(p, s, x, a);
    }
  }

  lemma JudgedUnobserved(x: Trace, s: State)
    requires !s.l.Writing?
    ensures Observe(x, s, Proceed) == x
  {}

  lemma TimersKept(p: Policy, s: State, x: Trace, a: Action)
    requires Inv(p, s) && Told(p, s, x) && Step(p, s, a).Some?
    ensures TimersTrue(p, Step(p, s, a).value, Observe(x, s, a))
  {
    hide Step, Observe, Armable, Caused, Transformed, TimersTrue, Verbatim, Next, Handshake, WireInv, Clocked, Counted, Ordered,
      Stopwatch, Named, Outside, Takes, Polls;
    Kinds(a);
    if Outside(a) {
      TimersOutside(p, s, x, a);
    } else if a.Called? {
      TimersCalled(p, s, x, a);
    } else if a.Wrote? {
      TimersWrote(p, s, x, a);
    } else if Takes(a) {
      TimersTaken(p, s, x, a);
    } else if Polls(s.l) {
      TimersPolled(p, s, x, a);
    } else if s.l.Arbitrate? {
      TimersJudged(p, s, x, a);
    } else if s.l.Writing? {
      TimersWritten(p, s, x, a);
    } else {
      TimersFinished(p, s, x, a);
    }
  }

  lemma {:induction false} WatchTold(p: Policy, s: State, x: Trace, run: seq<Action>)
    requires Inv(p, s) && Told(p, s, x) && Run(p, s, run).Some?
    ensures Inv(p, Run(p, s, run).value) && Told(p, Run(p, s, run).value, Watch(p, x, s, run))
    decreases |run|
  {
    hide Inv, Step, Observe, Armable, Caused, Transformed, TimersTrue;
    if run != [] {
      StepKeeps(p, s, run[0]);
      ArmableKept(p, s, run[0]);
      CausedKept(p, s, x, run[0]);
      TransformedKept(p, s, x, run[0]);
      TimersKept(p, s, x, run[0]);
      WatchTold(p, Step(p, s, run[0]).value, Observe(x, s, run[0]), run[1..]);
    }
  }

  lemma RunTold(p: Policy, run: seq<Action>, s: State)
    requires Run(p, Start(p), run) == Some(s)
    ensures Inv(p, s) && Told(p, s, Watch(p, UNSEEN, Start(p), run))
  {
    hide *;
    StartInv(p);
    StartTold(p);
    WatchTold(p, Start(p), UNSEEN, run);
  }

  /** The outcome is what happened.  A failed write is the client's end, and only that or a canceled
      context is; a panic of the transformer is a shim error, a declared stall a stall, the end of the
      body a synthesized end and a read error an upstream error; and each of them is clean instead
      once a terminal frame was written. */
  lemma OutcomeHasCause(p: Policy, run: seq<Action>, s: State)
    requires Run(p, Start(p), run) == Some(s) && s.l.Returned?
    ensures s.l.outcome.Some?
    ensures var x, outcome := Watch(p, UNSEEN, Start(p), run), s.l.outcome.value;
      && (x.failedWrite ==> outcome == ClientCancel)
      && (outcome == ClientCancel ==> s.w.canceled || x.failedWrite)
      && (outcome == ShimError ==> x.panicked && p.transforms)
      && (outcome == Stall ==> !x.panicked && s.h.stall.Some?)
      && (outcome == Synthesized ==> !x.panicked && s.h.stall.None? && Last(s.h) == Some(Eof))
      && (outcome == UpstreamError ==> !x.panicked && s.h.stall.None? && Last(s.h) == Some(Broken))
      && (outcome == Clean ==> HasTerminal(s.out.events) && (x.panicked || Cause(s.h).Some? || p.keepalive.Some?))
      && (outcome != ClientCancel && !HasTerminal(s.out.events) ==> outcome != Clean)
  {
    hide Run, Watch, Inv, Armable, Transformed, TimersTrue, HasTerminal;
    RunTold(p, run, s);
    assert Reachable(p, s);
    hide Reachable;
    OutcomeIsTrue(p, s);
  }

  /** A transformer is called once for every accepted frame, in order, and the client gets exactly what
      it gave back, in order; unless the client went away, and then a first part of both. */
  lemma TransformerIsBetween(p: Policy, run: seq<Action>, s: State)
    requires p.transforms && Run(p, Start(p), run) == Some(s) && s.l.Returned?
    ensures var x := Watch(p, UNSEEN, Start(p), run);
      && s.h.accepted <= |s.h.published|
      && x.asked <= FramesOf(s.h.published[..s.h.accepted]) && Delivered(s.out.events) <= x.given
      && (s.l.outcome != Some(ClientCancel) ==>
            x.asked == FramesOf(s.h.published[..s.h.accepted]) && Delivered(s.out.events) == x.given)
  {
    hide *;
    RunTold(p, run, s);
    Between(p, s, Watch(p, UNSEEN, Start(p), run));
  }

  lemma Between(p: Policy, s: State, x: Trace)
    requires p.transforms && Inv(p, s) && Told(p, s, x) && s.l.Returned?
    ensures s.h.accepted <= |s.h.published|
    ensures x.asked <= FramesOf(s.h.published[..s.h.accepted]) && Delivered(s.out.events) <= x.given
    ensures s.l.outcome != Some(ClientCancel) ==>
      x.asked == FramesOf(s.h.published[..s.h.accepted]) && Delivered(s.out.events) == x.given
  {
    hide Armable, Caused, TimersTrue, Verbatim, Handshake, WireInv, Clocked, Counted, Ordered, Stopwatch, Named, Delivered, FramesOf;
  }

  /** A stall is declared only after the idle timeout without waiting anew, and a keepalive written
      only after its interval without a write; while the loop selects both timers run and end exactly
      there. */
  lemma TimersAreTrue(p: Policy, run: seq<Action>, s: State)
    requires Run(p, Start(p), run) == Some(s)
    ensures var x := Watch(p, UNSEEN, Start(p), run);
      && (s.h.stall.Some? ==> Due(p.idle, x.waitingSince, s.h.stall.value.tick))
      && (s.l.Keeping? ==> Due(p.keepalive, x.wroteAt, s.w.now))
      && (s.l.Selecting? && p.idle.Some? ==> s.w.stall.Fired? || s.w.stall == Armed(x.waitingSince + p.idle.value))
      && (s.l.Selecting? && p.keepalive.Some? ==> s.w.keepalive.Fired? || s.w.keepalive == Armed(x.wroteAt + p.keepalive.value))
  {
    hide Run, Watch, Inv, Armable, Transformed, Caused;
    RunTold(p, run, s);
  }

  // ----------------------------------------------------------------------- cancellation

  /** Canceled, and not yet ending with an error for the client. */
  predicate Hushed(s: State) {
    && s.w.canceled && !HasError(s.out.events) && !s.l.Rendering? && !(s.l.Writing? && s.l.after.AfterFinalize?)
    && (s.l.Returned? ==> s.l.outcome == Some(ClientCancel) || s.l.outcome == Some(Clean))
  }

  lemma HushedKept(p: Policy, s: State, x: Trace, a: Action)
    requires Named(s.l) && Handshake(s) && Hushed(s) && Step(p, s, a).Some?
    ensures Hushed(Step(p, s, a).value) && Observe(x, s, a).given == x.given
  {
    hide HasError;
    if a.Wrote? && s.l.Writing? && s.l.frames != [] { NoNewError(s.out, FrameOut(s.l.frames[0])); }
    NoNewError(s.out, KeepaliveOut);
  }

  lemma NoNewError(out: Wire, e: Event)
    requires !HasError(out.events) && !e.ErrorOut?
    ensures !HasError(Emit(out, e).events)
  {
    forall f | f in out.events + [e] ensures !f.ErrorOut? {
      assert f in out.events || f == e;
    }
  }

  /** Cancellation is authoritative: unless the loop is already rendering the end of the stream, once
      the context is canceled no error reaches the client, nothing the transformer gives back does,
      and the outcome is the client's. */
  lemma {:induction false} CancelIsFinal(p: Policy, s: State, x: Trace, run: seq<Action>, t: State)
    requires Inv(p, s) && Hushed(s) && Run(p, s, run) == Some(t)
    ensures Hushed(t) && Watch(p, x, s, run).given == x.given
    decreases |run|
  {
    hide Inv, Step, Observe, Hushed;
    if run != [] {
      InvHushed(p, s);
      HushedKept(p, s, x, run[0]);
      StepKeeps(p, s, run[0]);
      CancelIsFinal(p, Step(p, s, run[0]).value, Observe(x, s, run[0]), run[1..], t);
    }
  }

  lemma InvHushed(p: Policy, s: State)
    requires Inv(p, s)
    ensures Named(s.l) && Handshake(s)
  {
    hide Verbatim, Next, WireInv, Clocked, Counted, Ordered, Stopwatch;
  }

  // --------------------------------------------------------------------------- progress

  predicate LoopAction(a: Action) { Takes(a) || a.Proceed? || a.Called? || a.Wrote? }

  /** The loop waits only for its channels: with a read waiting, a timer fired or the context canceled
      it goes on, and everywhere else it can always go on. */
  lemma LoopGoes(p: Policy, s: State)
    requires !s.l.Returned?
    requires s.l.Selecting? ==> s.w.canceled || s.w.stall.Fired? || s.w.keepalive.Fired? || s.r.slot.Some? || s.r.pc.Exited?
    requires s.l.AwaitTime? ==> s.w.canceled || s.r.pc.Offering?
    ensures exists a :: LoopAction(a) && Step(p, s, a).Some?
    ensures s.l.Selecting? && s.w.stall.Fired? ==> Step(p, s, TakeStall).Some?
    ensures s.l.Selecting? && s.w.keepalive.Fired? ==> Step(p, s, TakeKeepalive).Some?
    ensures s.l.Selecting? && s.r.slot.Some? ==> Step(p, s, TakeRead).Some?
    ensures (s.l.Selecting? || s.l.AwaitTime?) && s.w.canceled ==> Step(p, s, TakeCancel).Some?
  {
    hide Judge, Written, Finish, PreTerminal, Emit;
    var a :=
      if s.l.Selecting? then
        if s.w.canceled then TakeCancel
        else if s.w.stall.Fired? then TakeStall
        else if s.w.keepalive.Fired? then TakeKeepalive
        else TakeRead
      else if s.l.AwaitTime? then if s.w.canceled then TakeCancel else TakeTime
      else if s.l.Transforming? || s.l.Finalizing? then Called([], false)
      else if s.l.Rendering? || s.l.Keeping? || (s.l.Writing? && s.l.frames != []) then Wrote(true)
      else Proceed;
    assert LoopAction(a) && Step(p, s, a).Some?;
  }

  /** The reader waits only for the upstream, for room in the slot and for its sample to be taken. */
  lemma ReaderGoes(p: Policy, s: State)
    ensures s.r.pc.Reading? ==> forall read :: Step(p, s, ReadReturns(read)).Some?
    ensures s.r.pc.Publishing? && s.r.slot.None? ==> Step(p, s, Publish).Some?
    ensures s.r.pc.Sampling? ==> Step(p, s, SampleClock).Some?
    ensures s.r.pc.Offering? && s.l.AwaitTime? ==> Step(p, s, TakeTime).Some?
  {}

  /** How far the loop is from selecting again or returning. */
  function Phase(l: Loop): nat {
    match l
    case Selecting | Returned(_) => 0
    case Rendering(_) => 1
    case Keeping(_) => 2
    case Writing(_, _) => 3
    case Transforming(_, _) | Finalizing(_) => 4
    case Stalled | Accepted(_, _) => 5
    case Arbitrate(_, _, _, _) => 6
    case AwaitTime(_, _, _) => 7
    case StallPoll(_) | KeepPoll => 8
    case StallTick(_) | KeepTick => 9
  }

  /** Every round of the loop ends: whatever it does between two selects brings it nearer to the next
      one or to its return, or writes one frame of what it is writing. */
  lemma RoundEnds(p: Policy, s: State, a: Action)
    requires LoopAction(a) && !s.l.Selecting? && Step(p, s, a).Some?
    ensures var t := Step(p, s, a).value;
      || Phase(t.l) < Phase(s.l)
      || (s.l.Writing? && t.l.Writing? && t.l.after == s.l.after && s.l.frames != [] && t.l.frames == s.l.frames[1..])
  {
    hide Takes;
    if a.Proceed? { ProceedEnds(p, s, a); } else { ActionEnds(p, s, a); }
  }

  lemma ProceedEnds(p: Policy, s: State, a: Action)
    requires a.Proceed? && !s.l.Selecting? && Step(p, s, a).Some?
    ensures Phase(Step(p, s, a).value.l) < Phase(s.l)
  {}

  lemma ActionEnds(p: Policy, s: State, a: Action)
    requires (Takes(a) || a.Called? || a.Wrote?) && !s.l.Selecting? && Step(p, s, a).Some?
    ensures var t := Step(p, s, a).value;
      || Phase(t.l) < Phase(s.l)
      || (s.l.Writing? && t.l.Writing? && t.l.after == s.l.after && s.l.frames != [] && t.l.frames == s.l.frames[1..])
  {}

  /** A bound on what a canceled loop still does. */
  function Rest(l: Loop): nat {
    match l
    case Returned(_) => 0
    case Rendering(_) => 1
    case Stalled | Accepted(_, _) | Transforming(_, _) | Finalizing(_) | StallTick(_) | KeepTick => 2
    case Arbitrate(_, _, _, _) => 3
    case AwaitTime(_, _, _) => 4
    case StallPoll(_) => 5
    case Selecting => 5
    case Keeping(_) => 6
    case KeepPoll => 7
    case Writing(frames, after) => if after.AfterFinalize? then 2 + |frames| else 7 + |frames|
  }

  /** Once canceled, the loop returns: it can always go on, and everything it does brings it nearer. */
  lemma CanceledLoopEnds(p: Policy, s: State, a: Action)
    requires s.w.canceled
    ensures !s.l.Returned? ==> exists b :: LoopAction(b) && Step(p, s, b).Some?
    ensures Step(p, s, a).Some? ==> var t := Step(p, s, a).value;
      t.w.canceled && if LoopAction(a) then Rest(t.l) < Rest(s.l) else t.l == s.l
  {
    hide Step, Rest, Outside, Takes;
    if !s.l.Returned? { LoopGoes(p, s); }
    if Step(p, s, a).Some? {
      Kinds(a);
      if Outside(a) {
        OutsideOnly(p, s, a);
      } else if a.Proceed? {
        CanceledProceed(p, s, a);
      } else {
        CanceledInside(p, s, a);
      }
    }
  }

  lemma CanceledProceed(p: Policy, s: State, a: Action)
    requires s.w.canceled && a.Proceed? && Step(p, s, a).Some?
    ensures var t := Step(p, s, a).value; t.w.canceled && Rest(t.l) < Rest(s.l)
  {}

  lemma CanceledInside(p: Policy, s: State, a: Action)
    requires s.w.canceled && !Outside(a) && !a.Proceed? && Step(p, s, a).Some?
    ensures var t := Step(p, s, a).value; t.w.canceled && Rest(t.l) < Rest(s.l)
  {}

  // ------------------------------------------------------------- what the world and the clock say

  // Whether the context was canceled, the time that has passed, the stall that the ticks and the
  // samples called for, a keepalive tick with nothing written since, and the writes.
  datatype Signs = Signs(canceled: bool, now: nat, stall: Option<Declared>, owed: bool, wrote: seq<Event>)

  const NO_SIGNS := Signs(false, 0, None, false, [])

  /** The stall tick a loop knows of when it orders a read: taken before, or fired by now. */
  function TickSeen(s: State): Option<nat>
    requires s.l.Arbitrate?
  {
    if s.l.stallAt.Some? then s.l.stallAt else if s.w.stall.Fired? then Some(s.w.stall.tick) else None
  }

  /** A stall is due when a tick finds no read waiting, or a read sampled after the tick. */
  function SignsOf(y: Signs, s: State, a: Action): Signs {
    match a
    case Cancel => y.(canceled := true)
    case Advance(seconds) => y.(now := y.now + seconds)
    case Proceed =>
      if s.l.StallPoll? && s.r.slot.None? && !s.r.pc.Exited? then y.(stall := Some(Declared(s.l.at, Some(|s.h.published|))))
      else if s.l.Arbitrate? && TickSeen(s).Some? && s.l.sample > TickSeen(s).value then
        y.(stall := Some(Declared(TickSeen(s).value, None)))
      else y
    case TakeKeepalive => y.(owed := true)
    case Wrote(ok) =>
      if s.l.Rendering? then y.(wrote := y.wrote + [ErrorOut(s.l.cause, ok)])
      else if !ok then y
      else if s.l.Keeping? then y.(owed := false, wrote := y.wrote + [KeepaliveOut])
      else if s.l.Writing? && s.l.frames != [] then y.(owed := false, wrote := y.wrote + [FrameOut(s.l.frames[0])])
      else y
    case _ => y
  }

  function Signal(p: Policy, y: Signs, s: State, run: seq<Action>): Signs
    decreases |run|
  {
    if run == [] || Step(p, s, run[0]).None? then y
    else Signal(p, SignsOf(y, s, run[0]), Step(p, s, run[0]).value, run[1..])
  }

  /** Where the loop still remembers the keepalive tick it has to answer. */
  predicate Remembers(l: Loop) {
    match l
    case KeepTick | KeepPoll | Keeping(_) => true
    case AwaitTime(_, _, tick) => tick
    case Arbitrate(_, _, _, tick) => tick
    case Accepted(_, tick) => tick
    case Transforming(_, tick) => tick
    case Writing(frames, after) => after.AfterFinalize? || frames != [] || (after.tick && after.empty)
    case Stalled | Finalizing(_) | Rendering(_) | Returned(_) => true
    case Selecting | StallTick(_) | StallPoll(_) => false
  }

  predicate Signaled(s: State, y: Signs) {
    && s.w.canceled == y.canceled && s.w.now == y.now && s.h.stall == y.stall && s.out.events == y.wrote
    && (y.owed ==> Remembers(s.l))
  }

  /** A failed read is the last one: the reader publishes nothing after it. */
  predicate FailsLast(s: State) {
    var n := |s.h.published|;
    && (forall i :: 0 <= i < n - 1 ==> !Failed(s.h.published[i]))
    && (n > 0 && Failed(s.h.published[n - 1]) ==> s.r.pc.Exited? || (Busy(s.r.pc) && Flag(s.r.pc, true)))
    && (n > 0 && Busy(s.r.pc) ==> Flag(s.r.pc, Failed(s.h.published[n - 1])))
    && (n == 0 ==> !Busy(s.r.pc))
  }

  lemma SignaledKept(p: Policy, s: State, y: Signs, a: Action)
    requires Signaled(s, y) && Step(p, s, a).Some?
    ensures Signaled(Step(p, s, a).value, SignsOf(y, s, a))
  {
    hide *;
    Kinds(a);
    if Outside(a) {
      SignaledOutside(p, s, y, a);
    } else if a.Proceed? {
      SignaledProceed(p, s, y, a);
    } else {
      SignaledInside(p, s, y, a);
    }
  }

  lemma SignaledOutside(p: Policy, s: State, y: Signs, a: Action)
    requires Outside(a) && Signaled(s, y) && Step(p, s, a).Some?
    ensures Signaled(Step(p, s, a).value, SignsOf(y, s, a))
  {}

  lemma SignaledPolled(p: Policy, s: State, y: Signs, a: Action)
    requires a.Proceed? && Polls(s.l) && Signaled(s, y) && Step(p, s, a).Some?
    ensures Signaled(Step(p, s, a).value, SignsOf(y, s, a))
  {}

  lemma SignaledWorked(p: Policy, s: State, y: Signs, a: Action)
    requires a.Proceed? && !Polls(s.l) && Signaled(s, y) && Step(p, s, a).Some?
    ensures Signaled(Step(p, s, a).value, SignsOf(y, s, a))
  {}

  lemma SignaledProceed(p: Policy, s: State, y: Signs, a: Action)
    requires a.Proceed? && Signaled(s, y) && Step(p, s, a).Some?
    ensures Signaled(Step(p, s, a).value, SignsOf(y, s, a))
  {
    hide Signaled, Step, SignsOf, Polls;
    if Polls(s.l) { SignaledPolled(p, s, y, a); } else { SignaledWorked(p, s, y, a); }
  }

  lemma SignaledInside(p: Policy, s: State, y: Signs, a: Action)
    requires !Outside(a) && !a.Proceed? && Signaled(s, y) && Step(p, s, a).Some?
    ensures Signaled(Step(p, s, a).value, SignsOf(y, s, a))
  {}

  lemma FailsLastKept(p: Policy, s: State, a: Action)
    requires FailsLast(s) && Step(p, s, a).Some?
    ensures FailsLast(Step(p, s, a).value)
  {
    hide *;
    if Outside(a) { FailsLastOutside(p, s, a); } else if a.Proceed? { FailsLastProceed(p, s, a); } else { FailsLastInside(p, s, a); }
  }

  lemma FailsLastOutside(p: Policy, s: State, a: Action)
    requires Outside(a) && FailsLast(s) && Step(p, s, a).Some?
    ensures FailsLast(Step(p, s, a).value)
  {}

  lemma FailsLastProceed(p: Policy, s: State, a: Action)
    requires a.Proceed? && FailsLast(s) && Step(p, s, a).Some?
    ensures FailsLast(Step(p, s, a).value)
  {}

  lemma FailsLastInside(p: Policy, s: State, a: Action)
    requires !Outside(a) && !a.Proceed? && FailsLast(s) && Step(p, s, a).Some?
    ensures FailsLast(Step(p, s, a).value)
  {}

  lemma {:induction false} SignalTold(p: Policy, s: State, y: Signs, run: seq<Action>)
    requires Signaled(s, y) && FailsLast(s) && Run(p, s, run).Some?
    ensures Signaled(Run(p, s, run).value, Signal(p, y, s, run)) && FailsLast(Run(p, s, run).value)
    decreases |run|
  {
    hide Step, Signaled, FailsLast, SignsOf;
    if run != [] {
      SignaledKept(p, s, y, run[0]);
      FailsLastKept(p, s, run[0]);
      SignalTold(p, Step(p, s, run[0]).value, SignsOf(y, s, run[0]), run[1..]);
    }
  }

  /** A stall is declared exactly when, and as, the ticks and samples call for it: at a tick that finds
      no read waiting, or for a read sampled after a tick the loop knows of.  The context is canceled
      exactly once someone has canceled it, and nothing is read after a read has failed.  The client got
      exactly what was written, and no keepalive tick is passed over in silence: by the time the loop
      selects again it has written a frame or a keepalive. */
  lemma StallIsCalledFor(p: Policy, run: seq<Action>, s: State, i: nat)
    requires Run(p, Start(p), run) == Some(s)
    ensures var y := Signal(p, NO_SIGNS, Start(p), run); 
      && s.h.stall == y.stall && s.w.canceled == y.canceled && s.w.now == y.now
      && s.out.events == y.wrote && (s.l.Selecting? ==> !y.owed)
    ensures i < |s.h.published| && Failed(s.h.published[i]) ==> i == |s.h.published| - 1
  {
    hide Step, SignsOf, Run, Signal;
    SignalTold(p, Start(p), NO_SIGNS, run);
  }

  /** A due timer can fire, and has then fired now. */
  lemma TimersFire(p: Policy, s: State)
    ensures s.w.stall.Armed? && s.w.stall.deadline <= s.w.now ==>
      Step(p, s, FireStall) == Some(s.(w := s.w.(stall := Fired(s.w.now))))
    ensures s.w.keepalive.Armed? && s.w.keepalive.deadline <= s.w.now ==>
      Step(p, s, FireKeepalive) == Some(s.(w := s.w.(keepalive := Fired(s.w.now))))
    ensures !(s.w.stall.Armed? && s.w.stall.deadline <= s.w.now) ==> Step(p, s, FireStall).None?
    ensures !(s.w.keepalive.Armed? && s.w.keepalive.deadline <= s.w.now) ==> Step(p, s, FireKeepalive).None?
  {}
}
