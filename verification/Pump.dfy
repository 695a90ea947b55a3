/** The SSE pump (internal/sse/pump.go): a reader goroutine and the main loop share a one-slot
    channel of completed reads, an unbuffered channel of their clock samples, two timers and
    a cancelable context.  One action is one atomic step of either side or of the world. */
module Pump {
  import opened Wrappers

  datatype Outcome = Clean | Synthesized | Stall | ClientCancel | UpstreamError | ShimError

  // A frame; its content stands for all its bytes, and tells whether it is terminal.
  datatype Frame = Frame(content: nat, terminal: bool)

  // What the reader hands over: a frame, the end of the body, or a read error.
  datatype Read = Got(frame: Frame) | Eof | Broken

  predicate Failed(read: Read) { !read.Got? }

  datatype Policy = Policy(transforms: bool, idle: Option<nat>, keepalive: Option<nat>)

  datatype Timer = Off | Idle | Armed(deadline: nat) | Fired(tick: nat)

  datatype World = World(canceled: bool, now: nat, stall: Timer, keepalive: Timer)

  datatype ReaderPc =
    | Reading
    | Publishing(read: Read)
    | Sampling(failed: bool)
    | Offering(sample: nat, failed: bool)
    | Exited

  // The reader and the buffered channel of reads; the channel is closed once the reader exits.
  datatype Reader = Reader(pc: ReaderPc, slot: Option<Read>)

  datatype After = AfterTransform(tick: bool, empty: bool) | AfterFinalize(cause: Outcome)

  datatype Loop =
    | Selecting
    | StallTick(at: nat)
    | StallPoll(at: nat)
    | KeepTick
    | KeepPoll
    | AwaitTime(read: Read, stallAt: Option<nat>, tick: bool)
    | Arbitrate(read: Read, sample: nat, stallAt: Option<nat>, tick: bool)
    | Stalled
    | Accepted(read: Read, tick: bool)
    | Transforming(frame: Frame, tick: bool)
    | Writing(frames: seq<Frame>, after: After)
    | Keeping(rearm: bool)
    | Finalizing(cause: Outcome)
    | Rendering(cause: Outcome)
    | Returned(outcome: Option<Outcome>)

  // What reached the client, in order.
  datatype Event = FrameOut(frame: Frame) | KeepaliveOut | ErrorOut(cause: Outcome, ok: bool)

  datatype Wire = Wire(events: seq<Event>, sawTerminal: bool)

  // A declared stall: its tick, and how many reads had been published when the loop found none
  // waiting; nothing when the loop held a read and ordered it after the tick.
  datatype Declared = Declared(tick: nat, polled: Option<nat>)

  // History: the clock sample of every read in order, the published reads and how many of them were
  // accepted.
  datatype History = History(samples: seq<nat>, published: seq<Read>, accepted: nat, stall: Option<Declared>)

  datatype State = State(w: World, r: Reader, l: Loop, out: Wire, h: History)

  datatype Action =
    | Cancel
    | Advance(seconds: nat)
    | FireStall
    | FireKeepalive
    | ReadReturns(result: Read)
    | Publish
    | SampleClock
    | ReaderQuits
    | TakeCancel
    | TakeStall
    | TakeKeepalive
    | TakeRead
    | TakeTime
    | Proceed
    | Called(output: seq<Frame>, panicked: bool)
    | Wrote(ok: bool)

  function Start(p: Policy): State {
    State(World(false, 0, Arm(p.idle, 0), Arm(p.keepalive, 0)), Reader(Reading, None), Selecting, Wire([], false),
          History([], [], 0, None))
  }

  function Arm(interval: Option<nat>, now: nat): Timer {
    if interval.Some? then Armed(now + interval.value) else Off
  }

  function Stop(t: Timer): Timer { if t.Off? then Off else Idle }

  function Fire(t: Timer, now: nat): Option<Timer> {
    if t.Armed? && t.deadline <= now then Some(Fired(now)) else None
  }

  // ------------------------------------------------------------------------- steps

  function WorldStep(s: State, a: Action): Option<State> {
    match a
    case Cancel => Some(s.(w := s.w.(canceled := true)))
    case Advance(seconds) => Some(s.(w := s.w.(now := s.w.now + seconds)))
    case FireStall =>
      var t := Fire(s.w.stall, s.w.now);
      if t.Some? then Some(s.(w := s.w.(stall := t.value))) else None
    case FireKeepalive =>
      var t := Fire(s.w.keepalive, s.w.now);
      if t.Some? then Some(s.(w := s.w.(keepalive := t.value))) else None
    case _ => None
  }

  /** The reader publishes a completed read before it samples the clock. */
  function ReaderStep(s: State, a: Action): Option<State> {
    match a
    case ReadReturns(read) => if s.r.pc.Reading? then Some(s.(r := s.r.(pc := Publishing(read)))) else None
    case Publish =>
      if s.r.pc.Publishing? && s.r.slot.None? then
        Some(s.(r := Reader(Sampling(Failed(s.r.pc.read)), Some(s.r.pc.read)), h := s.h.(published := s.h.published + [s.r.pc.read])))
      else None
    case SampleClock =>
      if s.r.pc.Sampling? then
        Some(s.(r := s.r.(pc := Offering(s.w.now, s.r.pc.failed)), h := s.h.(samples := s.h.samples + [s.w.now])))
      else None
    case ReaderQuits =>
      if (s.r.pc.Publishing? || s.r.pc.Offering?) && s.w.canceled then Some(s.(r := s.r.(pc := Exited))) else None
    case _ => None
  }

  /** Receiving from the channel of reads: a read, or a closed channel, or neither. */
  function Receive(s: State, stallAt: Option<nat>, tick: bool): Option<State> {
    if s.r.slot.Some? then Some(s.(r := s.r.(slot := None), l := AwaitTime(s.r.slot.value, stallAt, tick)))
    else if s.r.pc.Exited? then Some(s.(l := Returned(if s.w.canceled then Some(ClientCancel) else None)))
    else None
  }

  function SelectStep(s: State, a: Action): Option<State> {
    match a
    case TakeCancel =>
      if s.w.canceled && (s.l.Selecting? || s.l.AwaitTime?) then Some(s.(l := Returned(Some(ClientCancel)))) else None
    case TakeStall =>
      if s.l.Selecting? && s.w.stall.Fired? then Some(s.(l := StallTick(s.w.stall.tick), w := s.w.(stall := Idle))) else None
    case TakeKeepalive =>
      if s.l.Selecting? && s.w.keepalive.Fired? then Some(s.(l := KeepTick, w := s.w.(keepalive := Idle))) else None
    case TakeRead => if s.l.Selecting? then Receive(s, None, false) else None
    case TakeTime =>
      if s.l.AwaitTime? && s.r.pc.Offering? then
        Some(s.(r := s.r.(pc := if s.r.pc.failed then Exited else Reading),
                l := Arbitrate(s.l.read, s.r.pc.sample, s.l.stallAt, s.l.tick)))
      else None
    case _ => None
  }

  function Declare(s: State, at: nat, polled: Option<nat>): State {
    s.(l := Stalled, h := s.h.(stall := Some(Declared(at, polled))))
  }

  /** Ordering a held read against the stall tick, taken late if both were ready. */
  function Judge(s: State): State
    requires s.l.Arbitrate?
  {
    var late := s.l.stallAt.None? && s.w.stall.Fired?;
    var at := if late then Some(s.w.stall.tick) else s.l.stallAt;
    var stall := if late then Idle else s.w.stall;
    if at.Some? && s.l.sample > at.value then Declare(s.(w := s.w.(stall := stall)), at.value, None)
    else s.(w := s.w.(stall := if Failed(s.l.read) then stall else Stop(stall)), l := Accepted(s.l.read, s.l.tick),
            h := s.h.(accepted := s.h.accepted + 1))
  }

  /** finishPreTerminal. */
  function PreTerminal(p: Policy, cause: Outcome): Loop { if p.transforms then Finalizing(cause) else Rendering(cause) }

  function Finish(s: State, p: Policy, cause: Outcome): State {
    s.(l := if s.w.canceled then Returned(Some(ClientCancel))
            else if s.out.sawTerminal then Returned(Some(Clean))
            else PreTerminal(p, cause))
  }

  function Accept(s: State, p: Policy): State
    requires s.l.Accepted?
  {
    if Failed(s.l.read) then Finish(s, p, if s.l.read.Eof? then Synthesized else UpstreamError)
    else if s.w.canceled then s.(l := Returned(Some(ClientCancel)))
    else if p.transforms then s.(l := Transforming(s.l.read.frame, s.l.tick))
    else s.(l := Writing([s.l.read.frame], AfterTransform(s.l.tick, false)))
  }

  /** The frames of one batch are all written. */
  function Written(s: State, p: Policy): State
    requires s.l.Writing?
  {
    match s.l.after
    case AfterFinalize(cause) => s.(l := if s.out.sawTerminal then Returned(Some(Clean)) else Rendering(cause))
    case AfterTransform(tick, empty) =>
      if tick && empty then s.(l := if s.out.sawTerminal then Returned(Some(Clean)) else Keeping(true))
      else s.(l := Selecting, w := s.w.(stall := Arm(p.idle, s.w.now)))
  }

  function ProceedStep(p: Policy, s: State): Option<State> {
    match s.l
    case StallTick(at) => Some(s.(l := if s.w.canceled then Returned(Some(ClientCancel)) else StallPoll(at)))
    case StallPoll(at) =>
      var received := Receive(s, Some(at), false);
      Some(if received.Some? then received.value else Declare(s, at, Some(|s.h.published|)))
    case KeepTick => Some(s.(l := if s.w.canceled then Returned(Some(ClientCancel)) else KeepPoll))
    case KeepPoll =>
      var received := Receive(s, None, true);
      Some(if received.Some? then received.value
           else s.(l := if s.out.sawTerminal then Returned(Some(Clean)) else Keeping(false)))
    case Arbitrate(_, _, _, _) => Some(Judge(s))
    case Stalled => Some(Finish(s, p, Stall))
    case Accepted(_, _) => Some(Accept(s, p))
    case Writing(frames, _) => if frames == [] then Some(Written(s, p)) else None
    case _ => None
  }

  /** The transformer returned or panicked; a canceled context outranks both. */
  function CalledStep(s: State, frames: seq<Frame>, panicked: bool): Option<State> {
    if s.l.Transforming? then
      Some(s.(l := if s.w.canceled then Returned(Some(ClientCancel))
                   else if panicked then if s.out.sawTerminal then Returned(Some(Clean)) else Rendering(ShimError)
                   else Writing(frames, AfterTransform(s.l.tick, frames == []))))
    else if s.l.Finalizing? then
      Some(s.(l := if s.w.canceled then Returned(Some(ClientCancel))
                   else if panicked then Rendering(ShimError)
                   else Writing(frames, AfterFinalize(s.l.cause))))
    else None
  }

  function Emit(out: Wire, e: Event): Wire {
    Wire(out.events + [e], out.sawTerminal || (e.FrameOut? && e.frame.terminal))
  }

  /** One write to the client succeeded or failed. */
  function WroteStep(p: Policy, s: State, ok: bool): Option<State> {
    if s.l.Rendering? then
      Some(s.(l := Returned(Some(if ok then s.l.cause else ClientCancel)), out := Emit(s.out, ErrorOut(s.l.cause, ok))))
    else if !((s.l.Writing? && s.l.frames != []) || s.l.Keeping?) then None
    else if !ok then Some(s.(l := Returned(Some(ClientCancel))))
    else
      var w := s.w.(keepalive := if s.w.keepalive.Off? then Off else Arm(p.keepalive, s.w.now));
      if s.l.Writing? then
        Some(s.(w := w, l := s.l.(frames := s.l.frames[1..]), out := Emit(s.out, FrameOut(s.l.frames[0]))))
      else
        Some(s.(w := if s.l.rearm then w.(stall := Arm(p.idle, w.now)) else w, l := Selecting, out := Emit(s.out, KeepaliveOut)))
  }

  function Step(p: Policy, s: State, a: Action): Option<State> {
    match a
    case Cancel | Advance(_) | FireStall | FireKeepalive => WorldStep(s, a)
    case ReadReturns(_) | Publish | SampleClock | ReaderQuits => ReaderStep(s, a)
    case TakeCancel | TakeStall | TakeKeepalive | TakeRead | TakeTime => SelectStep(s, a)
    case Proceed => ProceedStep(p, s)
    case Called(frames, panicked) => CalledStep(s, frames, panicked)
    case Wrote(ok) => WroteStep(p, s, ok)
  }

  /** A run: every action must be enabled. */
  function Run(p: Policy, s: State, actions: seq<Action>): Option<State>
    decreases |actions|
  {
    if actions == [] then Some(s)
    else
      var next := Step(p, s, actions[0]);
      if next.None? then None else Run(p, next.value, actions[1..])
  }

  ghost predicate Reachable(p: Policy, s: State) { exists actions :: Run(p, Start(p), actions) == Some(s) }

  // --------------------------------------------------------------------- handshake

  predicate Busy(pc: ReaderPc) { pc.Sampling? || pc.Offering? }

  predicate Flag(pc: ReaderPc, failed: bool) { (pc.Sampling? ==> pc.failed == failed) && (pc.Offering? ==> pc.failed == failed) }

  /** The loop can only return from here; it asks for no more reads. */
  predicate Ending(l: Loop) {
    || (l.Arbitrate? && Failed(l.read)) || l.Stalled? || (l.Accepted? && Failed(l.read)) || l.Finalizing? || l.Rendering?
    || (l.Writing? && l.after.AfterFinalize?) || l.Returned?
  }

  /** At most one read is pending: in the slot or held by the loop, its sample taken or under way.
      The channel closes before a cancellation only once the failed read has been taken. */
  predicate Handshake(s: State) {
    && (s.r.slot.Some? ==> (Busy(s.r.pc) && Flag(s.r.pc, Failed(s.r.slot.value))) || (s.r.pc.Exited? && s.w.canceled))
    && (s.l.AwaitTime? ==> s.r.slot.None? && ((Busy(s.r.pc) && Flag(s.r.pc, Failed(s.l.read))) || (s.r.pc.Exited? && s.w.canceled)))
    && (Busy(s.r.pc) ==> s.r.slot.Some? || s.l.AwaitTime? || s.l.Returned?)
    && (s.r.pc.Exited? && !s.w.canceled ==> Ending(s.l))
  }

  lemma HandshakeOutside(p: Policy, s: State, a: Action)
    requires Outside(a) && Handshake(s) && Step(p, s, a).Some?
    ensures Handshake(Step(p, s, a).value)
  {}

  lemma HandshakeProceed(p: Policy, s: State, a: Action)
    requires a.Proceed? && Handshake(s) && Step(p, s, a).Some?
    ensures Handshake(Step(p, s, a).value)
  {}

  lemma HandshakeInside(p: Policy, s: State, a: Action)
    requires !Outside(a) && !a.Proceed? && Handshake(s) && Step(p, s, a).Some?
    ensures Handshake(Step(p, s, a).value)
  {}

  lemma HandshakeKept(p: Policy, s: State, a: Action)
    requires Handshake(s) && Step(p, s, a).Some?
    ensures Handshake(Step(p, s, a).value)
  {
    hide *;
    if Outside(a) { HandshakeOutside(p, s, a); } else if a.Proceed? { HandshakeProceed(p, s, a); } else { HandshakeInside(p, s, a); }
  }

  // -------------------------------------------------------------------------- wire

  /** Nothing follows a rendered error, and only frames follow a terminal frame. */
  predicate Allowed(before: Event, after: Event) {
    !before.ErrorOut? && (before.FrameOut? && before.frame.terminal ==> after.FrameOut?)
  }

  predicate WireOrder(events: seq<Event>) {
    forall i, j :: 0 <= i < j < |events| ==> Allowed(events[i], events[j])
  }

  predicate HasTerminal(events: seq<Event>) { exists e <- events :: e.FrameOut? && e.frame.terminal }

  predicate HasError(events: seq<Event>) { exists e <- events :: e.ErrorOut? }

  predicate Verdict(out: Wire, outcome: Outcome) {
    match outcome
    case Clean => out.sawTerminal
    case ClientCancel => true
    case _ => !out.sawTerminal && out.events != [] && out.events[|out.events| - 1] == ErrorOut(outcome, true)
  }

  predicate WireInv(s: State) {
    && WireOrder(s.out.events)
    && (s.out.sawTerminal <==> HasTerminal(s.out.events))
    && (HasError(s.out.events) ==> s.l.Returned?)
    && (s.l.Rendering? || s.l.Keeping? || s.l.Finalizing? ==> !s.out.sawTerminal)
    && (s.l.Returned? && s.l.outcome.Some? ==> Verdict(s.out, s.l.outcome.value))
    && (s.l.Rendering? ==> s.l.cause != Clean && s.l.cause != ClientCancel)
    && (s.l.Finalizing? ==> s.l.cause != Clean && s.l.cause != ClientCancel)
    && (s.l.Writing? && s.l.after.AfterFinalize? ==> s.l.after.cause != Clean && s.l.after.cause != ClientCancel)
  }

  lemma EmitOrder(out: Wire, e: Event)
    requires WireOrder(out.events) && !HasError(out.events) && (HasTerminal(out.events) ==> e.FrameOut?)
    requires out.sawTerminal <==> HasTerminal(out.events)
    ensures WireOrder(Emit(out, e).events)
    ensures Emit(out, e).sawTerminal <==> HasTerminal(Emit(out, e).events)
    ensures HasError(Emit(out, e).events) <==> e.ErrorOut?
  {
    var longer := out.events + [e];
    assert e in longer;
    forall i | 0 <= i < |out.events| ensures longer[i] in out.events {}
    if HasTerminal(out.events) {
      var t :| t in out.events && t.FrameOut? && t.frame.terminal;
      assert t in longer;
    }
  }

  lemma WireKept(p: Policy, s: State, a: Action)
    requires WireInv(s) && Step(p, s, a).Some?
    ensures WireInv(Step(p, s, a).value)
  {
    hide WireOrder, HasTerminal, HasError;
    if a.Wrote? {
      if s.l.Rendering? {
        EmitOrder(s.out, ErrorOut(s.l.cause, a.ok));
      } else if s.l.Writing? && a.ok {
        EmitOrder(s.out, FrameOut(s.l.frames[0]));
      } else if a.ok {
        EmitOrder(s.out, KeepaliveOut);
      }
    }
  }

  // ------------------------------------------------------------------------- times

  predicate Ascending(samples: seq<nat>) { forall i, j :: 0 <= i <= j < |samples| ==> samples[i] <= samples[j] }

  predicate NotAfter(t: Timer, now: nat) { t.Fired? ==> t.tick <= now }

  function TickOf(l: Loop): Option<nat> {
    match l
    case StallTick(at) => Some(at)
    case StallPoll(at) => Some(at)
    case AwaitTime(_, at, _) => at
    case Arbitrate(_, _, at, _) => at
    case _ => None
  }

  /** Samples ascend and no sample or tick lies in the future. */
  predicate Clocked(s: State) {
    && Ascending(s.h.samples) && (s.h.samples != [] ==> s.h.samples[|s.h.samples| - 1] <= s.w.now)
    && NotAfter(s.w.stall, s.w.now)
    && (TickOf(s.l).Some? ==> TickOf(s.l).value <= s.w.now)
    && (s.h.stall.Some? ==> s.h.stall.value.tick <= s.w.now)
  }

  /** The loop looks at its channels; the other unconditional steps judge, finish or write. */
  predicate Polls(l: Loop) { l.StallTick? || l.StallPoll? || l.KeepTick? || l.KeepPoll? }

  /** A select of the loop took one of its cases. */
  predicate Takes(a: Action) { a.TakeCancel? || a.TakeStall? || a.TakeKeepalive? || a.TakeRead? || a.TakeTime? }

  lemma ClockedOutside(p: Policy, s: State, a: Action)
    requires Outside(a) && Clocked(s) && Step(p, s, a).Some?
    ensures Clocked(Step(p, s, a).value)
  {}

  lemma ClockedPolled(p: Policy, s: State, a: Action)
    requires a.Proceed? && Polls(s.l) && Clocked(s) && Step(p, s, a).Some?
    ensures Clocked(Step(p, s, a).value)
  {}

  lemma ClockedJudged(p: Policy, s: State, a: Action)
    requires a.Proceed? && s.l.Arbitrate? && Clocked(s) && Step(p, s, a).Some?
    ensures Clocked(Step(p, s, a).value)
  {}

  lemma ClockedFinished(p: Policy, s: State, a: Action)
    requires a.Proceed? && !Polls(s.l) && !s.l.Arbitrate? && Clocked(s) && Step(p, s, a).Some?
    ensures Clocked(Step(p, s, a).value)
  {}

  lemma ClockedProceed(p: Policy, s: State, a: Action)
    requires a.Proceed? && Clocked(s) && Step(p, s, a).Some?
    ensures Clocked(Step(p, s, a).value)
  {
    hide *;
    if Polls(s.l) { ClockedPolled(p, s, a); } else if s.l.Arbitrate? { ClockedJudged(p, s, a); } else { ClockedFinished(p, s, a); }
  }

  lemma ClockedTaken(p: Policy, s: State, a: Action)
    requires Takes(a) && Clocked(s) && Step(p, s, a).Some?
    ensures Clocked(Step(p, s, a).value)
  {}

  lemma ClockedCalled(p: Policy, s: State, a: Action)
    requires !Outside(a) && !a.Proceed? && !Takes(a) && Clocked(s) && Step(p, s, a).Some?
    ensures Clocked(Step(p, s, a).value)
  {}

  lemma ClockedInside(p: Policy, s: State, a: Action)
    requires !Outside(a) && !a.Proceed? && Clocked(s) && Step(p, s, a).Some?
    ensures Clocked(Step(p, s, a).value)
  {
    hide *;
    if Takes(a) { ClockedTaken(p, s, a); } else { ClockedCalled(p, s, a); }
  }

  lemma ClockedKept(p: Policy, s: State, a: Action)
    requires Clocked(s) && Step(p, s, a).Some?
    ensures Clocked(Step(p, s, a).value)
  {
    hide *;
    if Outside(a) { ClockedOutside(p, s, a); } else if a.Proceed? { ClockedProceed(p, s, a); } else { ClockedInside(p, s, a); }
  }

  /** An action of the world or of the reader; the others are the loop's. */
  predicate Outside(a: Action) {
    a.Cancel? || a.Advance? || a.FireStall? || a.FireKeepalive? || a.ReadReturns? || a.Publish? || a.SampleClock? || a.ReaderQuits?
  }

  function One(b: bool): nat { if b then 1 else 0 }

  /** Every published read is accepted, in the slot, or held by the loop, until the loop ends;
      every sample belongs to a published read. */
  predicate Counted(s: State) {
    && |s.h.samples| + One(s.r.pc.Sampling?) == |s.h.published| && s.h.accepted <= |s.h.samples|
    && (s.r.pc.Offering? ==> s.h.samples != [] && s.r.pc.sample == s.h.samples[|s.h.samples| - 1])
    && (s.l.Arbitrate? ==> s.h.accepted < |s.h.samples| && s.l.sample == s.h.samples[s.h.accepted])
    && (s.h.stall.None? && !s.l.Returned? ==>
          |s.h.published| == s.h.accepted + One(s.r.slot.Some?) + One(s.l.AwaitTime? || s.l.Arbitrate?))
    && (s.h.stall.Some? ==> Ending(s.l) && !s.l.Arbitrate? && !s.l.Accepted?)
  }

  lemma CountedOutside(p: Policy, s: State, a: Action)
    requires Outside(a) && Handshake(s) && Counted(s) && Step(p, s, a).Some?
    ensures Counted(Step(p, s, a).value)
  {}

  lemma CountedPolled(p: Policy, s: State, a: Action)
    requires a.Proceed? && Polls(s.l) && Handshake(s) && Counted(s) && Step(p, s, a).Some?
    ensures Counted(Step(p, s, a).value)
  {}

  lemma CountedJudged(p: Policy, s: State, a: Action)
    requires a.Proceed? && s.l.Arbitrate? && Handshake(s) && Counted(s) && Step(p, s, a).Some?
    ensures Counted(Step(p, s, a).value)
  {}

  lemma CountedFinished(p: Policy, s: State, a: Action)
    requires a.Proceed? && !Polls(s.l) && !s.l.Arbitrate? && Handshake(s) && Counted(s) && Step(p, s, a).Some?
    ensures Counted(Step(p, s, a).value)
  {}

  lemma CountedProceed(p: Policy, s: State, a: Action)
    requires a.Proceed? && Handshake(s) && Counted(s) && Step(p, s, a).Some?
    ensures Counted(Step(p, s, a).value)
  {
    hide *;
    if Polls(s.l) { CountedPolled(p, s, a); } else if s.l.Arbitrate? { CountedJudged(p, s, a); } else { CountedFinished(p, s, a); }
  }

  lemma CountedTaken(p: Policy, s: State, a: Action)
    requires Takes(a) && Handshake(s) && Counted(s) && Step(p, s, a).Some?
    ensures Counted(Step(p, s, a).value)
  {}

  lemma CountedCalled(p: Policy, s: State, a: Action)
    requires !Outside(a) && !a.Proceed? && !Takes(a) && Handshake(s) && Counted(s) && Step(p, s, a).Some?
    ensures Counted(Step(p, s, a).value)
  {}

  lemma CountedInside(p: Policy, s: State, a: Action)
    requires !Outside(a) && !a.Proceed? && Handshake(s) && Counted(s) && Step(p, s, a).Some?
    ensures Counted(Step(p, s, a).value)
  {
    hide *;
    if Takes(a) { CountedTaken(p, s, a); } else { CountedCalled(p, s, a); }
  }

  lemma CountedKept(p: Policy, s: State, a: Action)
    requires Handshake(s) && Counted(s) && Step(p, s, a).Some?
    ensures Counted(Step(p, s, a).value)
  {
    hide *;
    if Outside(a) { CountedOutside(p, s, a); } else if a.Proceed? { CountedProceed(p, s, a); } else { CountedInside(p, s, a); }
  }

  // ------------------------------------------------------------- stall arbitration

  /** What a declared stall at tick T leaves: a read it found unpublished is sampled at T or
      later, a read it held was sampled after T. */
  predicate Ordered(h: History) {
    h.stall.Some? ==>
      var d := h.stall.value;
      if d.polled.Some? then
        d.polled.value == h.accepted && forall i :: h.accepted <= i < |h.samples| ==> d.tick <= h.samples[i]
      else
        h.accepted < |h.samples| && forall i :: h.accepted <= i < |h.samples| ==> d.tick < h.samples[i]
  }

  lemma OrderedOutside(p: Policy, s: State, a: Action)
    requires Outside(a) && Handshake(s) && Counted(s) && Clocked(s) && Ordered(s.h) && Step(p, s, a).Some?
    ensures Ordered(Step(p, s, a).value.h)
  {}

  lemma OrderedPolled(p: Policy, s: State, a: Action)
    requires a.Proceed? && Polls(s.l) && Handshake(s) && Counted(s) && Clocked(s) && Ordered(s.h) && Step(p, s, a).Some?
    ensures Ordered(Step(p, s, a).value.h)
  {}

  lemma OrderedJudged(p: Policy, s: State, a: Action)
    requires a.Proceed? && s.l.Arbitrate? && Handshake(s) && Counted(s) && Clocked(s) && Ordered(s.h) && Step(p, s, a).Some?
    ensures Ordered(Step(p, s, a).value.h)
  {}

  lemma OrderedFinished(p: Policy, s: State, a: Action)
    requires a.Proceed? && !Polls(s.l) && !s.l.Arbitrate? && Handshake(s) && Counted(s) && Clocked(s) && Ordered(s.h) && Step(p, s, a).Some?
    ensures Ordered(Step(p, s, a).value.h)
  {}

  lemma OrderedInside(p: Policy, s: State, a: Action)
    requires !Outside(a) && !a.Proceed? && Handshake(s) && Counted(s) && Clocked(s) && Ordered(s.h) && Step(p, s, a).Some?
    ensures Ordered(Step(p, s, a).value.h)
  {}

  lemma OrderedKept(p: Policy, s: State, a: Action)
    requires Handshake(s) && Counted(s) && Clocked(s) && Ordered(s.h) && Step(p, s, a).Some?
    ensures Ordered(Step(p, s, a).value.h)
  {
    hide *;
    if Outside(a) {
      OrderedOutside(p, s, a);
    } else if !a.Proceed? {
      OrderedInside(p, s, a);
    } else if Polls(s.l) {
      OrderedPolled(p, s, a);
    } else if s.l.Arbitrate? {
      OrderedJudged(p, s, a);
    } else {
      OrderedFinished(p, s, a);
    }
  }

  /** The loop is busy with an accepted frame; the stopwatch is stopped. */
  predicate Working(l: Loop) {
    (l.Accepted? && !Failed(l.read)) || l.Transforming? || (l.Writing? && l.after.AfterTransform?) || (l.Keeping? && l.rearm)
  }

  predicate SampledBy(samples: seq<nat>, accepted: nat, t: nat) {
    forall i :: 0 <= i < accepted && i < |samples| ==> samples[i] <= t
  }

  predicate AcceptedBy(h: History, t: nat) { SampledBy(h.samples, h.accepted, t) }

  /** Accepted reads were sampled no later than any tick that can still be taken. */
  predicate Stopwatch(s: State) {
    && (Working(s.l) ==> s.w.stall.Off? || s.w.stall.Idle?)
    && ((!Ending(s.l) || s.l.Arbitrate?) && s.w.stall.Armed? ==> AcceptedBy(s.h, s.w.stall.deadline))
    && ((!Ending(s.l) || s.l.Arbitrate?) && s.w.stall.Fired? ==> AcceptedBy(s.h, s.w.stall.tick))
    && (TickOf(s.l).Some? ==> AcceptedBy(s.h, TickOf(s.l).value))
    && (s.h.stall.Some? ==> AcceptedBy(s.h, s.h.stall.value.tick))
  }

  lemma BeforeArm(p: Policy, s: State)
    requires Clocked(s)
    ensures Arm(p.idle, s.w.now).Armed? ==> AcceptedBy(s.h, Arm(p.idle, s.w.now).deadline)
  {}

  lemma StopwatchOutside(p: Policy, s: State, a: Action)
    requires Outside(a) && Handshake(s) && Counted(s) && Clocked(s) && Stopwatch(s) && Step(p, s, a).Some?
    ensures Stopwatch(Step(p, s, a).value)
  {}

  lemma StopwatchJudged(p: Policy, s: State, a: Action)
    requires a.Proceed? && s.l.Arbitrate? && Handshake(s) && Counted(s) && Clocked(s) && Stopwatch(s) && Step(p, s, a).Some?
    ensures Stopwatch(Step(p, s, a).value)
  {
    hide SampledBy, Clocked, Handshake, Ascending;
  }

  lemma StopwatchPolled(p: Policy, s: State, a: Action)
    requires a.Proceed? && Polls(s.l) && Handshake(s) && Counted(s) && Clocked(s) && Stopwatch(s) && Step(p, s, a).Some?
    ensures Stopwatch(Step(p, s, a).value)
  {
    hide SampledBy, Clocked, Handshake, Ascending, Counted, Judge;
    BeforeArm(p, s);
  }

  lemma StopwatchFinished(p: Policy, s: State, a: Action)
    requires a.Proceed? && !Polls(s.l) && !s.l.Arbitrate? && Handshake(s) && Counted(s) && Clocked(s) && Stopwatch(s) && Step(p, s, a).Some?
    ensures Stopwatch(Step(p, s, a).value)
  {
    hide SampledBy, Clocked, Handshake, Ascending, Counted, Judge;
    BeforeArm(p, s);
  }

  lemma StopwatchProceed(p: Policy, s: State, a: Action)
    requires a.Proceed? && Handshake(s) && Counted(s) && Clocked(s) && Stopwatch(s) && Step(p, s, a).Some?
    ensures Stopwatch(Step(p, s, a).value)
  {
    hide *;
    if Polls(s.l) { StopwatchPolled(p, s, a); } else if s.l.Arbitrate? { StopwatchJudged(p, s, a); } else { StopwatchFinished(p, s, a); }
  }

  lemma StopwatchTaken(p: Policy, s: State, a: Action)
    requires Takes(a) && Handshake(s) && Counted(s) && Clocked(s) && Stopwatch(s) && Step(p, s, a).Some?
    ensures Stopwatch(Step(p, s, a).value)
  {
    hide SampledBy, Clocked, Handshake, Ascending;
    BeforeArm(p, s);
  }

  lemma StopwatchCalled(p: Policy, s: State, a: Action)
    requires !Outside(a) && !a.Proceed? && !Takes(a) && Handshake(s) && Counted(s) && Clocked(s) && Stopwatch(s) && Step(p, s, a).Some?
    ensures Stopwatch(Step(p, s, a).value)
  {
    hide SampledBy, Clocked, Handshake, Ascending;
    BeforeArm(p, s);
  }

  lemma StopwatchInside(p: Policy, s: State, a: Action)
    requires !Outside(a) && !a.Proceed? && Handshake(s) && Counted(s) && Clocked(s) && Stopwatch(s) && Step(p, s, a).Some?
    ensures Stopwatch(Step(p, s, a).value)
  {
    hide *;
    if Takes(a) { StopwatchTaken(p, s, a); } else { StopwatchCalled(p, s, a); }
  }

  lemma StopwatchKept(p: Policy, s: State, a: Action)
    requires Handshake(s) && Counted(s) && Clocked(s) && Stopwatch(s) && Step(p, s, a).Some?
    ensures Stopwatch(Step(p, s, a).value)
  {
    hide *;
    if Outside(a) { StopwatchOutside(p, s, a); } else if a.Proceed? { StopwatchProceed(p, s, a); } else { StopwatchInside(p, s, a); }
  }

  /** The loop never returns an empty outcome: it sees the channel closed only after cancellation. */
  predicate Named(l: Loop) { l.Returned? ==> l.outcome.Some? }

  lemma NamedKept(p: Policy, s: State, a: Action)
    requires Handshake(s) && Named(s.l) && Step(p, s, a).Some?
    ensures Named(Step(p, s, a).value.l)
  {}

  // ------------------------------------------------------------------- passing on

  /** The frames among some reads, in order. */
  function FramesOf(done: seq<Read>): seq<Frame> {
    if done == [] then []
    else
      var last := done[|done| - 1];
      FramesOf(done[..|done| - 1]) + if last.Got? then [last.frame] else []
  }

  /** The frames of the accepted reads: the first ones that were published. */
  function Taken(h: History): seq<Frame>
    requires h.accepted <= |h.published|
  {
    FramesOf(h.published[..h.accepted])
  }

  /** The frames the client got. */
  function Delivered(events: seq<Event>): seq<Frame> {
    if events == [] then []
    else
      var last := events[|events| - 1];
      Delivered(events[..|events| - 1]) + if last.FrameOut? then [last.frame] else []
  }

  /** Accepted frames still to be written. */
  function Pending(l: Loop): seq<Frame> {
    match l
    case Accepted(read, _) => if Failed(read) then [] else [read.frame]
    case Writing(frames, _) => frames
    case _ => []
  }

  /** The read the loop holds is the first published one not accepted yet; the slot has the next. */
  predicate Next(s: State) {
    && s.h.accepted <= |s.h.published|
    && (s.h.stall.None? && !s.l.Returned? ==>
          && (s.l.AwaitTime? || s.l.Arbitrate? ==> At(s.h, s.h.accepted, s.l.read))
          && (s.r.slot.Some? ==> At(s.h, s.h.accepted + One(s.l.Arbitrate?), s.r.slot.value)))
  }

  predicate At(h: History, i: nat, read: Read) { i < |h.published| && h.published[i] == read }

  lemma NextOutside(p: Policy, s: State, a: Action)
    requires Outside(a) && Handshake(s) && Counted(s) && Next(s) && Step(p, s, a).Some?
    ensures Next(Step(p, s, a).value)
  {}

  lemma NextPolled(p: Policy, s: State, a: Action)
    requires a.Proceed? && Polls(s.l) && Handshake(s) && Counted(s) && Next(s) && Step(p, s, a).Some?
    ensures Next(Step(p, s, a).value)
  {}

  lemma NextJudged(p: Policy, s: State, a: Action)
    requires a.Proceed? && s.l.Arbitrate? && Handshake(s) && Counted(s) && Next(s) && Step(p, s, a).Some?
    ensures Next(Step(p, s, a).value)
  {}

  lemma NextFinished(p: Policy, s: State, a: Action)
    requires a.Proceed? && !Polls(s.l) && !s.l.Arbitrate? && Handshake(s) && Counted(s) && Next(s) && Step(p, s, a).Some?
    ensures Next(Step(p, s, a).value)
  {}

  lemma NextProceed(p: Policy, s: State, a: Action)
    requires a.Proceed? && Handshake(s) && Counted(s) && Next(s) && Step(p, s, a).Some?
    ensures Next(Step(p, s, a).value)
  {
    hide *;
    if Polls(s.l) { NextPolled(p, s, a); } else if s.l.Arbitrate? { NextJudged(p, s, a); } else { NextFinished(p, s, a); }
  }

  lemma NextTaken(p: Policy, s: State, a: Action)
    requires Takes(a) && Handshake(s) && Counted(s) && Next(s) && Step(p, s, a).Some?
    ensures Next(Step(p, s, a).value)
  {}

  lemma NextCalled(p: Policy, s: State, a: Action)
    requires !Outside(a) && !a.Proceed? && !Takes(a) && Handshake(s) && Counted(s) && Next(s) && Step(p, s, a).Some?
    ensures Next(Step(p, s, a).value)
  {}

  lemma NextInside(p: Policy, s: State, a: Action)
    requires !Outside(a) && !a.Proceed? && Handshake(s) && Counted(s) && Next(s) && Step(p, s, a).Some?
    ensures Next(Step(p, s, a).value)
  {
    hide *;
    if Takes(a) { NextTaken(p, s, a); } else { NextCalled(p, s, a); }
  }

  lemma NextKept(p: Policy, s: State, a: Action)
    requires Handshake(s) && Counted(s) && Next(s) && Step(p, s, a).Some?
    ensures Next(Step(p, s, a).value)
  {
    hide *;
    if Outside(a) { NextOutside(p, s, a); } else if a.Proceed? { NextProceed(p, s, a); } else { NextInside(p, s, a); }
  }

  predicate Verbatim(p: Policy, s: State) {
    s.h.accepted <= |s.h.published| &&
    (!p.transforms ==>
      && !s.l.Transforming? && !s.l.Finalizing? && (s.l.Writing? ==> s.l.after.AfterTransform?)
      && (if s.l.Returned? && s.l.outcome == Some(ClientCancel) then Delivered(s.out.events) <= Taken(s.h)
          else Delivered(s.out.events) + Pending(s.l) == Taken(s.h)))
  }

  lemma DeliveredEmit(out: Wire, e: Event)
    ensures Delivered(Emit(out, e).events) == Delivered(out.events) + if e.FrameOut? then [e.frame] else []
  {
    assert (out.events + [e])[..|out.events|] == out.events;
  }

  lemma TakenOne(h: History)
    requires h.accepted < |h.published|
    ensures Taken(h.(accepted := h.accepted + 1)) ==
      Taken(h) + if h.published[h.accepted].Got? then [h.published[h.accepted].frame] else []
  {
    assert h.published[..h.accepted + 1][..h.accepted] == h.published[..h.accepted];
  }

  lemma TakenStays(h: History, more: seq<Read>)
    requires h.accepted <= |h.published|
    ensures Taken(h.(published := h.published + more)) == Taken(h)
  {
    assert (h.published + more)[..h.accepted] == h.published[..h.accepted];
  }

  lemma VerbatimKept(p: Policy, s: State, a: Action)
    requires Verbatim(p, s) && Counted(s) && Next(s) && Step(p, s, a).Some?
    ensures Verbatim(p, Step(p, s, a).value)
  {
    hide *;
    if Outside(a) {
      VerbatimOutside(p, s, a);
    } else if a.Wrote? {
      VerbatimWrote(p, s, a);
    } else if a.Proceed? && s.l.Arbitrate? {
      VerbatimJudged(p, s, a);
    } else {
      VerbatimInside(p, s, a);
    }
  }

  lemma VerbatimOutside(p: Policy, s: State, a: Action)
    requires Outside(a) && Verbatim(p, s) && Step(p, s, a).Some?
    ensures Verbatim(p, Step(p, s, a).value)
  {
    hide Delivered, Taken;
    if a.Publish? { TakenStays(s.h, [s.r.pc.read]); }
    TakenReads(s.h);
  }

  lemma TakenReads(h: History)
    requires h.accepted <= |h.published|
    ensures forall samples :: Taken(h.(samples := samples)) == Taken(h)
    ensures forall stall :: Taken(h.(stall := stall)) == Taken(h)
  {}

  lemma VerbatimJudged(p: Policy, s: State, a: Action)
    requires a.Proceed? && s.l.Arbitrate? && Verbatim(p, s) && Counted(s) && Next(s) && Step(p, s, a).Some?
    ensures Verbatim(p, Step(p, s, a).value)
  {
    hide Delivered, Taken, Ascending;
    TakenOne(s.h);
    TakenReads(s.h);
  }

  lemma VerbatimInside(p: Policy, s: State, a: Action)
    requires !Outside(a) && !a.Wrote? && !(a.Proceed? && s.l.Arbitrate?) && Verbatim(p, s) && Step(p, s, a).Some?
    ensures Verbatim(p, Step(p, s, a).value)
  {
    hide Delivered, Taken;
    TakenReads(s.h);
  }

  lemma VerbatimWrote(p: Policy, s: State, a: Action)
    requires a.Wrote? && Verbatim(p, s) && Step(p, s, a).Some?
    ensures Verbatim(p, Step(p, s, a).value)
  {
    hide Delivered, Taken;
    if s.l.Rendering? {
      DeliveredEmit(s.out, ErrorOut(s.l.cause, a.ok));
    } else if s.l.Writing? {
      if s.l.frames != [] { DeliveredEmit(s.out, FrameOut(s.l.frames[0])); }
    } else {
      DeliveredEmit(s.out, KeepaliveOut);
    }
  }
}
