/** What holds over every run of the SSE pump (internal/sse/pump.go). */
module PumpRuns {
  import opened Wrappers
  import opened Pump

  // --------------------------------------------------------------------- all runs

  predicate Inv(p: Policy, s: State) {
    Verbatim(p, s) && Next(s) && Handshake(s) && WireInv(s) && Clocked(s) && Counted(s) && Ordered(s.h) && Stopwatch(s) && Named(s.l)
  }

  lemma StartInv(p: Policy)
    ensures Inv(p, Start(p))
  {}

  lemma StepKeeps(p: Policy, s: State, a: Action)
    requires Inv(p, s) && Step(p, s, a).Some?
    ensures Inv(p, Step(p, s, a).value)
  {
    hide Step, Handshake, WireInv, Clocked, Counted, Ordered, Stopwatch, Named, Verbatim, Next;
    VerbatimKept(p, s, a);
    NextKept(p, s, a);
    HandshakeKept(p, s, a);
    WireKept(p, s, a);
    ClockedKept(p, s, a);
    CountedKept(p, s, a);
    OrderedKept(p, s, a);
    StopwatchKept(p, s, a);
    NamedKept(p, s, a);
  }

  lemma {:induction false} RunKeeps(p: Policy, s: State, actions: seq<Action>)
    requires Inv(p, s) && Run(p, s, actions).Some?
    ensures Inv(p, Run(p, s, actions).value)
    decreases |actions|
  {
    hide Inv, Step;
    if actions != [] {
      StepKeeps(p, s, actions[0]);
      RunKeeps(p, Step(p, s, actions[0]).value, actions[1..]);
    }
  }

  lemma ReachableInv(p: Policy, s: State)
    requires Reachable(p, s)
    ensures Inv(p, s)
  {
    hide Inv, Run;
    var actions :| Run(p, Start(p), actions) == Some(s);
    StartInv(p);
    RunKeeps(p, Start(p), actions);
  }

  /** Stall arbitration, exactly.  Once a stall is declared at a tick, the i-th read has been
      lost to it if and only if it was unpublished when the loop looked or sampled after the tick;
      so no read sampled before the tick is lost, and every later sample is at the tick or after. */
  lemma StallArbitration(p: Policy, s: State, i: nat)
    requires Reachable(p, s) && s.h.stall.Some? && i < |s.h.samples|
    ensures var d := s.h.stall.value;
      s.h.accepted <= i <==> (d.polled.Some? && d.polled.value <= i) || d.tick < s.h.samples[i]
    ensures s.h.accepted <= i ==> s.h.stall.value.tick <= s.h.samples[i]
  {
    hide Reachable;
    ReachableInv(p, s);
  }

  /** Rendering an error happens at most once and ends the stream; nothing but frames follows a
      terminal frame, so neither a keepalive nor an error does. */
  lemma WireIsOrderly(p: Policy, s: State, i: nat, j: nat)
    requires Reachable(p, s) && i < j < |s.out.events|
    ensures !s.out.events[i].ErrorOut?
    ensures s.out.events[i].FrameOut? && s.out.events[i].frame.terminal ==> s.out.events[j].FrameOut?
  {
    hide Reachable;
    ReachableInv(p, s);
    assert Allowed(s.out.events[i], s.out.events[j]);
  }

  /** The outcome tells what the client saw, and it is never empty. */
  lemma OutcomeIsTrue(p: Policy, s: State)
    requires Reachable(p, s) && s.l.Returned?
    ensures s.l.outcome.Some?
    ensures s.l.outcome == Some(Clean) ==> HasTerminal(s.out.events)
    ensures s.l.outcome.value != Clean && s.l.outcome.value != ClientCancel ==>
      !HasTerminal(s.out.events) && s.out.events != [] && s.out.events[|s.out.events| - 1] == ErrorOut(s.l.outcome.value, true)
  {
    hide Reachable;
    ReachableInv(p, s);
  }

  /** Without a transformer the client gets exactly the frames of the accepted reads, byte for byte
      and in the order they were read: none twice, none skipped, none invented; all of them unless
      the client went away.  The accepted reads are the first ones that were published. */
  lemma FramesPassThrough(p: Policy, s: State)
    requires Reachable(p, s) && !p.transforms && s.l.Returned?
    ensures s.h.accepted <= |s.h.published| && Delivered(s.out.events) <= FramesOf(s.h.published[..s.h.accepted])
    ensures s.l.outcome != Some(ClientCancel) ==> Delivered(s.out.events) == FramesOf(s.h.published[..s.h.accepted])
  {
    hide Reachable, Delivered, FramesOf;
    ReachableInv(p, s);
  }

  /** After the loop has returned and canceled, the reader can always step and each step brings
      its exit nearer, so joining it ends. */
  function Distance(pc: ReaderPc): nat {
    match pc
    case Reading => 4
    case Publishing(_) => 3
    case Sampling(_) => 2
    case Offering(_, _) => 1
    case Exited => 0
  }

  lemma JoinEnds(p: Policy, s: State, a: Action)
    requires s.l.Returned? && s.w.canceled
    ensures !s.r.pc.Exited? ==>
      Step(p, s, ReadReturns(Broken)).Some? || Step(p, s, SampleClock).Some? || Step(p, s, ReaderQuits).Some?
    ensures Step(p, s, a).Some? ==> var t := Step(p, s, a).value;
      t.l == s.l && t.w.canceled && if Reads(a) then Distance(t.r.pc) < Distance(s.r.pc) else t.r == s.r
  {}

  /** The reader's own steps. */
  predicate Reads(a: Action) { a.ReadReturns? || a.Publish? || a.SampleClock? || a.ReaderQuits? }

  const SAMPLED := Got(Frame(0, true))

  /** A read sampled at the tick itself can be lost: published just after the loop looked, with
      the clock standing still. */
  lemma SampledAtTickLost() returns (p: Policy, s: State)
    ensures Reachable(p, s) && s.l == Returned(Some(Stall)) && !s.w.canceled
    ensures s.h.stall.Some? && s.h.accepted < |s.h.samples| && s.h.samples[s.h.accepted] == s.h.stall.value.tick
  {
    p := Policy(false, Some(1), None);
    var early := [Advance(1), FireStall, TakeStall, Proceed, Proceed];
    var late := [ReadReturns(SAMPLED), Publish, SampleClock, Proceed, Wrote(true)];
    var s1 := State(World(false, 1, Idle, Off), Reader(Reading, None), Stalled, Wire([], false),
                    History([], [], 0, Some(Declared(1, Some(0)))));
    EarlySteps(p, s1, early);
    s := s1.(r := Reader(Offering(1, false), Some(SAMPLED)), l := Returned(Some(Stall)),
             out := Wire([ErrorOut(Stall, true)], false), h := History([1], [SAMPLED], 0, Some(Declared(1, Some(0)))));
    LateSteps(p, s1, s, late);
    RunConcat(p, Start(p), early, late);
    assert Run(p, Start(p), early + late) == Some(s);
  }

  lemma EarlySteps(p: Policy, s1: State, early: seq<Action>)
    requires p == Policy(false, Some(1), None) && early == [Advance(1), FireStall, TakeStall, Proceed, Proceed]
    requires s1 == State(World(false, 1, Idle, Off), Reader(Reading, None), Stalled, Wire([], false),
                         History([], [], 0, Some(Declared(1, Some(0)))))
    ensures Run(p, Start(p), early) == Some(s1)
  {
    var a := Start(p);
    var b := a.(w := a.w.(now := 1));
    var c := b.(w := b.w.(stall := Fired(1)));
    var d := c.(w := c.w.(stall := Idle), l := StallTick(1));
    var e := d.(l := StallPoll(1));
    assert Run(p, s1, []) == Some(s1);
    Unfold(p, e, s1, [Proceed]);
    Unfold(p, d, e, [Proceed, Proceed]);
    Unfold(p, c, d, [TakeStall, Proceed, Proceed]);
    Unfold(p, b, c, [FireStall, TakeStall, Proceed, Proceed]);
    Unfold(p, a, b, early);
  }

  lemma LateSteps(p: Policy, s1: State, s: State, late: seq<Action>)
    requires p == Policy(false, Some(1), None)
    requires late == [ReadReturns(SAMPLED), Publish, SampleClock, Proceed, Wrote(true)]
    requires s1 == State(World(false, 1, Idle, Off), Reader(Reading, None), Stalled, Wire([], false),
                         History([], [], 0, Some(Declared(1, Some(0)))))
    requires s == s1.(r := Reader(Offering(1, false), Some(SAMPLED)), l := Returned(Some(Stall)),
                      out := Wire([ErrorOut(Stall, true)], false), h := History([1], [SAMPLED], 0, Some(Declared(1, Some(0)))))
    ensures Run(p, s1, late) == Some(s)
  {
    var b := s1.(r := Reader(Publishing(SAMPLED), None));
    var c := b.(r := Reader(Sampling(false), Some(SAMPLED)), h := b.h.(published := [SAMPLED]));
    var d := c.(r := Reader(Offering(1, false), Some(SAMPLED)), h := c.h.(samples := [1]));
    assert [] + [SAMPLED] == c.h.published;
    assert c.h.samples + [1] == d.h.samples;
    LateEnd(p, d, s);
    Unfold(p, c, d, [SampleClock, Proceed, Wrote(true)]);
    Unfold(p, b, c, [Publish, SampleClock, Proceed, Wrote(true)]);
    Unfold(p, s1, b, late);
  }

  /** The declared stall is rendered and the loop returns it. */
  lemma LateEnd(p: Policy, d: State, s: State)
    requires p == Policy(false, Some(1), None) && d.w == World(false, 1, Idle, Off) && d.l == Stalled && d.out == Wire([], false)
    requires s == d.(l := Returned(Some(Stall)), out := Wire([ErrorOut(Stall, true)], false))
    ensures Run(p, d, [Proceed, Wrote(true)]) == Some(s)
  {
    var e := d.(l := Rendering(Stall));
    assert e.out.events + [ErrorOut(Stall, true)] == s.out.events;
    assert Run(p, s, []) == Some(s);
    Unfold(p, e, s, [Wrote(true)]);
    Unfold(p, d, e, [Proceed, Wrote(true)]);
  }

  lemma Unfold(p: Policy, s: State, next: State, actions: seq<Action>)
    requires actions != [] && Step(p, s, actions[0]) == Some(next)
    ensures Run(p, s, actions) == Run(p, next, actions[1..])
  {
    hide Step;
  }

  lemma {:induction false} RunConcat(p: Policy, s: State, first: seq<Action>, rest: seq<Action>)
    requires Run(p, s, first).Some?
    ensures Run(p, s, first + rest) == Run(p, Run(p, s, first).value, rest)
    decreases |first|
  {
    hide Step;
    if first == [] {
      assert first + rest == rest;
    } else {
      assert (first + rest)[1..] == first[1..] + rest;
      RunConcat(p, Step(p, s, first[0]).value, first[1..], rest);
    }
  }
}
