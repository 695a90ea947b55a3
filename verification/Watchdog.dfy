/** The hook watchdog (internal/shim/monitor.go): hook invocations and timer callbacks, stale ones
    included, interleave over a state mutex and a publication mutex.  A critical section that
    cannot block is one step; the section that waits for the second mutex is two. */
module Watchdog {
  import opened Wrappers

  datatype HookState = HookReturned | HookPanicked

  // What a thread is about to do.
  datatype Pc =
    | Calling
    | Running
    | Unmonitored
    | EndWait(state: HookState, elapsed: nat)
    | EndLog(state: HookState, elapsed: nat)
    | Ended(logged: bool)
    | Called
    | WantPublish(elapsed: nat)
    | CrossLog(owner: nat, name: nat, elapsed: nat)
    | Counting
    | Done

  // An invocation or a timer callback; the name stands for the shim and hook of an invocation.
  datatype Thread = Thread(invocation: bool, name: nat, pc: Pc)

  // The fields under the state mutex; owner is the invocation that set them.
  datatype Fields = Fields(active: bool, crossed: bool, started: nat, name: nat, owner: nat)

  datatype Entry =
    | Crossing(owner: nat, name: nat, elapsed: nat)
    | Ending(owner: nat, name: nat, state: HookState, elapsed: nat)

  // The two mutexes, by holder, and what is published under the second.
  datatype Locks = Locks(mu: Option<nat>, publish: Option<nat>)

  datatype Output = Output(log: seq<Entry>, recorded: nat)

  // everCrossed is history: the invocations whose crossing was claimed.
  datatype State = State(now: nat, f: Fields, k: Locks, out: Output, threads: map<nat, Thread>, everCrossed: set<nat>)

  datatype Action =
    | Advance(seconds: nat)
    | Invoke(thread: nat, name: nat)
    | TimerFires(thread: nat)
    | Begin(thread: nat)
    | Finish(thread: nat, state: HookState)
    | Abandon(thread: nat)
    | Claim(thread: nat)
    | TakePublish(thread: nat)
    | Log(thread: nat)
    | Count(thread: nat)

  function Start(): State { State(0, Fields(false, false, 0, 0, 0), Locks(None, None), Output([], 0), map[], {}) }

  function At(s: State, t: nat, pc: Pc): State
    requires t in s.threads
  {
    s.(threads := s.threads[t := s.threads[t].(pc := pc)])
  }

  /** begin. */
  function BeginStep(s: State, t: nat): Option<State>
    requires t in s.threads
  {
    if !s.threads[t].pc.Calling? || s.k.mu.Some? then None
    else if s.f.active then Some(At(s, t, Unmonitored))
    else Some(At(s, t, Running).(f := Fields(true, false, s.now, s.threads[t].name, t)))
  }

  /** The state section of finish. */
  function FinishStep(s: State, t: nat, state: HookState): Option<State>
    requires t in s.threads
  {
    if !s.threads[t].pc.Running? || s.k.mu.Some? then None
    else if !s.f.active then Some(At(s, t, Ended(false)))
    else if !s.f.crossed then Some(At(s, t, Ended(false)).(f := s.f.(active := false)))
    else
      var elapsed := if s.now >= s.f.started then s.now - s.f.started else 0;
      Some(At(s, t, EndWait(state, elapsed)).(f := s.f.(active := false)))
  }

  /** abandon, when the hook ends its goroutine. */
  function AbandonStep(s: State, t: nat): Option<State>
    requires t in s.threads
  {
    if !s.threads[t].pc.Running? || s.k.mu.Some? then None
    else Some(At(s, t, Ended(false)).(f := s.f.(active := false)))
  }

  /** publishCrossing up to the second lock: it keeps the state mutex only to claim a crossing. */
  function ClaimStep(threshold: nat, s: State, t: nat): Option<State>
    requires t in s.threads
  {
    if !s.threads[t].pc.Called? || s.k.mu.Some? then None
    else if !s.f.active || s.f.crossed || s.now < s.f.started + threshold then Some(At(s, t, Done))
    else Some(At(s, t, WantPublish(s.now - s.f.started)).(k := s.k.(mu := Some(t))))
  }

  /** Taking the publication mutex: a claimed crossing is exposed and the state mutex released;
      an ending waits its turn. */
  function TakeStep(s: State, t: nat): Option<State>
    requires t in s.threads
  {
    var pc := s.threads[t].pc;
    if s.k.publish.Some? then None
    else if pc.WantPublish? then
      Some(At(s, t, CrossLog(s.f.owner, s.f.name, pc.elapsed)).(
             f := s.f.(crossed := true), k := Locks(None, Some(t)), everCrossed := s.everCrossed + {s.f.owner}))
    else if pc.EndWait? then Some(At(s, t, EndLog(pc.state, pc.elapsed)).(k := s.k.(publish := Some(t))))
    else None
  }

  /** Writing a log record; an ending then releases the mutex, a crossing still counts. */
  function LogStep(s: State, t: nat): Option<State>
    requires t in s.threads
  {
    var pc := s.threads[t].pc;
    if pc.CrossLog? then
      Some(At(s, t, Counting).(out := s.out.(log := s.out.log + [Crossing(pc.owner, pc.name, pc.elapsed)])))
    else if pc.EndLog? then
      Some(At(s, t, Ended(true)).(out := s.out.(log := s.out.log + [Ending(t, s.threads[t].name, pc.state, pc.elapsed)]),
                                  k := s.k.(publish := None)))
    else None
  }

  function CountStep(s: State, t: nat): Option<State>
    requires t in s.threads
  {
    if s.threads[t].pc.Counting? then
      Some(At(s, t, Done).(out := s.out.(recorded := s.out.recorded + 1), k := s.k.(publish := None)))
    else None
  }

  function Step(threshold: nat, s: State, a: Action): Option<State> {
    match a
    case Advance(seconds) => Some(s.(now := s.now + seconds))
    case Invoke(t, name) =>
      if t in s.threads then None else Some(s.(threads := s.threads[t := Thread(true, name, Calling)]))
    case TimerFires(t) => if t in s.threads then None else Some(s.(threads := s.threads[t := Thread(false, 0, Called)]))
    case Begin(t) => if t in s.threads then BeginStep(s, t) else None
    case Finish(t, state) => if t in s.threads then FinishStep(s, t, state) else None
    case Abandon(t) => if t in s.threads then AbandonStep(s, t) else None
    case Claim(t) => if t in s.threads then ClaimStep(threshold, s, t) else None
    case TakePublish(t) => if t in s.threads then TakeStep(s, t) else None
    case Log(t) => if t in s.threads then LogStep(s, t) else None
    case Count(t) => if t in s.threads then CountStep(s, t) else None
  }

  function Run(threshold: nat, s: State, actions: seq<Action>): Option<State>
    decreases |actions|
  {
    if actions == [] then Some(s)
    else
      var next := Step(threshold, s, actions[0]);
      if next.None? then None else Run(threshold, next.value, actions[1..])
  }

  ghost predicate Reachable(threshold: nat, s: State) { exists actions :: Run(threshold, Start(), actions) == Some(s) }

  // ------------------------------------------------------------------------ locks

  predicate HoldsPublish(pc: Pc) { pc.CrossLog? || pc.Counting? || pc.EndLog? }

  predicate ForInvocation(pc: Pc) {
    pc.Calling? || pc.Running? || pc.Unmonitored? || pc.EndWait? || pc.EndLog? || pc.Ended?
  }

  /** Actions that start something, and actions that end an invocation; the others publish. */
  predicate Entering(a: Action) { a.Advance? || a.Invoke? || a.TimerFires? || a.Begin? }

  predicate Closing(a: Action) { a.Finish? || a.Abandon? }

  /** Who holds what; only a claim holds the state mutex between steps. */
  predicate LocksTrue(s: State) {
    && (forall t <- s.threads ::
          && (s.threads[t].pc.WantPublish? <==> s.k.mu == Some(t))
          && (HoldsPublish(s.threads[t].pc) <==> s.k.publish == Some(t))
          && (s.threads[t].invocation <==> ForInvocation(s.threads[t].pc)))
    && (s.k.mu.Some? ==> s.k.mu.value in s.threads && s.f.active && !s.f.crossed)
    && (s.k.publish.Some? ==> s.k.publish.value in s.threads)
  }

  lemma LocksKeptEntering(threshold: nat, s: State, a: Action)
    requires Entering(a) && LocksTrue(s) && Step(threshold, s, a).Some?
    ensures LocksTrue(Step(threshold, s, a).value)
  {}

  lemma LocksKeptClosing(threshold: nat, s: State, a: Action)
    requires Closing(a) && LocksTrue(s) && Step(threshold, s, a).Some?
    ensures LocksTrue(Step(threshold, s, a).value)
  {}

  lemma Publishes(a: Action)
    ensures Entering(a) || Closing(a) || a.Claim? || a.TakePublish? || a.Log? || a.Count?
  {}

  lemma LocksKeptClaiming(threshold: nat, s: State, a: Action)
    requires a.Claim? && LocksTrue(s) && Step(threshold, s, a).Some?
    ensures LocksTrue(Step(threshold, s, a).value)
  {}

  lemma LocksKeptTaking(threshold: nat, s: State, a: Action)
    requires a.TakePublish? && LocksTrue(s) && Step(threshold, s, a).Some?
    ensures LocksTrue(Step(threshold, s, a).value)
  {}

  lemma LocksKeptLogging(threshold: nat, s: State, a: Action)
    requires (a.Log? || a.Count?) && LocksTrue(s) && Step(threshold, s, a).Some?
    ensures LocksTrue(Step(threshold, s, a).value)
  {}

  lemma LocksKeptPublishing(threshold: nat, s: State, a: Action)
    requires !Entering(a) && !Closing(a)
    requires LocksTrue(s) && Step(threshold, s, a).Some?
    ensures LocksTrue(Step(threshold, s, a).value)
  {
    hide *;
    Publishes(a);
    if a.Claim? {
      LocksKeptClaiming(threshold, s, a);
    } else if a.TakePublish? {
      LocksKeptTaking(threshold, s, a);
    } else {
      LocksKeptLogging(threshold, s, a);
    }
  }

  lemma LocksKept(threshold: nat, s: State, a: Action)
    requires LocksTrue(s) && Step(threshold, s, a).Some?
    ensures LocksTrue(Step(threshold, s, a).value)
  {
    hide *;
    if Entering(a) {
      LocksKeptEntering(threshold, s, a);
    } else if Closing(a) {
      LocksKeptClosing(threshold, s, a);
    } else {
      LocksKeptPublishing(threshold, s, a);
    }
  }

  // ------------------------------------------------------------------ invocations

  /** The active fields belong to exactly one running invocation. */
  predicate OwnerTrue(threshold: nat, s: State) {
    && (forall t <- s.threads :: s.threads[t].pc.Running? ==> s.f.active && s.f.owner == t)
    && (forall t <- s.threads :: s.threads[t].pc.WantPublish? ==>
          threshold <= s.threads[t].pc.elapsed && s.f.started + s.threads[t].pc.elapsed <= s.now)
    && (s.f.active ==> s.f.owner in s.threads && s.threads[s.f.owner].pc.Running? && s.f.name == s.threads[s.f.owner].name
                       && s.f.started <= s.now && (s.f.crossed ==> s.f.started + threshold <= s.now))
  }

  lemma OwnerKeptEntering(threshold: nat, s: State, a: Action)
    requires Entering(a) && LocksTrue(s) && OwnerTrue(threshold, s) && Step(threshold, s, a).Some?
    ensures OwnerTrue(threshold, Step(threshold, s, a).value)
  {}

  lemma OwnerKeptClosing(threshold: nat, s: State, a: Action)
    requires Closing(a) && LocksTrue(s) && OwnerTrue(threshold, s) && Step(threshold, s, a).Some?
    ensures OwnerTrue(threshold, Step(threshold, s, a).value)
  {}

  lemma OwnerKeptClaiming(threshold: nat, s: State, a: Action)
    requires a.Claim? && LocksTrue(s) && OwnerTrue(threshold, s) && Step(threshold, s, a).Some?
    ensures OwnerTrue(threshold, Step(threshold, s, a).value)
  {}

  lemma OwnerKeptTaking(threshold: nat, s: State, a: Action)
    requires a.TakePublish? && LocksTrue(s) && OwnerTrue(threshold, s) && Step(threshold, s, a).Some?
    ensures OwnerTrue(threshold, Step(threshold, s, a).value)
  {}

  lemma OwnerKeptLogging(threshold: nat, s: State, a: Action)
    requires (a.Log? || a.Count?) && LocksTrue(s) && OwnerTrue(threshold, s) && Step(threshold, s, a).Some?
    ensures OwnerTrue(threshold, Step(threshold, s, a).value)
  {}

  lemma OwnerKeptPublishing(threshold: nat, s: State, a: Action)
    requires !Entering(a) && !Closing(a)
    requires LocksTrue(s) && OwnerTrue(threshold, s) && Step(threshold, s, a).Some?
    ensures OwnerTrue(threshold, Step(threshold, s, a).value)
  {
    hide *;
    Publishes(a);
    if a.Claim? {
      OwnerKeptClaiming(threshold, s, a);
    } else if a.TakePublish? {
      OwnerKeptTaking(threshold, s, a);
    } else {
      OwnerKeptLogging(threshold, s, a);
    }
  }

  lemma OwnerKept(threshold: nat, s: State, a: Action)
    requires LocksTrue(s) && OwnerTrue(threshold, s) && Step(threshold, s, a).Some?
    ensures OwnerTrue(threshold, Step(threshold, s, a).value)
  {
    hide *;
    if Entering(a) {
      OwnerKeptEntering(threshold, s, a);
    } else if Closing(a) {
      OwnerKeptClosing(threshold, s, a);
    } else {
      OwnerKeptPublishing(threshold, s, a);
    }
  }

  // -------------------------------------------------------------------------- log

  function One(b: bool): nat { if b then 1 else 0 }

  function Crossings(log: seq<Entry>, i: nat): nat {
    if log == [] then 0
    else Crossings(log[..|log| - 1], i) + One(log[|log| - 1].Crossing? && log[|log| - 1].owner == i)
  }

  function Endings(log: seq<Entry>, i: nat): nat {
    if log == [] then 0
    else Endings(log[..|log| - 1], i) + One(log[|log| - 1].Ending? && log[|log| - 1].owner == i)
  }

  function AllCrossings(log: seq<Entry>): nat {
    if log == [] then 0 else AllCrossings(log[..|log| - 1]) + One(log[|log| - 1].Crossing?)
  }

  lemma Appended(log: seq<Entry>, e: Entry, i: nat)
    ensures Crossings(log + [e], i) == Crossings(log, i) + One(e.Crossing? && e.owner == i)
    ensures Endings(log + [e], i) == Endings(log, i) + One(e.Ending? && e.owner == i)
    ensures AllCrossings(log + [e]) == AllCrossings(log) + One(e.Crossing?)
  {
    assert (log + [e])[..|log|] == log;
  }

  /** The crossing of an invocation that is claimed and not yet logged. */
  predicate Pending(s: State, i: nat) {
    s.k.publish.Some? && s.k.publish.value in s.threads
    && s.threads[s.k.publish.value].pc.CrossLog? && s.threads[s.k.publish.value].pc.owner == i
  }

  /** Each claimed crossing is logged once, or is about to be. */
  predicate CrossOnce(s: State, i: nat) { Crossings(s.out.log, i) + One(Pending(s, i)) == One(i in s.everCrossed) }

  predicate EndOnce(s: State, i: nat) { Endings(s.out.log, i) == One(i in s.threads && s.threads[i].pc == Ended(true)) }

  predicate Concluding(pc: Pc) { pc.EndWait? || pc.EndLog? || pc == Ended(true) }

  /** Claims belong to invocations that have begun; an ending belongs to a claimed crossing. */
  predicate ClaimsTrue(s: State) {
    && (forall i <- s.everCrossed :: i in s.threads && !s.threads[i].pc.Calling? && s.threads[i].invocation)
    && (s.f.active ==> (s.f.crossed <==> s.f.owner in s.everCrossed))
    && (forall t <- s.threads :: Concluding(s.threads[t].pc) ==> t in s.everCrossed)
  }

  lemma ClaimsKeptEntering(threshold: nat, s: State, a: Action)
    requires Entering(a) && LocksTrue(s) && OwnerTrue(threshold, s) && ClaimsTrue(s) && Step(threshold, s, a).Some?
    ensures ClaimsTrue(Step(threshold, s, a).value)
  {}

  lemma ClaimsKeptClosing(threshold: nat, s: State, a: Action)
    requires Closing(a) && LocksTrue(s) && OwnerTrue(threshold, s) && ClaimsTrue(s) && Step(threshold, s, a).Some?
    ensures ClaimsTrue(Step(threshold, s, a).value)
  {}

  lemma ClaimsKeptClaiming(threshold: nat, s: State, a: Action)
    requires a.Claim? && LocksTrue(s) && OwnerTrue(threshold, s) && ClaimsTrue(s) && Step(threshold, s, a).Some?
    ensures ClaimsTrue(Step(threshold, s, a).value)
  {}

  lemma ClaimsKeptTaking(threshold: nat, s: State, a: Action)
    requires a.TakePublish? && LocksTrue(s) && OwnerTrue(threshold, s) && ClaimsTrue(s) && Step(threshold, s, a).Some?
    ensures ClaimsTrue(Step(threshold, s, a).value)
  {}

  lemma ClaimsKeptLogging(threshold: nat, s: State, a: Action)
    requires (a.Log? || a.Count?) && LocksTrue(s) && OwnerTrue(threshold, s) && ClaimsTrue(s) && Step(threshold, s, a).Some?
    ensures ClaimsTrue(Step(threshold, s, a).value)
  {}

  lemma ClaimsKeptPublishing(threshold: nat, s: State, a: Action)
    requires !Entering(a) && !Closing(a)
    requires LocksTrue(s) && OwnerTrue(threshold, s) && ClaimsTrue(s) && Step(threshold, s, a).Some?
    ensures ClaimsTrue(Step(threshold, s, a).value)
  {
    hide *;
    Publishes(a);
    if a.Claim? {
      ClaimsKeptClaiming(threshold, s, a);
    } else if a.TakePublish? {
      ClaimsKeptTaking(threshold, s, a);
    } else {
      ClaimsKeptLogging(threshold, s, a);
    }
  }

  lemma ClaimsKept(threshold: nat, s: State, a: Action)
    requires LocksTrue(s) && OwnerTrue(threshold, s) && ClaimsTrue(s) && Step(threshold, s, a).Some?
    ensures ClaimsTrue(Step(threshold, s, a).value)
  {
    hide *;
    if Entering(a) {
      ClaimsKeptEntering(threshold, s, a);
    } else if Closing(a) {
      ClaimsKeptClosing(threshold, s, a);
    } else {
      ClaimsKeptPublishing(threshold, s, a);
    }
  }

  /** The record a step appends, if any. */
  function Added(s: State, a: Action): seq<Entry> {
    if !a.Log? || a.thread !in s.threads then []
    else
      var pc := s.threads[a.thread].pc;
      if pc.CrossLog? then [Crossing(pc.owner, pc.name, pc.elapsed)]
      else if pc.EndLog? then [Ending(a.thread, s.threads[a.thread].name, pc.state, pc.elapsed)]
      else []
  }

  lemma LogAdds(threshold: nat, s: State, a: Action)
    requires Step(threshold, s, a).Some?
    ensures Step(threshold, s, a).value.out.log == s.out.log + Added(s, a)
  {}

  lemma CountsAdd(log: seq<Entry>, added: seq<Entry>, i: nat)
    requires |added| <= 1
    ensures Crossings(log + added, i) == Crossings(log, i) + One(added != [] && added[0].Crossing? && added[0].owner == i)
    ensures Endings(log + added, i) == Endings(log, i) + One(added != [] && added[0].Ending? && added[0].owner == i)
    ensures AllCrossings(log + added) == AllCrossings(log) + One(added != [] && added[0].Crossing?)
  {
    if added == [] {
      assert log + added == log;
    } else {
      assert added == [added[0]];
      Appended(log, added[0], i);
    }
  }

  lemma PendingQuiet(threshold: nat, s: State, a: Action, i: nat)
    requires Entering(a) || Closing(a) || a.Claim? || a.Count?
    requires LocksTrue(s) && OwnerTrue(threshold, s) && ClaimsTrue(s) && Step(threshold, s, a).Some?
    ensures var t := Step(threshold, s, a).value; var added := Added(s, a);
      One(added != [] && added[0].Crossing? && added[0].owner == i) + One(Pending(t, i)) - One(Pending(s, i))
      == One(i in t.everCrossed) - One(i in s.everCrossed)
  {}

  lemma PendingTaken(threshold: nat, s: State, a: Action, i: nat)
    requires a.TakePublish? && LocksTrue(s) && OwnerTrue(threshold, s) && ClaimsTrue(s) && Step(threshold, s, a).Some?
    ensures var t := Step(threshold, s, a).value; var added := Added(s, a);
      One(added != [] && added[0].Crossing? && added[0].owner == i) + One(Pending(t, i)) - One(Pending(s, i))
      == One(i in t.everCrossed) - One(i in s.everCrossed)
  {}

  lemma PendingLogged(threshold: nat, s: State, a: Action, i: nat)
    requires a.Log? && LocksTrue(s) && OwnerTrue(threshold, s) && ClaimsTrue(s) && Step(threshold, s, a).Some?
    ensures var t := Step(threshold, s, a).value; var added := Added(s, a);
      One(added != [] && added[0].Crossing? && added[0].owner == i) + One(Pending(t, i)) - One(Pending(s, i))
      == One(i in t.everCrossed) - One(i in s.everCrossed)
  {}

  /** How one step moves a pending crossing and an ended invocation. */
  lemma PendingMoves(threshold: nat, s: State, a: Action, i: nat)
    requires LocksTrue(s) && OwnerTrue(threshold, s) && ClaimsTrue(s) && Step(threshold, s, a).Some?
    ensures var t := Step(threshold, s, a).value; var added := Added(s, a);
      One(added != [] && added[0].Crossing? && added[0].owner == i) + One(Pending(t, i)) - One(Pending(s, i))
      == One(i in t.everCrossed) - One(i in s.everCrossed)
  {
    hide *;
    Publishes(a);
    if a.TakePublish? {
      PendingTaken(threshold, s, a, i);
    } else if a.Log? {
      PendingLogged(threshold, s, a, i);
    } else {
      PendingQuiet(threshold, s, a, i);
    }
  }

  lemma EndMoves(threshold: nat, s: State, a: Action, i: nat)
    requires LocksTrue(s) && Step(threshold, s, a).Some?
    ensures var t := Step(threshold, s, a).value; var added := Added(s, a);
      One(added != [] && added[0].Ending? && added[0].owner == i) ==
      One(i in t.threads && t.threads[i].pc == Ended(true)) - One(i in s.threads && s.threads[i].pc == Ended(true))
  {}

  lemma OnceKept(threshold: nat, s: State, a: Action, i: nat)
    requires LocksTrue(s) && OwnerTrue(threshold, s) && ClaimsTrue(s) && Step(threshold, s, a).Some?
    requires CrossOnce(s, i) && EndOnce(s, i)
    ensures CrossOnce(Step(threshold, s, a).value, i) && EndOnce(Step(threshold, s, a).value, i)
  {
    hide Step, LocksTrue, OwnerTrue, ClaimsTrue, Pending, Added, Crossings, Endings;
    LogAdds(threshold, s, a);
    AddedOne(s, a);
    CountsAdd(s.out.log, Added(s, a), i);
    PendingMoves(threshold, s, a, i);
    EndMoves(threshold, s, a, i);
  }

  lemma AddedOne(s: State, a: Action)
    ensures |Added(s, a)| <= 1
  {}

  /** Every record is at or past the threshold and names its invocation; an ending stands after
      its own crossing. */
  predicate EntryTrue(threshold: nat, s: State, j: nat)
    requires j < |s.out.log|
  {
    var e := s.out.log[j];
    && threshold <= e.elapsed && e.owner in s.threads && s.threads[e.owner].invocation && e.name == s.threads[e.owner].name
    && (e.Ending? ==> Crossings(s.out.log[..j], e.owner) == 1)
  }

  predicate LogTrue(threshold: nat, s: State) { forall j :: 0 <= j < |s.out.log| ==> EntryTrue(threshold, s, j) }

  /** What is about to be logged is already right. */
  predicate ReadyTrue(threshold: nat, s: State) {
    forall t <- s.threads ::
      var pc := s.threads[t].pc;
      && (pc.EndWait? ==> threshold <= pc.elapsed) && (pc.EndLog? ==> threshold <= pc.elapsed)
      && (pc.CrossLog? ==> threshold <= pc.elapsed && pc.owner in s.threads && s.threads[pc.owner].invocation
                           && pc.name == s.threads[pc.owner].name)
  }

  lemma ReadyKeptEntering(threshold: nat, s: State, a: Action)
    requires Entering(a) && LocksTrue(s) && OwnerTrue(threshold, s) && ReadyTrue(threshold, s) && Step(threshold, s, a).Some?
    ensures ReadyTrue(threshold, Step(threshold, s, a).value)
  {}

  lemma ReadyKeptClosing(threshold: nat, s: State, a: Action)
    requires Closing(a) && LocksTrue(s) && OwnerTrue(threshold, s) && ReadyTrue(threshold, s) && Step(threshold, s, a).Some?
    ensures ReadyTrue(threshold, Step(threshold, s, a).value)
  {}

  lemma ReadyKeptClaiming(threshold: nat, s: State, a: Action)
    requires a.Claim? && LocksTrue(s) && OwnerTrue(threshold, s) && ReadyTrue(threshold, s) && Step(threshold, s, a).Some?
    ensures ReadyTrue(threshold, Step(threshold, s, a).value)
  {}

  lemma ReadyKeptTaking(threshold: nat, s: State, a: Action)
    requires a.TakePublish? && LocksTrue(s) && OwnerTrue(threshold, s) && ReadyTrue(threshold, s) && Step(threshold, s, a).Some?
    ensures ReadyTrue(threshold, Step(threshold, s, a).value)
  {}

  lemma ReadyKeptLogging(threshold: nat, s: State, a: Action)
    requires (a.Log? || a.Count?) && LocksTrue(s) && OwnerTrue(threshold, s) && ReadyTrue(threshold, s) && Step(threshold, s, a).Some?
    ensures ReadyTrue(threshold, Step(threshold, s, a).value)
  {}

  lemma ReadyKeptPublishing(threshold: nat, s: State, a: Action)
    requires !Entering(a) && !Closing(a)
    requires LocksTrue(s) && OwnerTrue(threshold, s) && ReadyTrue(threshold, s) && Step(threshold, s, a).Some?
    ensures ReadyTrue(threshold, Step(threshold, s, a).value)
  {
    hide *;
    Publishes(a);
    if a.Claim? {
      ReadyKeptClaiming(threshold, s, a);
    } else if a.TakePublish? {
      ReadyKeptTaking(threshold, s, a);
    } else {
      ReadyKeptLogging(threshold, s, a);
    }
  }

  lemma ReadyKept(threshold: nat, s: State, a: Action)
    requires LocksTrue(s) && OwnerTrue(threshold, s) && ReadyTrue(threshold, s) && Step(threshold, s, a).Some?
    ensures ReadyTrue(threshold, Step(threshold, s, a).value)
  {
    hide *;
    if Entering(a) {
      ReadyKeptEntering(threshold, s, a);
    } else if Closing(a) {
      ReadyKeptClosing(threshold, s, a);
    } else {
      ReadyKeptPublishing(threshold, s, a);
    }
  }

  /** Threads keep their kind and name. */
  lemma ThreadsStay(threshold: nat, s: State, a: Action, t: nat)
    requires Step(threshold, s, a).Some? && t in s.threads
    ensures var after := Step(threshold, s, a).value;
      t in after.threads && after.threads[t].invocation == s.threads[t].invocation && after.threads[t].name == s.threads[t].name
  {}

  lemma OldEntry(threshold: nat, s: State, a: Action, j: nat)
    requires Step(threshold, s, a).Some? && j < |s.out.log| && EntryTrue(threshold, s, j)
    ensures j < |Step(threshold, s, a).value.out.log| && EntryTrue(threshold, Step(threshold, s, a).value, j)
  {
    hide Step, Added;
    LogAdds(threshold, s, a);
    ThreadsStay(threshold, s, a, s.out.log[j].owner);
    assert (s.out.log + Added(s, a))[..j] == s.out.log[..j];
  }

  lemma NewEntry(threshold: nat, s: State, a: Action)
    requires LocksTrue(s) && ClaimsTrue(s) && ReadyTrue(threshold, s) && Step(threshold, s, a).Some? && Added(s, a) != []
    requires CrossOnce(s, Added(s, a)[0].owner)
    ensures var t := Step(threshold, s, a).value;
      |t.out.log| == |s.out.log| + 1 && EntryTrue(threshold, t, |s.out.log|)
  {
    hide Crossings;
    LogAdds(threshold, s, a);
    var t := Step(threshold, s, a).value;
    assert t.out.log[..|s.out.log|] == s.out.log;
  }

  lemma LogKept(threshold: nat, s: State, a: Action)
    requires LocksTrue(s) && ClaimsTrue(s) && ReadyTrue(threshold, s) && LogTrue(threshold, s) && Step(threshold, s, a).Some?
    requires forall i: nat :: CrossOnce(s, i)
    ensures LogTrue(threshold, Step(threshold, s, a).value)
  {
    hide Step, LocksTrue, ClaimsTrue, ReadyTrue, EntryTrue, CrossOnce, Added;
    LogAdds(threshold, s, a);
    AddedOne(s, a);
    if Added(s, a) != [] { NewEntry(threshold, s, a); }
    forall j | 0 <= j < |s.out.log|
      ensures j < |Step(threshold, s, a).value.out.log| && EntryTrue(threshold, Step(threshold, s, a).value, j)
    {
      OldEntry(threshold, s, a, j);
    }
  }

  /** Every logged crossing is counted, or its publisher is about to count it. */
  predicate CountTrue(s: State) {
    AllCrossings(s.out.log) == s.out.recorded +
      One(s.k.publish.Some? && s.k.publish.value in s.threads && s.threads[s.k.publish.value].pc.Counting?)
  }

  lemma CountQuiet(threshold: nat, s: State, a: Action)
    requires !a.Log? && !a.Count? && LocksTrue(s) && CountTrue(s) && Step(threshold, s, a).Some?
    ensures CountTrue(Step(threshold, s, a).value)
  {
    hide AllCrossings;
  }

  lemma CountLogged(threshold: nat, s: State, a: Action)
    requires (a.Log? || a.Count?) && LocksTrue(s) && CountTrue(s) && Step(threshold, s, a).Some?
    ensures CountTrue(Step(threshold, s, a).value)
  {
    hide AllCrossings;
    LogAdds(threshold, s, a);
    CountsAdd(s.out.log, Added(s, a), 0);
  }

  lemma CountKept(threshold: nat, s: State, a: Action)
    requires LocksTrue(s) && CountTrue(s) && Step(threshold, s, a).Some?
    ensures CountTrue(Step(threshold, s, a).value)
  {
    hide *;
    if a.Log? || a.Count? { CountLogged(threshold, s, a); } else { CountQuiet(threshold, s, a); }
  }
}
