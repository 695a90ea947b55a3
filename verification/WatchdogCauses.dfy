/** Which records the hook watchdog writes (internal/shim/monitor.go): exactly one crossing for every
    invocation that a timer callback finds past its deadline, and exactly one ending for every crossed
    invocation whose hook returns or panics.  A trace watches a run from outside; it looks only at the
    clock, the two mutexes and the actions, never at the watchdog's own fields. */
module WatchdogCauses {
  import opened Wrappers
  import opened Watchdog
  import opened WatchdogRuns

  // A crossing claimed by a callback, for the invocation that was open; how an invocation's hook ended.
  datatype Claimed = Claimed(owner: nat, elapsed: nat)
  datatype Close = Closed(state: HookState, elapsed: nat, crossed: bool)

  // The monitored invocation that has not ended, when each one began and how it ended, the invocations
  // that came while another was open, and those whose hook ended its goroutine; what the callbacks
  // claimed, and which invocations had been claimed.
  datatype Trace = Trace(open: Option<nat>, begun: map<nat, nat>, ended: map<nat, Close>, skipped: set<nat>, abandoned: set<nat>,
                         claims: map<nat, Claimed>, crossed: set<nat>)

  const UNSEEN := Trace(None, map[], map[], {}, {}, map[], {})

  function Observe(threshold: nat, x: Trace, s: State, a: Action): Trace {
    match a
    case Begin(t) =>
      if x.open.Some? then x.(skipped := x.skipped + {t}) else x.(open := Some(t), begun := x.begun[t := s.now])
    case Finish(t, state) =>
      if t !in x.begun then x
      else x.(open := None, ended := x.ended[t := Closed(state, Elapsed(x, s, t), t in x.crossed)])
    case Abandon(t) => x.(open := None, abandoned := x.abandoned + {t})
    case Claim(t) =>
      if x.open.None? || x.open.value !in x.begun || x.open.value in x.crossed || s.now < x.begun[x.open.value] + threshold then x
      else x.(claims := x.claims[t := Claimed(x.open.value, Elapsed(x, s, x.open.value))], crossed := x.crossed + {x.open.value})
    case _ => x
  }

  function Elapsed(x: Trace, s: State, t: nat): nat
    requires t in x.begun
  {
    if s.now >= x.begun[t] then s.now - x.begun[t] else 0
  }

  /** What is seen along a run. */
  function Watch(threshold: nat, x: Trace, s: State, run: seq<Action>): Trace
    decreases |run|
  {
    if run == [] || Step(threshold, s, run[0]).None? then x
    else Watch(threshold, Observe(threshold, x, s, run[0]), Step(threshold, s, run[0]).value, run[1..])
  }

  // ------------------------------------------------------------------- the state is what was seen

  predicate Unheard(x: Trace, t: nat) { t !in x.begun && t !in x.ended && t !in x.skipped && t !in x.abandoned }

  /** How far a thread is, by what it was seen to do. */
  predicate ThreadTrue(s: State, x: Trace, t: nat) {
    && (t in x.claims ==> x.claims[t].owner in x.crossed)
    && if t !in s.threads then Unheard(x, t) && t !in x.claims
       else match s.threads[t].pc
         case Calling => Unheard(x, t) && t !in x.claims
         case Running => x.open == Some(t) && t in x.begun && t !in x.ended && t !in x.abandoned && t !in x.claims
         case Unmonitored => t in x.skipped && t !in x.begun && t !in x.ended && t !in x.claims
         case EndWait(state, elapsed) => t in x.begun && t in x.ended && x.ended[t] == Closed(state, elapsed, true) && t !in x.claims
         case EndLog(state, elapsed) => t in x.begun && t in x.ended && x.ended[t] == Closed(state, elapsed, true) && t !in x.claims
         case Ended(logged) =>
           t in x.begun && t !in x.claims && if t in x.ended then x.ended[t].crossed == logged else !logged && t in x.abandoned
         case Called => Unheard(x, t) && t !in x.claims
         case WantPublish(elapsed) => Unheard(x, t) && t in x.claims && x.claims[t] == Claimed(s.f.owner, elapsed)
         case CrossLog(owner, name, elapsed) => Unheard(x, t) && t in x.claims && x.claims[t] == Claimed(owner, elapsed)
         case Counting => Unheard(x, t) && t in x.claims
         case Done => Unheard(x, t)
  }

  /** The fields are those of the open invocation. */
  predicate FieldsTrue(s: State, x: Trace) {
    && (s.f.active <==> x.open.Some?)
    && (s.f.active ==> x.open == Some(s.f.owner) && s.f.owner in x.begun && x.begun[s.f.owner] == s.f.started)
    && x.crossed == s.everCrossed + (if s.k.mu.Some? then {s.f.owner} else {})
  }

  ghost predicate SeenTrue(s: State, x: Trace) { FieldsTrue(s, x) && forall t: nat :: ThreadTrue(s, x, t) }

  /** What the locks and the claims say of the thread that moves. */
  predicate Fits(s: State, t: nat) {
    && (t in s.threads ==> (s.threads[t].pc.WantPublish? <==> s.k.mu == Some(t)))
    && (s.k.mu.Some? ==> s.f.active && s.f.owner !in s.everCrossed)
    && (s.f.active ==> (s.f.crossed <==> s.f.owner in s.everCrossed))
  }

  lemma FitsNow(s: State, t: nat)
    requires LocksTrue(s) && ClaimsTrue(s)
    ensures Fits(s, t)
  {}

  lemma MovesFields(threshold: nat, s: State, x: Trace, a: Action)
    requires IsMove(a) && Fits(s, a.thread) && FieldsTrue(s, x) && ThreadTrue(s, x, a.thread) && Step(threshold, s, a).Some?
    ensures FieldsTrue(Step(threshold, s, a).value, Observe(threshold, x, s, a))
  {}

  lemma MovesThread(threshold: nat, s: State, x: Trace, a: Action)
    requires IsMove(a) && Fits(s, a.thread) && FieldsTrue(s, x) && ThreadTrue(s, x, a.thread) && Step(threshold, s, a).Some?
    ensures ThreadTrue(Step(threshold, s, a).value, Observe(threshold, x, s, a), a.thread)
  {}

  /** Nothing seen of the others changes, unless the open invocation moved. */
  predicate SameSeen(x: Trace, y: Trace, t: nat) {
    && (t in x.begun <==> t in y.begun) && (t in x.ended <==> t in y.ended) && (t in x.ended && t in y.ended ==> x.ended[t] == y.ended[t])
    && (t in x.skipped <==> t in y.skipped) && (t in x.abandoned <==> t in y.abandoned)
    && (t in x.claims <==> t in y.claims) && (t in x.claims && t in y.claims ==> x.claims[t] == y.claims[t])
    && x.crossed <= y.crossed
  }

  lemma SeenElsewhere(threshold: nat, x: Trace, s: State, a: Action, t: nat)
    requires IsMove(a) ==> a.thread != t
    ensures SameSeen(x, Observe(threshold, x, s, a), t)
  {}

  /** A step leaves the other threads where they are, and the owner while a crossing is claimed. */
  lemma StepElsewhere(threshold: nat, s: State, x: Trace, a: Action, t: nat)
    requires IsMove(a) ==> a.thread != t
    requires Step(threshold, s, a).Some? && t in s.threads && FieldsTrue(s, x)
    requires IsMove(a) ==> Fits(s, a.thread) && ThreadTrue(s, x, a.thread)
    ensures var s', y := Step(threshold, s, a).value, Observe(threshold, x, s, a);
      && t in s'.threads && s'.threads[t] == s.threads[t]
      && (s.threads[t].pc.WantPublish? && s.k.mu == Some(t) ==> s'.f.owner == s.f.owner)
      && (x.open == Some(t) ==> y.open == Some(t))
  {}

  lemma OthersSeen(s: State, x: Trace, s': State, y: Trace, t: nat)
    requires ThreadTrue(s, x, t) && SameSeen(x, y, t) && Fits(s, t)
    requires t in s.threads ==> t in s'.threads && s'.threads[t] == s.threads[t]
    requires t in s'.threads ==> t in s.threads || s'.threads[t].pc.Calling? || s'.threads[t].pc.Called?
    requires t in s.threads && s.threads[t].pc.WantPublish? ==> s'.f.owner == s.f.owner
    requires x.open == Some(t) ==> y.open == Some(t)
    ensures ThreadTrue(s', y, t)
  {}

  lemma NewThreads(threshold: nat, s: State, a: Action, t: nat)
    requires Step(threshold, s, a).Some?
    ensures var s' := Step(threshold, s, a).value;
      t in s'.threads ==> t in s.threads || s'.threads[t].pc.Calling? || s'.threads[t].pc.Called?
  {}

  lemma QuietFields(threshold: nat, s: State, x: Trace, a: Action)
    requires !IsMove(a) && FieldsTrue(s, x) && Step(threshold, s, a).Some?
    ensures FieldsTrue(Step(threshold, s, a).value, Observe(threshold, x, s, a))
    ensures Observe(threshold, x, s, a) == x && Step(threshold, s, a).value.f == s.f
  {}

  lemma SeenKept(threshold: nat, s: State, x: Trace, a: Action)
    requires LocksTrue(s) && ClaimsTrue(s) && SeenTrue(s, x) && Step(threshold, s, a).Some?
    ensures SeenTrue(Step(threshold, s, a).value, Observe(threshold, x, s, a))
  {
    hide Step, Observe, LocksTrue, ClaimsTrue, FieldsTrue, ThreadTrue, SameSeen, Fits;
    var s', y := Step(threshold, s, a).value, Observe(threshold, x, s, a);
    if IsMove(a) {
      FitsNow(s, a.thread);
      assert ThreadTrue(s, x, a.thread);
      MovesFields(threshold, s, x, a);
      MovesThread(threshold, s, x, a);
    } else {
      QuietFields(threshold, s, x, a);
    }
    forall t: nat ensures ThreadTrue(s', y, t) {
      assert ThreadTrue(s, x, t);
      if !(IsMove(a) && a.thread == t) { ElsewhereSeen(threshold, s, x, a, t); }
    }
  }

  lemma ElsewhereSeen(threshold: nat, s: State, x: Trace, a: Action, t: nat)
    requires LocksTrue(s) && ClaimsTrue(s) && FieldsTrue(s, x) && ThreadTrue(s, x, t) && Step(threshold, s, a).Some?
    requires IsMove(a) ==> a.thread != t && ThreadTrue(s, x, a.thread)
    ensures ThreadTrue(Step(threshold, s, a).value, Observe(threshold, x, s, a), t)
  {
    hide Step, Observe, LocksTrue, ClaimsTrue, FieldsTrue, ThreadTrue, SameSeen;
    FitsNow(s, t);
    if IsMove(a) { FitsNow(s, a.thread); }
    SeenElsewhere(threshold, x, s, a, t);
    NewThreads(threshold, s, a, t);
    if t in s.threads {
      StepElsewhere(threshold, s, x, a, t);
    } else {
      NotOpen(threshold, s, x, a, t);
    }
    OthersSeen(s, x, Step(threshold, s, a).value, Observe(threshold, x, s, a), t);
  }

  lemma NotOpen(threshold: nat, s: State, x: Trace, a: Action, t: nat)
    requires ThreadTrue(s, x, t) && t !in s.threads && FieldsTrue(s, x)
    ensures x.open != Some(t)
  {}

  // -------------------------------------------------------------------- what has to be logged is

  predicate LogsCrossing(log: seq<Entry>, c: Claimed) { exists e <- log :: e.Crossing? && e.owner == c.owner && e.elapsed == c.elapsed }

  predicate LogsEnding(log: seq<Entry>, i: nat, name: nat, c: Close) { Ending(i, name, c.state, c.elapsed) in log }

  /** A callback that is through has logged what it claimed, and a crossed invocation that is through
      has logged how it ended. */
  predicate Written(s: State, x: Trace, t: nat) {
    t in s.threads ==>
      && ((s.threads[t].pc.Counting? || s.threads[t].pc.Done?) && t in x.claims ==> LogsCrossing(s.out.log, x.claims[t]))
      && (s.threads[t].pc == Ended(true) && t in x.ended ==> LogsEnding(s.out.log, t, s.threads[t].name, x.ended[t]))
  }

  lemma LogGrows(log: seq<Entry>, more: seq<Entry>, claimed: Claimed, i: nat, name: nat, close: Close)
    ensures LogsCrossing(log, claimed) ==> LogsCrossing(log + more, claimed)
    ensures LogsEnding(log, i, name, close) ==> LogsEnding(log + more, i, name, close)
  {
    if LogsCrossing(log, claimed) {
      var e :| e in log && e.Crossing? && e.owner == claimed.owner && e.elapsed == claimed.elapsed;
      assert e in log + more;
    }
  }

  lemma MovedWrites(threshold: nat, s: State, x: Trace, a: Action)
    requires IsMove(a) && Fits(s, a.thread) && FieldsTrue(s, x) && ThreadTrue(s, x, a.thread) && Step(threshold, s, a).Some?
    requires Written(s, x, a.thread)
    ensures Written(Step(threshold, s, a).value, Observe(threshold, x, s, a), a.thread)
  {
    hide LogsCrossing, LogsEnding;
    LogAdds(threshold, s, a);
    if a.Log? { LastEntry(s.out.log, Added(s, a)); }
    if a.thread in x.claims { LogGrows(s.out.log, Added(s, a), x.claims[a.thread], 0, 0, Closed(HookReturned, 0, true)); }
  }

  lemma LastEntry(log: seq<Entry>, added: seq<Entry>)
    requires |added| == 1
    ensures added[0].Crossing? ==> LogsCrossing(log + added, Claimed(added[0].owner, added[0].elapsed))
    ensures added[0].Ending? ==> LogsEnding(log + added, added[0].owner, added[0].name, Closed(added[0].state, added[0].elapsed, true))
  {
    assert (log + added)[|log|] == added[0];
    assert added[0] in log + added;
  }

  lemma OthersWritten(threshold: nat, s: State, x: Trace, a: Action, t: nat)
    requires Step(threshold, s, a).Some? && Written(s, x, t) && SameSeen(x, Observe(threshold, x, s, a), t)
    requires t in s.threads ==> t in Step(threshold, s, a).value.threads && Step(threshold, s, a).value.threads[t] == s.threads[t]
    requires t !in s.threads && t in Step(threshold, s, a).value.threads ==>
      Step(threshold, s, a).value.threads[t].pc.Calling? || Step(threshold, s, a).value.threads[t].pc.Called?
    ensures Written(Step(threshold, s, a).value, Observe(threshold, x, s, a), t)
  {
    hide Step, Observe, LogsCrossing, LogsEnding, Added;
    LogAdds(threshold, s, a);
    var claimed := if t in x.claims then x.claims[t] else Claimed(0, 0);
    var close := if t in x.ended then x.ended[t] else Closed(HookReturned, 0, true);
    LogGrows(s.out.log, Added(s, a), claimed, t, if t in s.threads then s.threads[t].name else 0, close);
  }

  lemma WrittenKept(threshold: nat, s: State, x: Trace, a: Action)
    requires LocksTrue(s) && ClaimsTrue(s) && SeenTrue(s, x) && Step(threshold, s, a).Some?
    requires forall t: nat :: Written(s, x, t)
    ensures forall t: nat :: Written(Step(threshold, s, a).value, Observe(threshold, x, s, a), t)
  {
    hide Step, Observe, LocksTrue, ClaimsTrue, FieldsTrue, ThreadTrue, SameSeen, Fits, Written;
    forall t: nat ensures Written(Step(threshold, s, a).value, Observe(threshold, x, s, a), t) {
      assert FieldsTrue(s, x) && ThreadTrue(s, x, t) && Written(s, x, t);
      if IsMove(a) && a.thread == t {
        FitsNow(s, t);
        MovedWrites(threshold, s, x, a);
      } else {
        SeenElsewhere(threshold, x, s, a, t);
        NewThreads(threshold, s, a, t);
        StepLowers(threshold, s, a);
        OthersWritten(threshold, s, x, a, t);
      }
    }
  }

  // ------------------------------------------------------------------------ whole runs

  ghost predicate Told(s: State, x: Trace) { SeenTrue(s, x) && forall t: nat :: Written(s, x, t) }

  lemma StartTold()
    ensures Told(Start(), UNSEEN)
  {}

  lemma {:induction false} WatchTold(threshold: nat, s: State, x: Trace, run: seq<Action>)
    requires Inv(threshold, s) && Told(s, x) && Run(threshold, s, run).Some?
    ensures Inv(threshold, Run(threshold, s, run).value) && Told(Run(threshold, s, run).value, Watch(threshold, x, s, run))
    decreases |run|
  {
    hide Inv, Step, Observe, SeenTrue, Written;
    if run != [] {
      InvLocks(threshold, s);
      StepKeeps(threshold, s, run[0]);
      SeenKept(threshold, s, x, run[0]);
      WrittenKept(threshold, s, x, run[0]);
      WatchTold(threshold, Step(threshold, s, run[0]).value, Observe(threshold, x, s, run[0]), run[1..]);
    }
  }

  lemma InvLocks(threshold: nat, s: State)
    requires Inv(threshold, s)
    ensures LocksTrue(s) && ClaimsTrue(s) && (forall i: nat :: CrossOnce(s, i)) && (forall i: nat :: EndOnce(s, i))
  {
    hide LocksTrue, ClaimsTrue, OwnerTrue, ReadyTrue, LogTrue, CountTrue, CrossOnce, EndOnce;
    forall i: nat ensures CrossOnce(s, i) && EndOnce(s, i) {}
  }

  lemma RunTold(threshold: nat, run: seq<Action>, s: State)
    requires Run(threshold, Start(), run) == Some(s)
    ensures Inv(threshold, s) && Told(s, Watch(threshold, UNSEEN, Start(), run))
  {
    hide *;
    StartInv(threshold);
    StartTold();
    WatchTold(threshold, Start(), UNSEEN, run);
  }

  /** Every crossed invocation whose hook returned or panicked logs exactly one ending, with the state
      it finished in and the time it took by then; one that had not crossed, was abandoned or was never
      monitored logs none. */
  lemma EndingIsLogged(threshold: nat, run: seq<Action>, s: State, i: nat)
    requires Run(threshold, Start(), run) == Some(s) && i in s.threads && s.threads[i].invocation && Over(s.threads[i].pc)
    ensures var x := Watch(threshold, UNSEEN, Start(), run);
      && (i in x.ended || i in x.abandoned || i in x.skipped)
      && Endings(s.out.log, i) == One(i in x.ended && x.ended[i].crossed)
      && (i in x.ended && x.ended[i].crossed ==> Ending(i, s.threads[i].name, x.ended[i].state, x.ended[i].elapsed) in s.out.log)
  {
    hide *;
    RunTold(threshold, run, s);
    InvLocks(threshold, s);
    EndingOf(s, Watch(threshold, UNSEEN, Start(), run), i);
  }

  lemma EndingOf(s: State, x: Trace, i: nat)
    requires Told(s, x) && LocksTrue(s) && EndOnce(s, i) && i in s.threads && s.threads[i].invocation && Over(s.threads[i].pc)
    ensures i in x.ended || i in x.abandoned || i in x.skipped
    ensures Endings(s.out.log, i) == One(i in x.ended && x.ended[i].crossed)
    ensures i in x.ended && x.ended[i].crossed ==> Ending(i, s.threads[i].name, x.ended[i].state, x.ended[i].elapsed) in s.out.log
  {
    hide Endings, LogsCrossing;
    assert ThreadTrue(s, x, i) && Written(s, x, i);
  }

  /** Every callback that found an open invocation past its deadline and not claimed yet leads to that
      invocation's one logged crossing; an invocation that no callback found so has none. */
  lemma CrossingIsLogged(threshold: nat, run: seq<Action>, s: State, t: nat, i: nat)
    requires Run(threshold, Start(), run) == Some(s)
    ensures var x := Watch(threshold, UNSEEN, Start(), run);
      && (t in x.claims && t in s.threads && Over(s.threads[t].pc) ==>
            Crossings(s.out.log, x.claims[t].owner) == 1 && LogsCrossing(s.out.log, x.claims[t]))
      && (i !in x.crossed ==> Crossings(s.out.log, i) == 0)
  {
    hide *;
    RunTold(threshold, run, s);
    InvLocks(threshold, s);
    var x := Watch(threshold, UNSEEN, Start(), run);
    CrossingOf(s, x, t);
    NoCrossing(s, x, i);
  }

  lemma CrossingOf(s: State, x: Trace, t: nat)
    requires Told(s, x) && LocksTrue(s) && forall i: nat :: CrossOnce(s, i)
    ensures t in x.claims && t in s.threads && Over(s.threads[t].pc) ==>
      LogsCrossing(s.out.log, x.claims[t]) && Crossings(s.out.log, x.claims[t].owner) == 1
  {
    hide Crossings, LogsCrossing, LogsEnding, LocksTrue, FieldsTrue, Pending;
    assert ThreadTrue(s, x, t) && Written(s, x, t);
    if t in x.claims && t in s.threads && Over(s.threads[t].pc) {
      assert CrossOnce(s, x.claims[t].owner);
      SomeCrossing(s.out.log, x.claims[t]);
    }
  }

  lemma {:induction false} SomeCrossing(log: seq<Entry>, c: Claimed)
    requires LogsCrossing(log, c)
    ensures Crossings(log, c.owner) >= 1
  {
    var n := |log| - 1;
    if !(log[n].Crossing? && log[n].owner == c.owner && log[n].elapsed == c.elapsed) {
      var e :| e in log && e.Crossing? && e.owner == c.owner && e.elapsed == c.elapsed;
      assert e in log[..n];
      SomeCrossing(log[..n], c);
    }
  }

  lemma NoCrossing(s: State, x: Trace, i: nat)
    requires Told(s, x) && forall i: nat :: CrossOnce(s, i)
    ensures i !in x.crossed ==> Crossings(s.out.log, i) == 0
  {
    hide Crossings, Pending, Written;
    assert CrossOnce(s, i);
  }

  /** An invocation is monitored exactly when no other is open as it begins. */
  lemma MonitoredUnlessOpen(threshold: nat, run: seq<Action>, s: State, i: nat)
    requires Run(threshold, Start(), run) == Some(s) && i in s.threads && s.threads[i].invocation
    ensures var x := Watch(threshold, UNSEEN, Start(), run);
      && (s.threads[i].pc.Unmonitored? <==> i in x.skipped && i !in x.begun)
      && (s.threads[i].pc.Running? <==> x.open == Some(i))
      && (i in x.begun ==> !s.threads[i].pc.Calling? && !s.threads[i].pc.Unmonitored?)
  {
    hide *;
    RunTold(threshold, run, s);
    InvLocks(threshold, s);
    InvOwner(threshold, s);
    MonitoredOf(threshold, s, Watch(threshold, UNSEEN, Start(), run), i);
  }

  lemma InvOwner(threshold: nat, s: State)
    requires Inv(threshold, s)
    ensures OwnerTrue(threshold, s)
  {
    hide LocksTrue, ClaimsTrue, OwnerTrue, ReadyTrue, LogTrue, CountTrue, CrossOnce, EndOnce;
  }

  lemma MonitoredOf(threshold: nat, s: State, x: Trace, i: nat)
    requires Told(s, x) && LocksTrue(s) && OwnerTrue(threshold, s) && i in s.threads && s.threads[i].invocation
    ensures s.threads[i].pc.Unmonitored? <==> i in x.skipped && i !in x.begun
    ensures s.threads[i].pc.Running? <==> x.open == Some(i)
    ensures i in x.begun ==> !s.threads[i].pc.Calling? && !s.threads[i].pc.Unmonitored?
  {
    hide Written;
    assert ThreadTrue(s, x, i);
  }

  /** The state mutex alone makes begin, finish, abandon and a callback wait, the publication mutex alone a
      claimed crossing and an ending, and writing a record waits for nothing. */
  lemma WaitsOnlyForItsMutex(threshold: nat, s: State, t: nat)
    requires t in s.threads
    ensures var pc := s.threads[t].pc;
      && (pc.Calling? ==> (Step(threshold, s, Begin(t)).Some? <==> s.k.mu.None?))
      && (pc.Running? ==> forall state :: Step(threshold, s, Finish(t, state)).Some? <==> s.k.mu.None?)
      && (pc.Running? ==> (Step(threshold, s, Abandon(t)).Some? <==> s.k.mu.None?))
      && (pc.Called? ==> (Step(threshold, s, Claim(t)).Some? <==> s.k.mu.None?))
      && (pc.WantPublish? || pc.EndWait? ==> (Step(threshold, s, TakePublish(t)).Some? <==> s.k.publish.None?))
      && (pc.CrossLog? || pc.EndLog? ==> Step(threshold, s, Log(t)).Some?)
      && (pc.Counting? ==> Step(threshold, s, Count(t)).Some?)
  {}

  /** The invocation whose record is being written. */
  function Published(s: State, x: Trace): nat
    requires s.k.publish.Some? && s.k.publish.value in s.threads
    requires !s.threads[s.k.publish.value].pc.EndLog? ==> s.k.publish.value in x.claims
  {
    var p := s.k.publish.value;
    if s.threads[p].pc.EndLog? then p else x.claims[p].owner
  }

  /** When the open invocation has to wait for the state mutex while a record is written, that record is
      of an earlier invocation whose hook is over. */
  lemma LoggerIsEarlier(threshold: nat, run: seq<Action>, s: State)
    requires Run(threshold, Start(), run) == Some(s) && s.k.mu.Some? && s.k.publish.Some?
    ensures var x := Watch(threshold, UNSEEN, Start(), run);
      && s.f.active && s.k.publish.value in s.threads
      && (!s.threads[s.k.publish.value].pc.EndLog? ==> s.k.publish.value in x.claims)
      && Published(s, x) != s.f.owner && Published(s, x) in s.threads && !s.threads[Published(s, x)].pc.Running?
  {
    hide *;
    RunTold(threshold, run, s);
    InvLocks(threshold, s);
    InvOwner(threshold, s);
    EarlierRecord(threshold, s, Watch(threshold, UNSEEN, Start(), run));
  }

  lemma EarlierRecord(threshold: nat, s: State, x: Trace)
    requires Told(s, x) && LocksTrue(s) && ClaimsTrue(s) && OwnerTrue(threshold, s) && (forall i: nat :: CrossOnce(s, i))
    requires s.k.mu.Some? && s.k.publish.Some?
    ensures s.f.active && s.k.publish.value in s.threads
    ensures !s.threads[s.k.publish.value].pc.EndLog? ==> s.k.publish.value in x.claims
    ensures Published(s, x) != s.f.owner && Published(s, x) in s.threads && !s.threads[Published(s, x)].pc.Running?
  {
    hide Crossings, LogsCrossing, LogsEnding, FieldsTrue;
    var p := s.k.publish.value;
    assert ThreadTrue(s, x, p) && Written(s, x, p);
    assert HoldsPublish(s.threads[p].pc);
    if s.threads[p].pc.Counting? {
      SomeCrossing(s.out.log, x.claims[p]);
      assert CrossOnce(s, x.claims[p].owner);
    } else if s.threads[p].pc.CrossLog? {
      assert CrossOnce(s, x.claims[p].owner);
    }
  }

  const LOGGING := [Invoke(0, 7), Begin(0), Advance(1), TimerFires(1), Claim(1), TakePublish(1)]
  const CROSSING := [Abandon(0), Invoke(2, 7), Begin(2), Advance(1), TimerFires(3), Claim(3)]

  const LOGGED := State(1, Fields(true, true, 0, 7, 0), Locks(None, Some(1)), Output([], 0),
                        map[0 := Thread(true, 7, Running), 1 := Thread(false, 0, CrossLog(0, 7, 1))], {0})

  lemma Unfold(s: State, a: Action, next: State, rest: seq<Action>)
    requires Step(1, s, a) == Some(next)
    ensures Run(1, s, [a] + rest) == Run(1, next, rest)
  {
    hide Step;
    assert ([a] + rest)[1..] == rest;
  }

  lemma SixSteps(s0: State, s1: State, s2: State, s3: State, s4: State, s5: State, s6: State, run: seq<Action>)
    requires |run| == 6 && Step(1, s0, run[0]) == Some(s1) && Step(1, s1, run[1]) == Some(s2) && Step(1, s2, run[2]) == Some(s3)
    requires Step(1, s3, run[3]) == Some(s4) && Step(1, s4, run[4]) == Some(s5) && Step(1, s5, run[5]) == Some(s6)
    ensures Run(1, s0, run) == Some(s6)
  {
    hide Step;
    assert run == [run[0]] + ([run[1]] + ([run[2]] + ([run[3]] + ([run[4]] + ([run[5]] + [])))));
    Unfold(s0, run[0], s1, [run[1]] + ([run[2]] + ([run[3]] + ([run[4]] + ([run[5]] + [])))));
    Unfold(s1, run[1], s2, [run[2]] + ([run[3]] + ([run[4]] + ([run[5]] + []))));
    Unfold(s2, run[2], s3, [run[3]] + ([run[4]] + ([run[5]] + [])));
    Unfold(s3, run[3], s4, [run[4]] + ([run[5]] + []));
    Unfold(s4, run[4], s5, [run[5]] + []);
    Unfold(s5, run[5], s6, []);
    assert Run(1, s6, []) == Some(s6);
  }

  lemma LoggingSteps()
    ensures Run(1, Start(), LOGGING) == Some(LOGGED)
  {
    var s0 := Start();
    var s1 := s0.(threads := s0.threads[0 := Thread(true, 7, Calling)]);
    var s2 := At(s1, 0, Running).(f := Fields(true, false, 0, 7, 0));
    var s3 := s2.(now := 1);
    var s4 := s3.(threads := s3.threads[1 := Thread(false, 0, Called)]);
    var s5 := At(s4, 1, WantPublish(1)).(k := Locks(Some(1), None));
    var last := Step(1, s5, TakePublish(1)).value;
    assert last.threads == LOGGED.threads && last.everCrossed == LOGGED.everCrossed;
    SixSteps(s0, s1, s2, s3, s4, s5, LOGGED, LOGGING);
  }

  lemma CrossingSteps() returns (s: State)
    ensures Run(1, LOGGED, CROSSING) == Some(s)
    ensures 2 in s.threads && s.threads[2].pc.Running? && s.k == Locks(Some(3), Some(1)) && 1 in s.threads && s.threads[1].pc.CrossLog?
  {
    var s1 := At(LOGGED, 0, Ended(false)).(f := LOGGED.f.(active := false));
    var s2 := s1.(threads := s1.threads[2 := Thread(true, 7, Calling)]);
    var s3 := At(s2, 2, Running).(f := Fields(true, false, 1, 7, 2));
    var s4 := s3.(now := 2);
    var s5 := s4.(threads := s4.threads[3 := Thread(false, 0, Called)]);
    s := At(s5, 3, WantPublish(1)).(k := Locks(Some(3), Some(1)));
    SixSteps(LOGGED, s1, s2, s3, s4, s5, s, CROSSING);
  }

  /** It does happen: a record of an abandoned invocation is being written, the next invocation has crossed
      its deadline too, and its hook cannot finish. */
  lemma FinishWaitsForLogger() returns (s: State)
    ensures Reachable(1, s)
    ensures 2 in s.threads && s.threads[2].pc.Running? && s.k.publish == Some(1) && 1 in s.threads && s.threads[1].pc.CrossLog?
    ensures forall state :: Step(1, s, Finish(2, state)).None?
  {
    LoggingSteps();
    s := CrossingSteps();
    hide Run;
    RunSplit(1, Start(), LOGGED, LOGGING, CROSSING);
    assert Run(1, Start(), LOGGING + CROSSING) == Some(s);
    assert forall state :: Step(1, s, Finish(2, state)) == FinishStep(s, 2, state);
  }

  lemma {:induction false} RunSplit(threshold: nat, s: State, t: State, first: seq<Action>, rest: seq<Action>)
    requires Run(threshold, s, first) == Some(t)
    ensures Run(threshold, s, first + rest) == Run(threshold, t, rest)
    decreases |first|
  {
    hide Step;
    if first == [] {
      assert first + rest == rest;
    } else {
      assert (first + rest)[1..] == first[1..] + rest;
      RunSplit(threshold, Step(threshold, s, first[0]).value, t, first[1..], rest);
    }
  }

  // --------------------------------------------------------------- who is there, and what time it is

  // An invocation of a hook, by its name, or a timer callback.
  datatype Comer = Hook(name: nat) | Callback

  function Comes(c: map<nat, Comer>, a: Action): map<nat, Comer> {
    match a
    case Invoke(t, name) => c[t := Hook(name)]
    case TimerFires(t) => c[t := Callback]
    case _ => c
  }

  function Comers(c: map<nat, Comer>, run: seq<Action>): map<nat, Comer>
    decreases |run|
  {
    if run == [] then c else Comers(Comes(c, run[0]), run[1..])
  }

  function Passes(a: Action): nat { if a.Advance? then a.seconds else 0 }

  function Passed(run: seq<Action>): nat { if run == [] then 0 else Passes(run[0]) + Passed(run[1..]) }

  predicate IsComer(th: Thread, c: Comer) { if c.Hook? then th.invocation && th.name == c.name else !th.invocation }

  predicate AreThere(s: State, c: map<nat, Comer>) {
    s.threads.Keys == c.Keys && forall t <- s.threads :: IsComer(s.threads[t], c[t])
  }

  lemma StepComes(threshold: nat, s: State, c: map<nat, Comer>, a: Action)
    requires AreThere(s, c) && Step(threshold, s, a).Some?
    ensures AreThere(Step(threshold, s, a).value, Comes(c, a)) && Step(threshold, s, a).value.now == s.now + Passes(a)
  {}

  lemma {:induction false} RunComes(threshold: nat, s: State, c: map<nat, Comer>, run: seq<Action>)
    requires AreThere(s, c) && Run(threshold, s, run).Some?
    ensures AreThere(Run(threshold, s, run).value, Comers(c, run)) && Run(threshold, s, run).value.now == s.now + Passed(run)
    decreases |run|
  {
    hide Step, AreThere, Comes, Passes;
    if run != [] {
      StepComes(threshold, s, c, run[0]);
      RunComes(threshold, Step(threshold, s, run[0]).value, Comes(c, run[0]), run[1..]);
    }
  }

  /** The threads are the invocations and callbacks that came, each under its own name, and the clock
      shows the time that passed. */
  lemma EveryoneIsThere(threshold: nat, run: seq<Action>, s: State)
    requires Run(threshold, Start(), run) == Some(s)
    ensures AreThere(s, Comers(map[], run)) && s.now == Passed(run)
  {
    RunComes(threshold, Start(), map[], run);
  }
}
