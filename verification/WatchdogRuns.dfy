/** What holds in every interleaving of the hook watchdog (internal/shim/monitor.go). */
module WatchdogRuns {
  import opened Wrappers
  import opened Watchdog

  // --------------------------------------------------------------------- all runs

  ghost predicate Inv(threshold: nat, s: State) {
    && LocksTrue(s) && OwnerTrue(threshold, s) && ClaimsTrue(s) && ReadyTrue(threshold, s) && LogTrue(threshold, s) && CountTrue(s)
    && forall i: nat :: CrossOnce(s, i) && EndOnce(s, i)
  }

  lemma StartInv(threshold: nat)
    ensures Inv(threshold, Start())
  {}

  lemma StepKeeps(threshold: nat, s: State, a: Action)
    requires Inv(threshold, s) && Step(threshold, s, a).Some?
    ensures Inv(threshold, Step(threshold, s, a).value)
  {
    hide Step, LocksTrue, OwnerTrue, ClaimsTrue, ReadyTrue, LogTrue, CountTrue, CrossOnce, EndOnce;
    LocksKept(threshold, s, a);
    OwnerKept(threshold, s, a);
    ClaimsKept(threshold, s, a);
    ReadyKept(threshold, s, a);
    LogKept(threshold, s, a);
    CountKept(threshold, s, a);
    forall i: nat ensures CrossOnce(Step(threshold, s, a).value, i) && EndOnce(Step(threshold, s, a).value, i) {
      OnceKept(threshold, s, a, i);
    }
  }

  lemma {:induction false} RunKeeps(threshold: nat, s: State, actions: seq<Action>)
    requires Inv(threshold, s) && Run(threshold, s, actions).Some?
    ensures Inv(threshold, Run(threshold, s, actions).value)
    decreases |actions|
  {
    hide Inv, Step;
    if actions != [] {
      StepKeeps(threshold, s, actions[0]);
      RunKeeps(threshold, Step(threshold, s, actions[0]).value, actions[1..]);
    }
  }

  lemma ReachableInv(threshold: nat, s: State)
    requires Reachable(threshold, s)
    ensures Inv(threshold, s)
  {
    hide Inv, Run;
    var actions :| Run(threshold, Start(), actions) == Some(s);
    StartInv(threshold);
    RunKeeps(threshold, Start(), actions);
  }

  /** In every interleaving each invocation logs at most one crossing and at most one ending. */
  lemma AtMostOneEach(threshold: nat, s: State, i: nat)
    requires Reachable(threshold, s)
    ensures Crossings(s.out.log, i) <= 1 && Endings(s.out.log, i) <= 1
    ensures Endings(s.out.log, i) <= Crossings(s.out.log, i)
  {
    hide Reachable, Crossings, Endings, ReadyTrue, CountTrue, OwnerTrue;
    ReachableInv(threshold, s);
    assert CrossOnce(s, i) && EndOnce(s, i);
    if Endings(s.out.log, i) > 0 {
      var j := EndingAt(s.out.log, i);
      assert EntryTrue(threshold, s, j);
      CrossingsGrow(s.out.log, j, i);
    }
  }

  lemma {:induction false} EndingAt(log: seq<Entry>, i: nat) returns (j: nat)
    requires Endings(log, i) > 0
    ensures j < |log| && log[j].Ending? && log[j].owner == i
  {
    j := |log| - 1;
    if !(log[j].Ending? && log[j].owner == i) {
      j := EndingAt(log[..|log| - 1], i);
    }
  }

  lemma {:induction false} CrossingsGrow(log: seq<Entry>, j: nat, i: nat)
    requires j <= |log|
    ensures Crossings(log[..j], i) <= Crossings(log, i)
    decreases |log| - j
  {
    if j < |log| {
      assert log[..j + 1][..j] == log[..j];
      CrossingsGrow(log, j + 1, i);
    } else {
      assert log[..j] == log;
    }
  }

  /** Every record is at or past the threshold, carries its own invocation's name, and an ending
      is logged only after its own crossing. */
  lemma LogIsOrderly(threshold: nat, s: State, j: nat)
    requires Reachable(threshold, s) && j < |s.out.log|
    ensures var e := s.out.log[j];
      threshold <= e.elapsed && e.owner in s.threads && e.name == s.threads[e.owner].name
      && (e.Ending? ==> Crossings(s.out.log[..j], e.owner) == 1)
  {
    hide Reachable, Crossings, LocksTrue, ReadyTrue, CountTrue, OwnerTrue, CrossOnce, EndOnce;
    ReachableInv(threshold, s);
    assert EntryTrue(threshold, s, j);
  }

  /** The recorder has counted exactly the logged crossings, save the one whose publisher has
      logged it and holds the publication mutex to count it. */
  lemma RecorderCountsCrossings(threshold: nat, s: State)
    requires Reachable(threshold, s)
    ensures AllCrossings(s.out.log) == s.out.recorded +
      One(exists t <- s.threads :: s.k.publish == Some(t) && s.threads[t].pc.Counting?)
    ensures s.k.publish.None? ==> s.out.recorded == AllCrossings(s.out.log)
    ensures s.out.recorded <= AllCrossings(s.out.log) <= s.out.recorded + 1
  {
    hide Reachable, AllCrossings, LocksTrue, ReadyTrue, LogTrue, OwnerTrue, CrossOnce, EndOnce;
    ReachableInv(threshold, s);
  }

  // --------------------------------------------------------------------- progress

  predicate Over(pc: Pc) { pc.Ended? || pc.Done? || pc.Unmonitored? }

  /** The holder of a mutex that can move: the publisher, else the claimant. */
  lemma HolderMoves(threshold: nat, s: State)
    requires LocksTrue(s)
    ensures s.k.publish.Some? ==>
      Step(threshold, s, Log(s.k.publish.value)).Some? || Step(threshold, s, Count(s.k.publish.value)).Some?
    ensures s.k.publish.None? && s.k.mu.Some? ==> Step(threshold, s, TakePublish(s.k.mu.value)).Some?
  {}

  lemma FreeMoves(threshold: nat, s: State, t: nat)
    requires LocksTrue(s) && t in s.threads && !Over(s.threads[t].pc) && s.k.mu.None? && s.k.publish.None?
    ensures Step(threshold, s, Begin(t)).Some? || Step(threshold, s, Finish(t, HookReturned)).Some?
      || Step(threshold, s, Claim(t)).Some? || Step(threshold, s, TakePublish(t)).Some?
  {}

  /** No deadlock: while any thread is unfinished, some thread can step. */
  lemma NeverStuck(threshold: nat, s: State, t: nat)
    requires Reachable(threshold, s) && t in s.threads && !Over(s.threads[t].pc)
    ensures exists u: nat ::
      || Step(threshold, s, Begin(u)).Some? || Step(threshold, s, Finish(u, HookReturned)).Some? || Step(threshold, s, Claim(u)).Some?
      || Step(threshold, s, TakePublish(u)).Some? || Step(threshold, s, Log(u)).Some? || Step(threshold, s, Count(u)).Some?
  {
    hide Reachable, Step, ClaimsTrue, ReadyTrue, LogTrue, CountTrue, OwnerTrue, CrossOnce, EndOnce, LocksTrue, Over;
    ReachableInv(threshold, s);
    HolderMoves(threshold, s);
    if s.k.publish.None? && s.k.mu.None? { FreeMoves(threshold, s, t); }
  }

  // -------------------------------------------------------------------- termination

  /** A bound on the steps a thread still takes. */
  function Rank(pc: Pc): nat {
    match pc
    case Calling => 4
    case Running => 3
    case EndWait(_, _) => 2
    case EndLog(_, _) => 1
    case Called => 4
    case WantPublish(_) => 3
    case CrossLog(_, _, _) => 2
    case Counting => 1
    case Unmonitored => 0
    case Ended(_) => 0
    case Done => 0
  }

  /** Steps of a thread that has entered. */
  predicate IsMove(a: Action) { !a.Advance? && !a.Invoke? && !a.TimerFires? }

  lemma StepLowers(threshold: nat, s: State, a: Action)
    requires Step(threshold, s, a).Some?
    ensures var t := Step(threshold, s, a).value;
      if IsMove(a) then
        && a.thread in s.threads && a.thread in t.threads && t.threads == s.threads[a.thread := t.threads[a.thread]]
        && Rank(t.threads[a.thread].pc) < Rank(s.threads[a.thread].pc)
      else s.threads.Keys <= t.threads.Keys && forall u <- s.threads :: t.threads[u] == s.threads[u]
  {}

  function MovesOf(actions: seq<Action>, t: nat): nat {
    if actions == [] then 0
    else One(IsMove(actions[0]) && actions[0].thread == t) + MovesOf(actions[1..], t)
  }

  /** A thread that has entered takes at most four more steps, in any run. */
  lemma {:induction false} StepsPerThread(threshold: nat, s: State, actions: seq<Action>, t: nat)
    requires Run(threshold, s, actions).Some?
    ensures MovesOf(actions, t) + (if t in Run(threshold, s, actions).value.threads then Rank(Run(threshold, s, actions).value.threads[t].pc) else 0)
      <= if t in s.threads then Rank(s.threads[t].pc) else 4
    decreases |actions|
  {
    hide Step, Rank;
    RankBound();
    if actions != [] {
      StepLowers(threshold, s, actions[0]);
      if t !in s.threads { Entered(threshold, s, actions[0], t); }
      StepsPerThread(threshold, Step(threshold, s, actions[0]).value, actions[1..], t);
    }
  }

  lemma RankBound()
    ensures forall pc :: Rank(pc) <= 4
  {}

  lemma Entered(threshold: nat, s: State, a: Action, t: nat)
    requires Step(threshold, s, a).Some? && t !in s.threads
    ensures IsMove(a) ==> a.thread != t
  {}

  /** The ranks of all threads together. */
  ghost function Work(threads: map<nat, Thread>): nat
    decreases threads.Keys
  {
    if threads == map[] then 0
    else
      var t :| t in threads;
      Rank(threads[t].pc) + Work(threads - {t})
  }

  lemma {:induction false} WorkWithout(threads: map<nat, Thread>, t: nat)
    requires t in threads
    ensures Work(threads) == Rank(threads[t].pc) + Work(threads - {t})
    decreases threads.Keys
  {
    hide Rank;
    var first :| first in threads && Work(threads) == Rank(threads[first].pc) + Work(threads - {first});
    if first != t {
      WorkWithout(threads - {first}, t);
      WorkWithout(threads - {t}, first);
      assert threads - {first} - {t} == threads - {t} - {first};
    }
  }

  lemma WorkFalls(threads: map<nat, Thread>, t: nat, now: Thread)
    requires t in threads && Rank(now.pc) < Rank(threads[t].pc)
    ensures Work(threads[t := now]) < Work(threads)
  {
    hide Rank;
    WorkWithout(threads, t);
    WorkWithout(threads[t := now], t);
    assert threads[t := now] - {t} == threads - {t};
  }

  lemma {:induction false} WorkBound(threads: map<nat, Thread>)
    ensures Work(threads) <= 4 * |threads.Keys|
    decreases threads.Keys
  {
    hide Rank;
    RankBound();
    if threads != map[] {
      var t :| t in threads && Work(threads) == Rank(threads[t].pc) + Work(threads - {t});
      WorkBound(threads - {t});
      assert (threads - {t}).Keys == threads.Keys - {t};
      assert |threads.Keys - {t}| == |threads.Keys| - 1;
      assert Rank(threads[t].pc) <= 4;
    }
  }

  /** No new thread enters. */
  predicate Draining(actions: seq<Action>) { forall a <- actions :: !a.Invoke? && !a.TimerFires? }

  function Moves(actions: seq<Action>): nat {
    if actions == [] then 0 else One(IsMove(actions[0])) + Moves(actions[1..])
  }

  lemma {:induction false} MovesSpendWork(threshold: nat, s: State, actions: seq<Action>)
    requires Run(threshold, s, actions).Some? && Draining(actions)
    ensures Moves(actions) + Work(Run(threshold, s, actions).value.threads) <= Work(s.threads)
    decreases |actions|
  {
    hide Step, Rank, Work;
    if actions != [] {
      var a := actions[0];
      var t := Step(threshold, s, a).value;
      assert a in actions && forall b <- actions[1..] :: b in actions;
      StepLowers(threshold, s, a);
      MovesSpendWork(threshold, t, actions[1..]);
      if IsMove(a) {
        WorkFalls(s.threads, a.thread, t.threads[a.thread]);
      } else {
        ClockOnly(threshold, s, a);
      }
    }
  }

  lemma ClockOnly(threshold: nat, s: State, a: Action)
    requires a.Advance? && Step(threshold, s, a).Some?
    ensures Step(threshold, s, a).value.threads == s.threads
  {}

  /** Nobody can move: not even an invocation whose hook returns. */
  ghost predicate Halted(threshold: nat, s: State) {
    forall u: nat ::
      && Step(threshold, s, Begin(u)).None? && Step(threshold, s, Finish(u, HookReturned)).None? && Step(threshold, s, Claim(u)).None?
      && Step(threshold, s, TakePublish(u)).None? && Step(threshold, s, Log(u)).None? && Step(threshold, s, Count(u)).None?
  }

  /** Everyone ends: once no thread enters, at most four steps per thread remain, and a run that
      can go no further has left every invocation and every callback over. */
  lemma EveryoneEnds(threshold: nat, s: State, actions: seq<Action>)
    requires Reachable(threshold, s) && Run(threshold, s, actions).Some? && Draining(actions)
    ensures Moves(actions) <= 4 * |s.threads.Keys|
    ensures var t := Run(threshold, s, actions).value;
      Halted(threshold, t) ==> forall u <- t.threads :: Over(t.threads[u].pc)
  {
    hide Reachable, Run, Over, Work, Step;
    MovesSpendWork(threshold, s, actions);
    WorkBound(s.threads);
    var t := Run(threshold, s, actions).value;
    RunOn(threshold, s, actions);
    forall u | u in t.threads && !Over(t.threads[u].pc) ensures !Halted(threshold, t) {
      NeverStuck(threshold, t, u);
    }
  }

  lemma RunOn(threshold: nat, s: State, actions: seq<Action>)
    requires Reachable(threshold, s) && Run(threshold, s, actions).Some?
    ensures Reachable(threshold, Run(threshold, s, actions).value)
  {
    hide Step, Run;
    var before :| Run(threshold, Start(), before) == Some(s);
    RunPlus(threshold, Start(), before, actions);
  }

  lemma {:induction false} RunPlus(threshold: nat, s: State, a: seq<Action>, b: seq<Action>)
    requires Run(threshold, s, a).Some?
    ensures Run(threshold, s, a + b) == Run(threshold, Run(threshold, s, a).value, b)
    decreases |a|
  {
    hide Step;
    if a == [] {
      assert a + b == b;
    } else {
      assert (a + b)[1..] == a[1..] + b;
      RunPlus(threshold, Step(threshold, s, a[0]).value, a[1..], b);
    }
  }
}
