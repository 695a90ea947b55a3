/** What a call of Current comes to (internal/usage/pricing/source.go): it works on what was served
    when it began, a context that ends before the parsed entry is looked at ends the call, calls
    never wait for each other in vain, and a document that stays current is parsed once. */
module SourceCauses {
  import opened Wrappers
  import C = Cache
  import opened PricingSource
  import opened Snapshots

  // What a call was asked, and what was served at that moment.
  datatype Asked = Asked(limit: int, raw: string, version: string)

  // The calls that began, those that checked their context, those that looked at the parsed entry,
  // those whose context ended, before they checked it and before they looked.
  datatype Trace = Trace(asked: map<nat, Asked>, checked: set<nat>, looked: set<nat>,
                         canceled: set<nat>, unchecked: set<nat>, unlooked: set<nat>)

  const UNSEEN := Trace(map[], {}, {}, {}, {}, {})

  function Observe(w: World, x: Trace, s: State, a: Action): Trace {
    match a
    case Begin(id, limit) =>
      x.(asked := x.asked[id := Asked(limit, C.Served(RecipeOf(w), s.cache.content), s.cache.content.version)])
    case CheckContext(id) => x.(checked := x.checked + {id})
    case Look(id) => x.(looked := x.looked + {id})
    case Cancel(id) =>
      x.(canceled := x.canceled + {id},
         unchecked := if id in x.checked then x.unchecked else x.unchecked + {id},
         unlooked := if id in x.looked then x.unlooked else x.unlooked + {id})
    case _ => x
  }

  function Watch(w: World, x: Trace, s: State, run: seq<Action>): Trace
    decreases |run|
  {
    if run == [] || Step(w, s, run[0]).None? then x
    else Watch(w, Observe(w, x, s, run[0]), Step(w, s, run[0]).value, run[1..])
  }

  predicate Unheard(x: Trace, id: nat) {
    id !in x.asked && id !in x.checked && id !in x.looked && id !in x.canceled && id !in x.unchecked && id !in x.unlooked
  }

  /** A call is what was asked, and stands where it was seen to go. */
  predicate CallSeen(s: State, x: Trace, id: nat) {
    if id !in s.calls then Unheard(x, id)
    else
      var c := s.calls[id];
      && id in x.asked && x.asked[id] == Asked(c.limit, c.raw, c.version)
      && (c.canceled <==> id in x.canceled)
      && (id in x.unchecked ==> c.pc.Captured? || c.pc == Finished(Canceled))
      && (id in x.unlooked ==> c.pc.Captured? || c.pc.AtGate? || c.pc.Holding? || c.pc == Finished(Canceled))
      && (id in x.unchecked || id in x.unlooked ==> c.canceled)
      && (id !in x.checked ==> c.pc.Captured?)
      && (id !in x.looked ==> c.pc.Captured? || c.pc.AtGate? || c.pc.Holding? || c.pc == Finished(Canceled))
  }

  lemma SeenKept(w: World, s: State, x: Trace, a: Action, id: nat)
    requires CallSeen(s, x, id) && Step(w, s, a).Some?
    ensures CallSeen(Step(w, s, a).value, Observe(w, x, s, a), id)
  {
    hide Parsing, C.After, C.Served, RecipeOf, PricingEdge, IdentityBytes;
  }

  lemma {:induction false} WatchSeen(w: World, s: State, x: Trace, run: seq<Action>)
    requires (forall id: nat :: CallSeen(s, x, id)) && Run(w, s, run).Some?
    ensures forall id: nat :: CallSeen(Run(w, s, run).value, Watch(w, x, s, run), id)
    decreases |run|
  {
    hide CallSeen, Step, Observe;
    if run != [] {
      forall id: nat ensures CallSeen(Step(w, s, run[0]).value, Observe(w, x, s, run[0]), id) {
        SeenKept(w, s, x, run[0], id);
      }
      WatchSeen(w, Step(w, s, run[0]).value, Observe(w, x, s, run[0]), run[1..]);
    }
  }

  lemma RunSeen(w: World, run: seq<Action>, s: State, id: nat)
    requires w.parse(w.embedded).Some? && Run(w, Start(w), run) == Some(s)
    ensures CallSeen(s, Watch(w, UNSEEN, Start(w), run), id)
  {
    hide Step, Run, Watch, Observe, RecipeOf, C.Initial;
    WatchSeen(w, Start(w), UNSEEN, run);
  }

  /** After any run the calls are those that began, each with its own limit and with the document and
      version that were served when it began, and with an ended context exactly when it was ended.  A
      call whose context ended before it checked it never comes to the gate; one whose context ended
      before it looked at the parsed entry parses nothing; both can only end as canceled. */
  lemma CallsAreAsked(w: World, run: seq<Action>, s: State, id: nat)
    requires w.parse(w.embedded).Some? && Run(w, Start(w), run) == Some(s)
    ensures var x := Watch(w, UNSEEN, Start(w), run);
      && (id in s.calls <==> id in x.asked)
      && (id in s.calls ==>
            var c := s.calls[id];
            && x.asked[id] == Asked(c.limit, c.raw, c.version) && (c.canceled <==> id in x.canceled)
            && (id in x.unchecked ==> c.pc.Captured? || c.pc == Finished(Canceled))
            && (id in x.unlooked ==> c.pc.Captured? || c.pc.AtGate? || c.pc.Holding? || c.pc == Finished(Canceled)))
  {
    hide Step, Run, Watch, Observe;
    RunSeen(w, run, s, id);
  }

  // ------------------------------------------------------------------------- progress

  /** How many steps a call has left. */
  function Left(pc: Pc): nat {
    match pc
    case Captured => 6
    case AtGate => 5
    case Holding => 4
    case Missing => 3
    case Fresh(_) => 2
    case Rechecked(_, _) => 1
    case Finished(_) => 0
  }

  predicate IsMove(a: Action) { !a.Refresh? && !a.Begin? && !a.Cancel? }

  predicate CanMove(w: World, s: State, id: nat) {
    Step(w, s, CheckContext(id)).Some? || Step(w, s, TakeGate(id)).Some? || Step(w, s, GiveUp(id)).Some? || Step(w, s, Look(id)).Some?
    || Step(w, s, Parse(id, false)).Some? || Step(w, s, Recheck(id)).Some? || Step(w, s, Publish(id)).Some?
  }

  /** A call takes at most six steps: each of its own brings it nearer to its end, and nothing sets it
      back. */
  lemma MovesLower(w: World, s: State, a: Action, id: nat)
    requires Step(w, s, a).Some? && id in s.calls
    ensures var t := Step(w, s, a).value;
      id in t.calls && Left(t.calls[id].pc) + (if IsMove(a) && a.call == id then 1 else 0) <= Left(s.calls[id].pc)
  {
    hide Parsing, C.After, C.Served, RecipeOf, PricingEdge, IdentityBytes;
  }

  /** An unfinished call can step, or the call that holds the gate can; one whose context has ended
      can step whoever holds it. */
  lemma CallsNeverStick(w: World, s: State, id: nat)
    requires Assumed(w) && Reachable(w, s) && id in s.calls && !s.calls[id].pc.Finished?
    ensures CanMove(w, s, id) || (s.gate.Some? && s.gate.value in s.calls && CanMove(w, s, s.gate.value))
    ensures s.calls[id].canceled ==> CanMove(w, s, id)
    ensures s.gate.None? ==> CanMove(w, s, id)
  {
    ReachableInv(w, s);
    CanStep(w, s, id);
    if s.gate.Some? { CanStep(w, s, s.gate.value); }
  }

  lemma CanStep(w: World, s: State, id: nat)
    requires id in s.calls
    ensures s.calls[id].pc.AtGate? && (s.gate.None? || s.calls[id].canceled) ==> CanMove(w, s, id)
    ensures Owns(s.calls[id].pc) || s.calls[id].pc.Captured? ==> CanMove(w, s, id)
  {
    hide Parsing, C.After, C.Served, RecipeOf, PricingEdge, IdentityBytes;
  }

  // ------------------------------------------------------------------ parsed once

  predicate Current(s: State, id: nat) { id in s.calls && s.calls[id].version == s.cache.content.version }

  /** The parsed entry is that of the document being served, and no call is about to replace it with
      another. */
  predicate Settled(s: State) {
    && s.parsed.version == s.cache.content.version
    && forall id <- s.calls :: s.calls[id].pc.Rechecked? && s.calls[id].pc.current ==> Current(s, id)
  }

  /** A run along which the version being served never changes. */
  predicate Steady(w: World, s: State, run: seq<Action>)
    decreases |run|
  {
    run == [] || (Step(w, s, run[0]).Some? && Step(w, s, run[0]).value.cache.content.version == s.cache.content.version
                  && Steady(w, Step(w, s, run[0]).value, run[1..]))
  }

  /** Before it looks, or through. */
  predicate NoParse(pc: Pc) { pc.Captured? || pc.AtGate? || pc.Holding? || pc.Finished? }

  lemma SettledStep(w: World, s: State, a: Action, id: nat)
    requires Settled(s) && Step(w, s, a).Some? && Step(w, s, a).value.cache.content.version == s.cache.content.version
    requires id in s.calls ==> Current(s, id) && NoParse(s.calls[id].pc)
    ensures var t := Step(w, s, a).value; Settled(t) && (id in t.calls ==> Current(t, id) && NoParse(t.calls[id].pc))
  {
    hide Step, Settled, Current, NoParse;
    SettledAny(w, s, a);
    SettledIs(s);
    HitsOnly(w, s, a, id);
  }

  lemma HitsOnly(w: World, s: State, a: Action, id: nat)
    requires s.parsed.version == s.cache.content.version && Step(w, s, a).Some?
    requires Step(w, s, a).value.cache.content.version == s.cache.content.version
    requires id in s.calls ==> Current(s, id) && NoParse(s.calls[id].pc)
    ensures var t := Step(w, s, a).value; id in t.calls ==> Current(t, id) && NoParse(t.calls[id].pc)
  {
    hide Parsing, C.After, C.Served, RecipeOf, PricingEdge, IdentityBytes;
  }

  lemma {:induction false} SettledStays(w: World, s: State, run: seq<Action>, id: nat)
    requires Settled(s) && Steady(w, s, run) && (id in s.calls ==> Current(s, id) && NoParse(s.calls[id].pc))
    ensures Run(w, s, run).Some?
    ensures var t := Run(w, s, run).value; Settled(t) && (id in t.calls ==> Current(t, id) && NoParse(t.calls[id].pc))
    decreases |run|
  {
    hide Step, Settled, Current, NoParse;
    if run != [] {
      SettledStep(w, s, run[0], id);
      SettledStays(w, Step(w, s, run[0]).value, run[1..], id);
    }
  }

  /** The call id is on its way to leave the parsed entry at the document being served, or it is there. */
  predicate Settling(s: State, id: nat) {
    && Current(s, id)
    && if s.calls[id].pc.Finished? then s.calls[id].pc.result.Answer? ==> Settled(s)
       else s.gate == Some(id) && (s.calls[id].pc.Missing? || s.calls[id].pc.Fresh? || (s.calls[id].pc.Rechecked? && s.calls[id].pc.current))
  }

  /** Whoever holds the gate is the only one past it. */
  predicate Alone(s: State) { forall id <- s.calls :: Owns(s.calls[id].pc) ==> s.gate == Some(id) }

  lemma SettlingStep(w: World, s: State, a: Action, id: nat)
    requires Alone(s) && Settling(s, id) && Step(w, s, a).Some?
    requires Step(w, s, a).value.cache.content.version == s.cache.content.version
    ensures Settling(Step(w, s, a).value, id)
  {
    hide Parsing, C.After, C.Served, RecipeOf, PricingEdge, IdentityBytes, Settled;
    var t := Step(w, s, a).value;
    if s.calls[id].pc.Finished? {
      if Settled(s) { SettledAny(w, s, a); }
    } else if a.Publish? && a.call == id {
      PublishSettles(w, s, id);
    }
  }

  lemma SettledAny(w: World, s: State, a: Action)
    requires Settled(s) && Step(w, s, a).Some? && Step(w, s, a).value.cache.content.version == s.cache.content.version
    ensures Settled(Step(w, s, a).value)
  {
    hide Parsing, C.After, C.Served, RecipeOf, PricingEdge, IdentityBytes;
  }

  lemma PublishSettles(w: World, s: State, id: nat)
    requires Alone(s) && Current(s, id) && s.gate == Some(id) && s.calls[id].pc.Rechecked? && s.calls[id].pc.current
    requires Step(w, s, Publish(id)).Some?
    ensures Settled(Step(w, s, Publish(id)).value)
  {
    hide Parsing, C.After, C.Served, RecipeOf, PricingEdge, IdentityBytes;
  }

  lemma {:induction false} SettlingRun(w: World, s: State, run: seq<Action>, id: nat)
    requires Assumed(w) && Inv(w, s) && Settling(s, id) && Steady(w, s, run)
    ensures Run(w, s, run).Some? && Settling(Run(w, s, run).value, id)
    decreases |run|
  {
    hide Step, Settling, Assumed, Inv;
    if run != [] {
      InvAlone(w, s);
      StepKeeps(w, s, run[0]);
      SettlingStep(w, s, run[0], id);
      SettlingRun(w, Step(w, s, run[0]).value, run[1..], id);
    }
  }

  lemma InvAlone(w: World, s: State)
    requires Inv(w, s)
    ensures Alone(s)
  {
    hide CacheTrue, ParsedTrue, CallTrue, Owns;
  }

  /** While one version is served, its document is parsed for an answer once: when a call that did not
      find it has answered from it, no call that begins afterwards goes past the look, so all of them
      answer, or are refused, from the entry that call left. */
  lemma ParsedOnce(w: World, s: State, first: seq<Action>, id: nat, more: seq<Action>, other: nat)
    requires Assumed(w) && Reachable(w, s) && id in s.calls && s.calls[id].pc.Missing? && Current(s, id)
    requires Steady(w, s, first)
    requires var m := Run(w, s, first);
      m.Some? ==> other !in m.value.calls && Steady(w, m.value, more)
                  && id in m.value.calls && m.value.calls[id].pc.Finished? && m.value.calls[id].pc.result.Answer?
    ensures Run(w, s, first).Some? && Run(w, Run(w, s, first).value, more).Some?
    ensures var t := Run(w, Run(w, s, first).value, more).value;
      t.parsed.version == t.cache.content.version && (other in t.calls ==> NoParse(t.calls[other].pc))
  {
    hide Step, Run, Steady, Assumed, Reachable, Inv, Settled;
    ReachableInv(w, s);
    GateOf(w, s, id);
    SettlingRun(w, s, first, id);
    SettledStays(w, Run(w, s, first).value, more, other);
    SettledIs(Run(w, Run(w, s, first).value, more).value);
  }

  lemma SettledIs(s: State)
    requires Settled(s)
    ensures s.parsed.version == s.cache.content.version
  {}

  lemma GateOf(w: World, s: State, id: nat)
    requires Inv(w, s) && id in s.calls && Owns(s.calls[id].pc)
    ensures s.gate == Some(id)
  {
    hide CacheTrue, ParsedTrue, CallTrue;
  }
}
