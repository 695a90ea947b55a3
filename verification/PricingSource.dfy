/** The parsed-snapshot cache over the pricing cached value (internal/usage/pricing/source.go),
    as a state machine: refresh attempts and any number of Current calls interleave. */
module PricingSource {
  import opened Wrappers
  import opened Snapshots
  import C = Cache

  // The content hash, the projection of valid documents, and the embedded document.
  datatype World = World(hash: string -> string, parse: string -> Option<Snapshot>, embedded: string)

  /** The content hash is taken to be injective, and the embedded document to be valid. */
  ghost predicate Assumed(w: World) {
    (forall a, b :: w.hash(a) == w.hash(b) ==> a == b) && w.parse(w.embedded).Some?
  }

  function RecipeOf(w: World): C.Recipe<string> {
    C.Recipe(w.embedded, w.hash(w.embedded), w.hash,
             Some((raw: string) => if w.parse(raw).Some? then None else Some("invalid document")), "")
  }

  datatype Result = Answer(snapshot: Snapshot) | TooManyBytes | Malformed | Canceled

  /** What parsing bytes afresh under a limit gives. */
  function Parsing(w: World, raw: string, limit: int): (r: Result)
    ensures !r.Canceled?
  {
    if limit < 0 then TooManyBytes
    else if w.parse(raw).None? then Malformed
    else if IdentityBytes(w.parse(raw).value.identities) > limit then TooManyBytes
    else Answer(w.parse(raw).value)
  }

  datatype Pc =
    | Captured
    | AtGate
    | Holding
    | Missing
    | Fresh(snapshot: Snapshot)
    | Rechecked(snapshot: Snapshot, current: bool)
    | Finished(result: Result)

  // One call of Current: its limit, the bytes and version it captured, its context.
  datatype Call = Call(limit: int, raw: string, version: string, canceled: bool, pc: Pc)

  datatype Parsed = Parsed(version: string, snapshot: Snapshot)

  datatype State = State(cache: C.State<string>, gate: Option<nat>, parsed: Parsed, calls: map<nat, Call>)

  datatype Action =
    | Refresh(edge: C.Edge<string>)
    | Begin(call: nat, limit: int)
    | Cancel(call: nat)
    | CheckContext(call: nat)
    | TakeGate(call: nat)
    | GiveUp(call: nat)
    | Look(call: nat)
    | Parse(call: nat, interrupted: bool)
    | Recheck(call: nat)
    | Publish(call: nat)

  function Start(w: World): State
    requires w.parse(w.embedded).Some?
  {
    State(C.Initial(RecipeOf(w)), None, Parsed(w.hash(w.embedded), w.parse(w.embedded).value), map[])
  }

  /** The remote adapter has no peek and names content by its hash. */
  predicate PricingEdge(w: World, e: C.Edge<string>) {
    e.peek.None? && (e.fetch.Ok? ==> e.fetch.value.1 == w.hash(e.fetch.value.0))
  }

  function Put(s: State, id: nat, c: Call): State { s.(calls := s.calls[id := c]) }

  /** The call ends and gives up the gate. */
  function Finish(s: State, id: nat, c: Call, r: Result): State { Put(s, id, c.(pc := Finished(r))).(gate := None) }

  function LookStep(s: State, id: nat, c: Call): State {
    if c.canceled then Finish(s, id, c, Canceled)
    else if s.parsed.version == c.version then
      if c.limit < 0 || IdentityBytes(s.parsed.snapshot.identities) > c.limit then Finish(s, id, c, TooManyBytes)
      else Finish(s, id, c, Answer(s.parsed.snapshot))
    else Put(s, id, c.(pc := Missing))
  }

  function CallStep(w: World, s: State, a: Action, id: nat, c: Call): Option<State> {
    match a
    case Cancel(_) => Some(Put(s, id, c.(canceled := true)))
    case CheckContext(_) =>
      if c.pc.Captured? then Some(Put(s, id, c.(pc := if c.canceled then Finished(Canceled) else AtGate))) else None
    case TakeGate(_) =>
      if c.pc.AtGate? && s.gate.None? then Some(Put(s, id, c.(pc := Holding)).(gate := Some(id))) else None
    case GiveUp(_) => if c.pc.AtGate? && c.canceled then Some(Put(s, id, c.(pc := Finished(Canceled)))) else None
    case Look(_) => if c.pc.Holding? then Some(LookStep(s, id, c)) else None
    case Parse(_, interrupted) =>
      if !c.pc.Missing? || (interrupted && !c.canceled) then None
      else if interrupted then Some(Finish(s, id, c, Canceled))
      else
        var r := Parsing(w, c.raw, c.limit);
        if r.Answer? then Some(Put(s, id, c.(pc := Fresh(r.snapshot)))) else Some(Finish(s, id, c, r))
    case Recheck(_) =>
      if c.pc.Fresh? then Some(Put(s, id, c.(pc := Rechecked(c.pc.snapshot, s.cache.content.version == c.version)))) else None
    case Publish(_) =>
      if c.pc.Rechecked? then
        Some(Finish(s, id, c, Answer(c.pc.snapshot)).(parsed := if c.pc.current then Parsed(c.version, c.pc.snapshot) else s.parsed))
      else None
    case _ => None
  }

  function Step(w: World, s: State, a: Action): Option<State> {
    match a
    case Refresh(edge) => if PricingEdge(w, edge) then Some(s.(cache := C.After(RecipeOf(w), s.cache, edge))) else None
    case Begin(id, limit) =>
      if id in s.calls then None
      else Some(Put(s, id, Call(limit, C.Served(RecipeOf(w), s.cache.content), s.cache.content.version, false, Captured)))
    case _ => if a.call in s.calls then CallStep(w, s, a, a.call, s.calls[a.call]) else None
  }

  function Run(w: World, s: State, actions: seq<Action>): Option<State>
    decreases |actions|
  {
    if actions == [] then Some(s)
    else
      var next := Step(w, s, actions[0]);
      if next.None? then None else Run(w, next.value, actions[1..])
  }

  ghost predicate Reachable(w: World, s: State) {
    w.parse(w.embedded).Some? && exists actions :: Run(w, Start(w), actions) == Some(s)
  }

  // -------------------------------------------------------------------- invariant

  /** What is served is named by its hash and is a valid document. */
  ghost predicate CacheTrue(w: World, c: C.State<string>) {
    && C.Inv(RecipeOf(w), c) && c.content.version == c.content.hash
    && w.parse(C.Served(RecipeOf(w), c.content)).Some?
  }

  /** The remembered projection is that of any document with its version. */
  ghost predicate ParsedTrue(w: World, p: Parsed) {
    forall raw :: w.hash(raw) == p.version ==> w.parse(raw) == Some(p.snapshot)
  }

  predicate Owns(pc: Pc) { pc.Holding? || pc.Missing? || pc.Fresh? || pc.Rechecked? }

  predicate CallTrue(w: World, c: Call) {
    && w.hash(c.raw) == c.version && w.parse(c.raw).Some?
    && (c.pc.Fresh? ==> Parsing(w, c.raw, c.limit) == Answer(c.pc.snapshot))
    && (c.pc.Rechecked? ==> Parsing(w, c.raw, c.limit) == Answer(c.pc.snapshot))
    && (c.pc.Finished? ==> if c.pc.result.Canceled? then c.canceled else c.pc.result == Parsing(w, c.raw, c.limit))
  }

  ghost predicate Inv(w: World, s: State) {
    && CacheTrue(w, s.cache) && ParsedTrue(w, s.parsed)
    && (forall id <- s.calls :: CallTrue(w, s.calls[id]) && (Owns(s.calls[id].pc) <==> s.gate == Some(id)))
    && (s.gate.Some? ==> s.gate.value in s.calls)
  }

  lemma StartInv(w: World)
    requires Assumed(w)
    ensures Inv(w, Start(w))
  {}

  lemma RefreshKeeps(w: World, c: C.State<string>, e: C.Edge<string>)
    requires Assumed(w) && CacheTrue(w, c) && PricingEdge(w, e)
    ensures CacheTrue(w, C.After(RecipeOf(w), c, e))
  {
    C.AttemptKeeps(RecipeOf(w), c, e);
  }

  /** A hit answers what parsing the captured bytes would. */
  lemma HitIsParsing(w: World, p: Parsed, c: Call)
    requires ParsedTrue(w, p) && CallTrue(w, c) && p.version == c.version
    ensures Parsing(w, c.raw, c.limit) ==
      if c.limit < 0 || IdentityBytes(p.snapshot.identities) > c.limit then TooManyBytes else Answer(p.snapshot)
  {}

  lemma PublishKeeps(w: World, c: Call)
    requires Assumed(w) && CallTrue(w, c) && c.pc.Rechecked?
    ensures ParsedTrue(w, Parsed(c.version, c.pc.snapshot))
  {
    forall raw | w.hash(raw) == c.version ensures w.parse(raw) == Some(c.pc.snapshot) {
      assert raw == c.raw;
    }
  }

  lemma CallKeeps(w: World, s: State, a: Action, id: nat)
    requires Assumed(w) && Inv(w, s) && id in s.calls && CallStep(w, s, a, id, s.calls[id]).Some?
    ensures var t := CallStep(w, s, a, id, s.calls[id]).value;
      id in t.calls && CallTrue(w, t.calls[id]) && t.calls == s.calls[id := t.calls[id]] && t.cache == s.cache
      && ParsedTrue(w, t.parsed)
      && (Owns(t.calls[id].pc) <==> t.gate == Some(id))
      && (t.gate == s.gate || s.gate == Some(id) || (s.gate.None? && t.gate == Some(id)))
      && (t.gate != s.gate && s.gate == Some(id) ==> t.gate.None?)
  {
    hide Assumed, ParsedTrue, CacheTrue, IdentityBytes;
    var c := s.calls[id];
    if c.pc.Holding? && s.parsed.version == c.version { HitIsParsing(w, s.parsed, c); }
    if c.pc.Rechecked? { PublishKeeps(w, c); }
  }

  lemma StepKeeps(w: World, s: State, a: Action)
    requires Assumed(w) && Inv(w, s) && Step(w, s, a).Some?
    ensures Inv(w, Step(w, s, a).value)
  {
    hide *;
    match a
    case Refresh(edge) => RefreshStepKeeps(w, s, edge);
    case Begin(id, limit) => BeginKeeps(w, s, id, limit);
    case _ => CallStepKeeps(w, s, a);
  }

  lemma RefreshStepKeeps(w: World, s: State, e: C.Edge<string>)
    requires Assumed(w) && Inv(w, s) && Step(w, s, Refresh(e)).Some?
    ensures Inv(w, Step(w, s, Refresh(e)).value)
  {
    hide Assumed, ParsedTrue, CacheTrue, CallTrue, C.After, RecipeOf;
    RefreshKeeps(w, s.cache, e);
  }

  lemma BeginKeeps(w: World, s: State, id: nat, limit: int)
    requires Assumed(w) && Inv(w, s) && Step(w, s, Begin(id, limit)).Some?
    ensures Inv(w, Step(w, s, Begin(id, limit)).value)
  {
    hide Assumed, ParsedTrue;
  }

  lemma CallStepKeeps(w: World, s: State, a: Action)
    requires Assumed(w) && Inv(w, s) && Step(w, s, a).Some? && !a.Refresh? && !a.Begin?
    ensures Inv(w, Step(w, s, a).value)
  {
    hide Assumed, ParsedTrue, CacheTrue, CallTrue, CallStep, Owns;
    CallKeeps(w, s, a, a.call);
  }

  lemma {:induction false} RunKeeps(w: World, s: State, actions: seq<Action>)
    requires Assumed(w) && Inv(w, s) && Run(w, s, actions).Some?
    ensures Inv(w, Run(w, s, actions).value)
    decreases |actions|
  {
    hide Assumed, Inv, Step;
    if actions != [] {
      StepKeeps(w, s, actions[0]);
      RunKeeps(w, Step(w, s, actions[0]).value, actions[1..]);
    }
  }

  lemma ReachableInv(w: World, s: State)
    requires Assumed(w) && Reachable(w, s)
    ensures Inv(w, s)
  {
    hide Assumed, Inv, Run;
    var actions :| Run(w, Start(w), actions) == Some(s);
    StartInv(w);
    RunKeeps(w, Start(w), actions);
  }

  /** However refreshes and other calls interleave, a finished call whose context stayed live
      returns what parsing its captured bytes under its own limit gives; those bytes are
      always a valid document. */
  lemma CurrentIsParsing(w: World, s: State, id: nat)
    requires Assumed(w) && Reachable(w, s) && id in s.calls && s.calls[id].pc.Finished?
    ensures var c := s.calls[id];
      w.hash(c.raw) == c.version && w.parse(c.raw).Some?
      && (!c.canceled ==> c.pc.result == Parsing(w, c.raw, c.limit) && !c.pc.result.Malformed? && !c.pc.result.Canceled?)
      && (c.pc.result.Answer? ==> c.pc.result.snapshot == w.parse(c.raw).value
                                     && IdentityBytes(c.pc.result.snapshot.identities) <= c.limit)
  {
    hide Assumed, Reachable, IdentityBytes;
    ReachableInv(w, s);
  }

  /** The gate admits one call at a time, and whoever holds it can step. */
  lemma GateIsExclusive(w: World, s: State, i: nat, j: nat)
    requires Assumed(w) && Reachable(w, s) && i in s.calls && j in s.calls && Owns(s.calls[i].pc) && Owns(s.calls[j].pc)
    ensures i == j
    ensures Step(w, s, Look(i)).Some? || Step(w, s, Parse(i, false)).Some? || Step(w, s, Recheck(i)).Some? || Step(w, s, Publish(i)).Some?
  {
    hide Assumed, Reachable, IdentityBytes;
    ReachableInv(w, s);
  }

  // ------------------------------------------------------------- parsing is projecting

  // What a document's JSON holds: its models, or nothing when it does not decode.
  type Decoder = string -> Option<seq<ModelDoc>>

  /** The world's parser is the projection of the decoded models. */
  ghost predicate Projects(w: World, decode: Decoder) {
    forall raw ::
      && (decode(raw).Some? ==> Keyed(decode(raw).value))
      && (w.parse(raw).Some? <==> decode(raw).Some? && forall m <- decode(raw).value :: Sound(m))
      && (w.parse(raw).Some? ==> IsProjection(w.parse(raw).value, decode(raw).value))
  }

  /** What projecting a document's models under a limit gives. */
  ghost predicate IsAnswer(r: Result, models: seq<ModelDoc>, limit: int) {
    if r.Answer? then
      IsProjection(r.snapshot, models) && WellFormed(r.snapshot) && IdentityBytes(Identities(models)) <= limit
    else r.TooManyBytes? && (limit < 0 || IdentityBytes(Identities(models)) > limit)
  }

  /** Over every interleaving of calls and refreshes, a finished call with a live context returns
      the one projection of its captured document when its own limit covers the identities, and the
      limit's refusal otherwise: what Snapshots.Project gives for those models. */
  lemma CurrentIsProjecting(w: World, decode: Decoder, s: State, id: nat)
    requires Assumed(w) && Projects(w, decode) && Reachable(w, s)
    requires id in s.calls && s.calls[id].pc.Finished? && !s.calls[id].canceled
    ensures var c := s.calls[id];
      && decode(c.raw).Some? && Keyed(decode(c.raw).value) && (forall m <- decode(c.raw).value :: Sound(m))
      && IsAnswer(c.pc.result, decode(c.raw).value, c.limit)
      && forall other :: IsAnswer(other, decode(c.raw).value, c.limit) ==> other == c.pc.result
  {
    hide Assumed, Reachable, IdentityBytes, IsProjection, Sound, WellFormed, Identities, Keyed;
    CurrentIsParsing(w, s, id);
    var c := s.calls[id];
    var models := decode(c.raw).value;
    SoundProjection(w.parse(c.raw).value, models);
    forall other | IsAnswer(other, models, c.limit) ensures other == c.pc.result {
      if other.Answer? && c.pc.result.Answer? { ProjectionUnique(other.snapshot, c.pc.result.snapshot, models); }
    }
  }

  lemma SoundProjection(s: Snapshot, models: seq<ModelDoc>)
    requires IsProjection(s, models) && forall m <- models :: Sound(m)
    ensures WellFormed(s) && s.identities == Identities(models)
  {
    hide WellFormed, ValidName;
    ProjectionWellFormed(s, models);
  }
}
