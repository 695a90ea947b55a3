/** The engine behind a refreshed cached value (internal/cache/value.go).  Attempts are serialised
    by their own mutex and each changes the value in one critical section, so an attempt is one
    step for every reader. */
module Cache {
  import opened Wrappers

  datatype Source = Fallback | Fetched

  datatype Result<+T> = Ok(value: T) | Err(error: string)

  // The static recipe; a missing validator accepts everything.
  datatype Recipe<!V> = Recipe(fallback: V, fallbackVersion: string, hash: V -> string, validate: Option<V -> Option<string>>, zero: V)

  // What the outside answers during one attempt: the version peek when the recipe has one, the
  // fetched value with its version, and the clock.
  datatype Edge<V> = Edge(peek: Option<Result<string>>, fetch: Result<(V, string)>, now: int)

  // The content being served, and the record of the latest attempt.
  datatype Content<V> = Content(value: V, hash: string, source: Source, version: string, lastSuccess: Option<int>)

  datatype Attempt = Attempt(attempted: bool, at: int, error: Option<string>)

  datatype State<V> = State(content: Content<V>, attempt: Attempt)

  datatype AttemptResult = Success | Failure

  // What readers are told beside the value.
  datatype Status = Status(source: Source, version: string, lastSuccess: Option<int>,
                           lastAttempt: Option<int>, lastResult: Option<AttemptResult>)

  function Initial<V>(r: Recipe<V>): State<V> {
    State(Content(r.zero, r.hash(r.fallback), Fallback, r.fallbackVersion, None), Attempt(false, 0, None))
  }

  function Served<V>(r: Recipe<V>, c: Content<V>): V { if c.source.Fallback? then r.fallback else c.value }

  predicate Validated<V>(r: Recipe<V>, value: V) { r.validate.Some? ==> r.validate.value(value).None? }

  /** Fallback is reported exactly while the floor's content is served; what is served has the
      current hash and is the floor or passed validation. */
  predicate Inv<V>(r: Recipe<V>, s: State<V>) {
    && (s.content.source.Fallback? <==> s.content.hash == r.hash(r.fallback))
    && r.hash(Served(r, s.content)) == s.content.hash
    && (s.content.source.Fetched? ==> Validated(r, s.content.value))
  }

  /** How one attempt ends, in the order the code decides it. */
  datatype Ending<V> =
    | Failed(error: string)
    | Unchanged
    | SameContent(version: string)
    | BackToFloor(version: string)
    | Replaced(value: V, hash: string, version: string)

  function EndingOf<V>(r: Recipe<V>, s: State<V>, e: Edge<V>): Ending<V> {
    if e.peek.Some? && e.peek.value.Err? then Failed(e.peek.value.error)
    else if e.peek.Some? && e.peek.value.value == s.content.version then Unchanged
    else if e.fetch.Err? then Failed(e.fetch.error)
    else
      var (value, version) := e.fetch.value;
      var hash := r.hash(value);
      if hash == s.content.hash then SameContent(version)
      else if hash == r.hash(r.fallback) then BackToFloor(version)
      else if r.validate.Some? && r.validate.value(value).Some? then Failed(r.validate.value(value).value)
      else Replaced(value, hash, version)
  }

  function After<V>(r: Recipe<V>, s: State<V>, e: Edge<V>): State<V> {
    match EndingOf(r, s, e)
    case Failed(error) => s.(attempt := Attempt(true, e.now, Some(error)))
    case Unchanged => s.(attempt := Attempt(true, e.now, None))
    case SameContent(version) =>
      State(s.content.(version := version, lastSuccess := Some(e.now)), Attempt(true, e.now, None))
    case BackToFloor(version) =>
      State(Content(r.zero, r.hash(r.fallback), Fallback, version, Some(e.now)), Attempt(true, e.now, None))
    case Replaced(value, hash, version) =>
      State(Content(value, hash, Fetched, version, Some(e.now)), Attempt(true, e.now, None))
  }

  lemma InitialInv<V>(r: Recipe<V>)
    ensures Inv(r, Initial(r))
  {}

  lemma AttemptKeeps<V>(r: Recipe<V>, s: State<V>, e: Edge<V>)
    requires Inv(r, s)
    ensures Inv(r, After(r, s, e))
  {}

  /** Serving never changes unless a fetch brought other content, and then it serves that. */
  lemma ServesWhatItFetched<V>(r: Recipe<V>, s: State<V>, e: Edge<V>)
    requires Inv(r, s)
    ensures var t := After(r, s, e);
      if t.content.hash == s.content.hash then Served(r, t.content) == Served(r, s.content)
      else e.fetch.Ok? && t.content.hash == r.hash(e.fetch.value.0) && t.content.version == e.fetch.value.1
           && r.hash(Served(r, t.content)) == r.hash(e.fetch.value.0)
  {}

  /** A failed attempt, and a peek that finds nothing new, leave the content and the time of the
      last successful fetch alone. */
  lemma FailureIsInvisible<V>(r: Recipe<V>, s: State<V>, e: Edge<V>)
    ensures After(r, s, e).attempt.error.Some? ==> After(r, s, e).content == s.content
    ensures EndingOf(r, s, e).Unchanged? ==> After(r, s, e).content == s.content
    ensures After(r, s, e).attempt.attempted && After(r, s, e).attempt.at == e.now
  {}

  /** An attempt fails exactly when the peek errs, or there is news and fetching errs or brings
      new content that validation refuses; a fetch that succeeds is recorded with its version. */
  lemma AttemptOutcome<V>(r: Recipe<V>, s: State<V>, e: Edge<V>)
    ensures var t := After(r, s, e);
      var known := e.peek.Some? && e.peek.value.Ok? && e.peek.value.value == s.content.version;
      var changed := e.fetch.Ok? && r.hash(e.fetch.value.0) != s.content.hash && r.hash(e.fetch.value.0) != r.hash(r.fallback);
      && (t.attempt.error.Some? <==>
            (e.peek.Some? && e.peek.value.Err?) || (!known && (e.fetch.Err? || (changed && !Validated(r, e.fetch.value.0)))))
      && (t.attempt.error.None? && !known ==>
            t.content.version == e.fetch.value.1 && t.content.lastSuccess == Some(e.now) && t.content.hash == r.hash(e.fetch.value.0))
  {}

  /** Over any number of attempts. */
  function Runs<V>(r: Recipe<V>, s: State<V>, edges: seq<Edge<V>>): State<V>
    decreases |edges|
  {
    if edges == [] then s else Runs(r, After(r, s, edges[0]), edges[1..])
  }

  lemma {:induction false} RunsKeep<V>(r: Recipe<V>, s: State<V>, edges: seq<Edge<V>>)
    requires Inv(r, s)
    ensures Inv(r, Runs(r, s, edges))
    decreases |edges|
  {
    if edges != [] {
      AttemptKeeps(r, s, edges[0]);
      RunsKeep(r, After(r, s, edges[0]), edges[1..]);
    }
  }

  lemma {:induction false} RunsSnoc<V>(r: Recipe<V>, s: State<V>, edges: seq<Edge<V>>, e: Edge<V>)
    ensures Runs(r, s, edges + [e]) == After(r, Runs(r, s, edges), e)
    decreases |edges|
  {
    hide After;
    if edges == [] {
      assert [e][1..] == [];
    } else {
      assert (edges + [e])[1..] == edges[1..] + [e];
      RunsSnoc(r, After(r, s, edges[0]), edges[1..], e);
    }
  }

  /** The i-th attempt fetched content that was accepted, new or not. */
  predicate Brings<V>(r: Recipe<V>, edges: seq<Edge<V>>, i: nat)
    requires i < |edges|
  {
    var ending := EndingOf(r, Runs(r, Initial(r), edges[..i]), edges[i]);
    !ending.Failed? && !ending.Unchanged?
  }

  /** Freshness after any number of attempts: the last attempt's time is that of the latest one, and
      the last success, the version and the hash all come from the latest attempt that fetched
      accepted content; without one the floor is served under its own version. */
  ghost predicate FreshnessTrue<V>(r: Recipe<V>, edges: seq<Edge<V>>) {
    var t, n := Runs(r, Initial(r), edges), |edges|;
    && (t.attempt.attempted <==> n > 0) && (n > 0 ==> t.attempt.at == edges[n - 1].now)
    && if t.content.lastSuccess.None? then
         (forall i :: 0 <= i < n ==> !Brings(r, edges, i)) && t.content == Initial(r).content
       else
         exists i: nat ::
           && i < n && Brings(r, edges, i) && (forall j :: i < j < n ==> !Brings(r, edges, j))
           && edges[i].fetch.Ok? && t.content.lastSuccess == Some(edges[i].now)
           && t.content.version == edges[i].fetch.value.1 && t.content.hash == r.hash(edges[i].fetch.value.0)
  }

  lemma {:induction false} FreshnessOfRuns<V>(r: Recipe<V>, edges: seq<Edge<V>>)
    ensures FreshnessTrue(r, edges)
    decreases |edges|
  {
    hide EndingOf, Runs, After, Brings;
    if edges == [] {
      NoAttempts(r);
    } else {
      var n := |edges| - 1;
      var before := edges[..n];
      assert edges == before + [edges[n]];
      FreshnessOfRuns(r, before);
      RunsSnoc(r, Initial(r), before, edges[n]);
      OneMore(r, Runs(r, Initial(r), before), edges[n]);
      LastBrings(r, edges);
      forall i | 0 <= i < n ensures Brings(r, edges, i) == Brings(r, before, i) {
        SameBrings(r, edges, i);
      }
      if !Brings(r, edges, n) { FreshnessStays(r, edges, n); }
    }
  }

  /** An attempt that brings nothing leaves the latest one that did where it was. */
  lemma FreshnessStays<V>(r: Recipe<V>, edges: seq<Edge<V>>, n: nat)
    requires n + 1 == |edges| && FreshnessTrue(r, edges[..n]) && !Brings(r, edges, n)
    requires forall i :: 0 <= i < n ==> Brings(r, edges, i) == Brings(r, edges[..n], i)
    requires var t := Runs(r, Initial(r), edges);
      t.content == Runs(r, Initial(r), edges[..n]).content && t.attempt.attempted && t.attempt.at == edges[n].now
    ensures FreshnessTrue(r, edges)
  {
    hide EndingOf, Runs, After, Brings;
    var before := edges[..n];
    assert forall i :: 0 <= i < n ==> before[i] == edges[i];
  }

  lemma NoAttempts<V>(r: Recipe<V>)
    ensures Runs(r, Initial(r), []) == Initial(r) && Initial(r).content.lastSuccess.None? && !Initial(r).attempt.attempted
  {}

  lemma OneMore<V>(r: Recipe<V>, s: State<V>, e: Edge<V>)
    ensures var t, ending := After(r, s, e), EndingOf(r, s, e);
      && t.attempt.attempted && t.attempt.at == e.now
      && if ending.Failed? || ending.Unchanged? then t.content == s.content
         else e.fetch.Ok? && t.content.lastSuccess == Some(e.now)
              && t.content.version == e.fetch.value.1 && t.content.hash == r.hash(e.fetch.value.0)
  {}

  lemma LastBrings<V>(r: Recipe<V>, edges: seq<Edge<V>>)
    requires edges != []
    ensures var n := |edges| - 1;
      var ending := EndingOf(r, Runs(r, Initial(r), edges[..n]), edges[n]);
      Brings(r, edges, n) <==> !ending.Failed? && !ending.Unchanged?
  {}

  lemma SameBrings<V>(r: Recipe<V>, edges: seq<Edge<V>>, i: nat)
    requires i + 1 < |edges|
    ensures Brings(r, edges, i) == Brings(r, edges[..|edges| - 1], i)
  {
    assert edges[..|edges| - 1][..i] == edges[..i];
  }

  /** Value. */
  class Value<!V(==)> {
    const recipe: Recipe<V>
    const floorHash: string
    var value: V
    var currentHash: string
    var currentSource: Source
    var currentVersion: string
    var attempted: bool
    var lastAttempt: int
    var lastErr: Option<string>
    var lastSuccess: Option<int>

    constructor (recipe: Recipe<V>)
      ensures this.recipe == recipe && floorHash == recipe.hash(recipe.fallback)
      ensures Abstract() == Initial(recipe)
    {
      this.recipe := recipe;
      floorHash, currentHash := recipe.hash(recipe.fallback), recipe.hash(recipe.fallback);
      value, currentSource, currentVersion := recipe.zero, Fallback, recipe.fallbackVersion;
      attempted, lastAttempt, lastErr, lastSuccess := false, 0, None, None;
    }

    function Abstract(): State<V>
      reads this
    {
      State(Content(value, currentHash, currentSource, currentVersion, lastSuccess), Attempt(attempted, lastAttempt, lastErr))
    }

    predicate Floored()
    {
      floorHash == recipe.hash(recipe.fallback)
    }

    method RecordAttempt(at: int, err: Option<string>)
      modifies this`attempted, this`lastAttempt, this`lastErr
      ensures attempted && lastAttempt == at && lastErr == err
    {
      attempted, lastAttempt, lastErr := true, at, err;
    }

    /** attempt. */
    method TryOnce(edge: Edge<V>) returns (err: Option<string>)
      requires Floored()
      modifies this
      ensures Abstract() == After(recipe, old(Abstract()), edge)
      ensures err == lastErr
    {
      if edge.peek.Some? {
        if edge.peek.value.Err? {
          RecordAttempt(edge.now, Some(edge.peek.value.error));
          return Some(edge.peek.value.error);
        }
        if edge.peek.value.value == currentVersion {
          RecordAttempt(edge.now, None);
          return None;
        }
      }
      if edge.fetch.Err? {
        RecordAttempt(edge.now, Some(edge.fetch.error));
        return Some(edge.fetch.error);
      }
      var (fetched, version) := edge.fetch.value;
      var hash := recipe.hash(fetched);
      if hash == currentHash {
        currentVersion := version;
        RecordAttempt(edge.now, None);
        lastSuccess := Some(edge.now);
        return None;
      }
      if hash == floorHash {
        value, currentHash, currentSource, currentVersion := recipe.zero, floorHash, Fallback, version;
        RecordAttempt(edge.now, None);
        lastSuccess := Some(edge.now);
        return None;
      }
      if recipe.validate.Some? {
        var invalid := recipe.validate.value(fetched);
        if invalid.Some? {
          RecordAttempt(edge.now, invalid);
          return invalid;
        }
      }
      value, currentHash, currentSource, currentVersion := fetched, hash, Fetched, version;
      RecordAttempt(edge.now, None);
      lastSuccess := Some(edge.now);
      return None;
    }

    /** Current. */
    method Current() returns (served: V, status: Status)
      ensures served == Served(recipe, Abstract().content)
      ensures Inv(recipe, Abstract()) ==>
        && recipe.hash(served) == currentHash
        && (status.source.Fallback? <==> currentHash == recipe.hash(recipe.fallback))
        && (if status.source.Fallback? then served == recipe.fallback else Validated(recipe, served))
      ensures status.version == currentVersion && status.lastSuccess == lastSuccess
      ensures status.lastAttempt.Some? <==> attempted
      ensures attempted ==> status.lastAttempt.value == lastAttempt
      ensures status.lastResult == if !attempted then None else if lastErr.Some? then Some(Failure) else Some(Success)
    {
      served := value;
      if currentSource.Fallback? {
        served := recipe.fallback;
      }
      status := Status(currentSource, currentVersion, lastSuccess, None, None);
      if attempted {
        var result := Success;
        if lastErr.Some? {
          result := Failure;
        }
        status := status.(lastAttempt := Some(lastAttempt), lastResult := Some(result));
      }
    }
  }
}
