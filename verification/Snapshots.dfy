/** Projecting an accepted price document (internal/usage/pricing/snapshot.go): the identities it
    retains within a caller's budget, and the tariff of each model.  A document is its models, whose
    identities are distinct; reading them out of JSON is not part of this model. */
module Snapshots {
  import opened Wrappers
  import opened Valuation
  import Matching = ModelMatch
  import Tiers

  type Identity = Matching.Identity

  // A model's cost object, and a model with the rates of its accepted Fast declaration.
  datatype CostDoc = CostDoc(base: RateVector, rows: seq<Tier>, legacy: Option<RateVector>)
  datatype ModelDoc = ModelDoc(identity: Identity, cost: Option<CostDoc>, fast: Option<RateVector>)

  datatype Snapshot = Snapshot(identities: seq<Identity>, tariffs: map<Identity, Tariff>)

  datatype Projection = Projected(snapshot: Snapshot) | OverLimit | Invalid

  const NO_RATES := RateVector(None, None, None, None)
  const NO_TARIFF := Tariff(Schedule(NO_RATES, []), None)

  const MAX_IDENTITY_BYTES := 1024

  /** validateIdentity, on bytes. */
  predicate ValidName(name: string) { 0 < |name| <= MAX_IDENTITY_BYTES }

  // ------------------------------------------------------------------ identity bytes

  function IdentityBytes(identities: seq<Identity>): nat {
    if identities == [] then 0
    else
      var last := identities[|identities| - 1];
      IdentityBytes(identities[..|identities| - 1]) + |last.provider| + |last.model|
  }

  lemma BytesSnoc(identities: seq<Identity>, i: Identity)
    ensures IdentityBytes(identities + [i]) == IdentityBytes(identities) + |i.provider| + |i.model|
  {
    assert (identities + [i])[..|identities|] == identities;
  }

  lemma {:induction false} PrefixBytes(identities: seq<Identity>, n: nat)
    requires n <= |identities|
    ensures IdentityBytes(identities[..n]) <= IdentityBytes(identities)
    decreases |identities| - n
  {
    if n < |identities| {
      assert identities[..n + 1][..n] == identities[..n];
      PrefixBytes(identities, n + 1);
    } else {
      assert identities[..n] == identities;
    }
  }

  lemma {:induction false} BytesAt(identities: seq<Identity>, i: nat)
    requires i < |identities|
    ensures IdentityBytes(identities) ==
      |identities[i].provider| + |identities[i].model| + IdentityBytes(identities[..i] + identities[i + 1..])
    decreases |identities|
  {
    hide IdentityBytes;
    var init, last := identities[..|identities| - 1], identities[|identities| - 1];
    assert identities == init + [last];
    BytesSnoc(init, last);
    if i < |init| {
      BytesAt(init, i);
      assert identities[..i] + identities[i + 1..] == init[..i] + init[i + 1..] + [last];
      BytesSnoc(init[..i] + init[i + 1..], last);
    } else {
      assert identities[..i] + identities[i + 1..] == init;
    }
  }

  lemma WithoutOne(a: seq<Identity>, b: seq<Identity>) returns (i: nat)
    requires multiset(a) == multiset(b) && a != []
    ensures i < |b| && b[i] == a[|a| - 1] && multiset(a[..|a| - 1]) == multiset(b[..i] + b[i + 1..])
  {
    WithoutAt(a, |a| - 1);
    assert a[..|a| - 1] + a[|a| - 1 + 1..] == a[..|a| - 1];
    i := IndexOf(a, b);
    WithoutAt(b, i);
  }

  lemma IndexOf(a: seq<Identity>, b: seq<Identity>) returns (i: nat)
    requires multiset(a) == multiset(b) && a != []
    ensures i < |b| && b[i] == a[|a| - 1]
  {
    assert a[|a| - 1] in multiset(b);
    i :| 0 <= i < |b| && b[i] == a[|a| - 1];
  }

  lemma WithoutAt(s: seq<Identity>, i: nat)
    requires i < |s|
    ensures multiset(s[..i] + s[i + 1..]) == multiset(s) - multiset{s[i]}
  {
    assert s == s[..i] + [s[i]] + s[i + 1..];
  }

  /** The charge does not depend on the order in which models are walked. */
  lemma {:induction false} BytesUnordered(a: seq<Identity>, b: seq<Identity>)
    requires multiset(a) == multiset(b)
    ensures IdentityBytes(a) == IdentityBytes(b)
    decreases |a|
  {
    if a == [] {
      assert |multiset(b)| == |b|;
    } else {
      var i := WithoutOne(a, b);
      BytesUnordered(a[..|a| - 1], b[..i] + b[i + 1..]);
      BytesAt(b, i);
    }
  }

  // ------------------------------------------------------------------------- tariffs

  predicate Ordered(t: Tariff) { Sorted(t.normal.tiers) && (t.fast.Some? ==> Sorted(t.fast.value.tiers)) }

  /** The schedule of a cost object: its rows by threshold, the legacy row only without any. */
  predicate IsNormal(cost: CostDoc, s: Schedule) {
    && s.base == cost.base && Sorted(s.tiers)
    && (if cost.rows != [] then multiset(s.tiers) == multiset(cost.rows)
        else s.tiers == if cost.legacy.Some? then [Tier(Tiers.LEGACY_THRESHOLD, cost.legacy.value)] else [])
  }

  /** The fast schedule over a normal one: the same thresholds, exact premiums. */
  ghost predicate IsFast(normal: Schedule, base: RateVector, s: Schedule) {
    && s.base == base && Sorted(s.tiers) && |s.tiers| == |normal.tiers|
    && forall i :: 0 <= i < |s.tiers| ==>
         s.tiers[i].threshold == normal.tiers[i].threshold
         && Tiers.IsPremiumVector(normal.base, base, normal.tiers[i].rates, s.tiers[i].rates)
  }

  predicate HasFast(m: ModelDoc) { m.identity.provider == "openai" && m.fast.Some? }

  predicate Tariffed(m: ModelDoc) { m.cost.Some? || HasFast(m) }

  ghost predicate IsTariffOf(m: ModelDoc, t: Tariff) {
    && (if m.cost.Some? then IsNormal(m.cost.value, t.normal) else t.normal == NO_TARIFF.normal)
    && (if HasFast(m) then t.fast.Some? && IsFast(t.normal, m.fast.value, t.fast.value) else t.fast.None?)
  }

  /** A model that can be projected: no two of its context rows share a threshold. */
  predicate Sound(m: ModelDoc) { ValidName(m.identity.model) && (m.cost.Some? ==> Tiers.Distinct(m.cost.value.rows)) }

  /** The tariff of one model. */
  method ParseModel(m: ModelDoc) returns (t: Option<Tariff>)
    requires ValidName(m.identity.model)
    ensures t.Some? <==> Sound(m)
    ensures t.Some? ==> IsTariffOf(m, t.value) && Ordered(t.value)
  {
    hide Tiers.Distinct, Tiers.IsPremiumVector;
    var tariff := NO_TARIFF;
    if m.cost.Some? {
      var normal := Tiers.ParseTiers(m.cost.value.base, m.cost.value.rows, m.cost.value.legacy);
      if normal.None? {
        return None;
      }
      tariff := Tariff(normal.value, None);
    }
    if HasFast(m) {
      var fast := Tiers.FastSchedule(tariff.normal, m.fast.value);
      tariff := Tariff(tariff.normal, Some(fast));
    }
    return Some(tariff);
  }

  // ---------------------------------------------------------------------- projection

  function Identities(models: seq<ModelDoc>): seq<Identity> { seq(|models|, i requires 0 <= i < |models| => models[i].identity) }

  /** Keys of JSON objects are distinct. */
  predicate Keyed(models: seq<ModelDoc>) {
    forall i, j :: 0 <= i < j < |models| ==> models[i].identity != models[j].identity
  }

  /** Exactly the models' identities are kept, and exactly the models with a cost object or an
      accepted Fast declaration have a tariff, each its own. */
  ghost predicate IsProjection(s: Snapshot, models: seq<ModelDoc>) {
    && s.identities == Identities(models)
    && (forall i <- s.tariffs :: Ordered(s.tariffs[i]) && exists m <- models :: m.identity == i && Tariffed(m) && IsTariffOf(m, s.tariffs[i]))
    && (forall m <- models :: Tariffed(m) ==> m.identity in s.tariffs)
  }

  lemma ProjectionGrows(s: Snapshot, models: seq<ModelDoc>, n: nat, t: Tariff)
    requires n < |models| && Keyed(models) && IsProjection(s, models[..n]) && IsTariffOf(models[n], t) && Ordered(t)
    ensures var m := models[n];
      IsProjection(Snapshot(s.identities + [m.identity], if Tariffed(m) then s.tariffs[m.identity := t] else s.tariffs), models[..n + 1])
  {
    hide IsTariffOf, Ordered, Tariffed;
    var m, before, longer := models[n], models[..n], models[..n + 1];
    var next := if Tariffed(m) then s.tariffs[m.identity := t] else s.tariffs;
    assert longer == before + [m] && m in longer;
    forall i | i in next
      ensures Ordered(next[i]) && exists d <- longer :: d.identity == i && Tariffed(d) && IsTariffOf(d, next[i])
    {
      if i == m.identity && Tariffed(m) {
        assert IsTariffOf(m, next[i]);
      } else {
        var d :| d in before && d.identity == i && Tariffed(d) && IsTariffOf(d, s.tariffs[i]);
        assert d in longer;
      }
    }
  }

  lemma NothingProjected(models: seq<ModelDoc>)
    ensures IsProjection(Snapshot([], map[]), models[..0]) && IdentityBytes([]) == 0
  {}

  lemma OneMoreIdentity(models: seq<ModelDoc>, n: nat)
    requires n < |models|
    ensures Identities(models[..n + 1]) == Identities(models[..n]) + [models[n].identity]
    ensures IdentityBytes(Identities(models[..n + 1])) ==
      IdentityBytes(Identities(models[..n])) + |models[n].identity.provider| + |models[n].identity.model|
    ensures IdentityBytes(Identities(models[..n + 1])) <= IdentityBytes(Identities(models))
  {
    BytesSnoc(Identities(models[..n]), models[n].identity);
    assert Identities(models[..n + 1]) == Identities(models[..n]) + [models[n].identity];
    PrefixBytes(Identities(models), n + 1);
    assert Identities(models)[..n + 1] == Identities(models[..n + 1]);
  }

  function BytesTo(models: seq<ModelDoc>, n: nat): nat
    requires n <= |models|
  {
    IdentityBytes(Identities(models[..n]))
  }

  /** Walking the document, the n-th identity is the first to pass the limit, and no name before it
      or its own was refused. */
  predicate OverAt(models: seq<ModelDoc>, n: nat, limit: int) {
    && n < |models| && (forall k :: 0 <= k <= n ==> ValidName(models[k].identity.model))
    && BytesTo(models, n) <= limit < BytesTo(models, n + 1)
  }

  /** unambiguousJSON on the identities: the whole document is walked before any model is read, so
      the budget refuses a document before an unsound model can. */
  method WalkIdentities(models: seq<ModelDoc>, limit: nat) returns (fault: Option<Projection>)
    ensures fault == Some(OverLimit) <==> exists n :: OverAt(models, n, limit)
    ensures fault.Some? ==> fault.value.OverLimit? || (fault.value.Invalid? && exists m <- models :: !ValidName(m.identity.model))
    ensures fault.None? <==> IdentityBytes(Identities(models)) <= limit && forall m <- models :: ValidName(m.identity.model)
  {
    hide Identities, IdentityBytes, ValidName;
    var bytes: nat := 0;
    NoIdentities(models);
    for n := 0 to |models|
      invariant bytes == IdentityBytes(Identities(models[..n])) <= limit
      invariant forall k :: 0 <= k < n ==> ValidName(models[k].identity.model)
      invariant forall k :: 0 <= k <= n ==> BytesTo(models, k) <= limit
    {
      var m := models[n];
      assert m in models;
      OneMoreIdentity(models, n);
      if !ValidName(m.identity.model) {
        return Some(Invalid);
      }
      var size := |m.identity.provider| + |m.identity.model|;
      if size > limit - bytes {
        assert OverAt(models, n, limit);
        return Some(OverLimit);
      }
      bytes := bytes + size;
    }
    assert models[..|models|] == models;
    return None;
  }

  /** parseSnapshot: the walk, then the loop over the models, whose own budget check can no longer
      fail.  A refusal is the budget's exactly when the walk comes to it. */
  method Project(models: seq<ModelDoc>, limit: int) returns (r: Projection)
    requires Keyed(models)
    ensures r.Projected? ==> IsProjection(r.snapshot, models) && WellFormed(r.snapshot)
    ensures r.OverLimit? <==> limit < 0 || exists n :: OverAt(models, n, limit)
    ensures r.Invalid? ==> exists m <- models :: !Sound(m)
    ensures r.Projected? <==> limit >= 0 && IdentityBytes(Identities(models)) <= limit && forall m <- models :: Sound(m)
  {
    hide IsProjection, Identities, IdentityBytes, Keyed, IsTariffOf, Ordered, Tiers.Distinct, WellFormed, ValidName, OverAt;
    if limit < 0 {
      return OverLimit;
    }
    var fault := WalkIdentities(models, limit);
    if fault.Some? {
      return fault.value;
    }
    var snapshot := Snapshot([], map[]);
    var bytes: nat := 0;
    NothingProjected(models);
    NoIdentities(models);
    for n := 0 to |models|
      invariant IsProjection(snapshot, models[..n])
      invariant bytes == IdentityBytes(Identities(models[..n])) <= limit
      invariant forall k :: 0 <= k < n ==> Sound(models[k])
    {
      var m := models[n];
      assert m in models;
      OneMoreIdentity(models, n);
      var size := |m.identity.provider| + |m.identity.model|;
      if size > limit - bytes {
        assert false;
      }
      bytes := bytes + size;
      var tariff := ParseModel(m);
      if tariff.None? {
        return Invalid;
      }
      ProjectionGrows(snapshot, models, n, tariff.value);
      snapshot := Snapshot(snapshot.identities + [m.identity],
                           if Tariffed(m) then snapshot.tariffs[m.identity := tariff.value] else snapshot.tariffs);
    }
    assert models[..|models|] == models;
    ProjectionWellFormed(snapshot, models);
    return Projected(snapshot);
  }

  /** A model has one tariff. */
  lemma TariffUnique(m: ModelDoc, a: Tariff, b: Tariff)
    requires IsTariffOf(m, a) && IsTariffOf(m, b)
    ensures a == b
  {
    hide Sorted, Tiers.IsPremiumVector;
    if m.cost.Some? && m.cost.value.rows != [] { Tiers.SortedUnique(a.normal.tiers, b.normal.tiers); }
    assert a.normal == b.normal;
    if HasFast(m) { FastUnique(a.normal, m.fast.value, a.fast.value, b.fast.value); }
  }

  lemma FastUnique(normal: Schedule, base: RateVector, a: Schedule, b: Schedule)
    requires IsFast(normal, base, a) && IsFast(normal, base, b)
    ensures a == b
  {
    hide Sorted, Tiers.IsPremiumVector;
    forall i | 0 <= i < |a.tiers| ensures a.tiers[i] == b.tiers[i] {
      Tiers.VectorUnique(normal.base, base, normal.tiers[i].rates, a.tiers[i].rates, b.tiers[i].rates);
    }
  }

  /** A document has one projection, whenever it is parsed. */
  lemma ProjectionUnique(a: Snapshot, b: Snapshot, models: seq<ModelDoc>)
    requires Keyed(models) && IsProjection(a, models) && IsProjection(b, models)
    ensures a == b
  {
    hide IsTariffOf, Ordered, Tariffed;
    assert a.tariffs.Keys == b.tariffs.Keys;
    forall i | i in a.tariffs ensures a.tariffs[i] == b.tariffs[i] {
      var m :| m in models && m.identity == i && Tariffed(m) && IsTariffOf(m, a.tariffs[i]);
      var n :| n in models && n.identity == i && Tariffed(n) && IsTariffOf(n, b.tariffs[i]);
      KeyedOnce(models, m, n);
      TariffUnique(m, a.tariffs[i], b.tariffs[i]);
    }
  }

  lemma KeyedOnce(models: seq<ModelDoc>, m: ModelDoc, n: ModelDoc)
    requires Keyed(models) && m in models && n in models && m.identity == n.identity
    ensures m == n
  {
    var i :| 0 <= i < |models| && models[i] == m;
    var j :| 0 <= j < |models| && models[j] == n;
    assert i == j;
  }

  /** What a retained model can be charged by: it has a tariff exactly when it has a cost object or is an
      OpenAI model with a Fast declaration, only the latter have a fast schedule, and rates come from
      nowhere else.  A model has to be named by 1 to 1024 bytes and to have no threshold twice. */
  lemma ProjectionSays(s: Snapshot, models: seq<ModelDoc>, m: ModelDoc)
    requires Keyed(models) && IsProjection(s, models) && m in models
    ensures var fast := m.identity.provider == "openai" && m.fast.Some?;
      && (m.identity in s.tariffs <==> m.cost.Some? || fast)
      && (m.identity in s.tariffs ==>
            var t := s.tariffs[m.identity];
            && (t.fast.Some? <==> fast)
            && (fast ==> t.fast.value.base == m.fast.value)
            && t.normal.base == (if m.cost.Some? then m.cost.value.base else NO_RATES)
            && (m.cost.None? || (m.cost.value.rows == [] && m.cost.value.legacy.None?) ==> t.normal.tiers == []))
    ensures Sound(m) <==>
      && 1 <= |m.identity.model| <= 1024
      && (m.cost.Some? ==>
            var rows := m.cost.value.rows; forall i, j :: 0 <= i < j < |rows| ==> rows[i].threshold != rows[j].threshold)
  {
    hide Ordered;
    if m.identity in s.tariffs {
      var d :| d in models && d.identity == m.identity && Tariffed(d) && IsTariffOf(d, s.tariffs[m.identity]);
      KeyedOnce(models, m, d);
    }
  }

  lemma NoIdentities(models: seq<ModelDoc>)
    ensures IdentityBytes(Identities(models[..0])) == 0
  {}

  /** Every tariff can be searched, and every retained name is the name of a model. */
  ghost predicate WellFormed(s: Snapshot) {
    && (forall i <- s.tariffs :: Ordered(s.tariffs[i]))
    && (forall i <- s.identities :: ValidName(i.model))
  }

  lemma ProjectionWellFormed(s: Snapshot, models: seq<ModelDoc>)
    requires IsProjection(s, models) && forall m <- models :: ValidName(m.identity.model)
    ensures WellFormed(s)
  {
    hide Ordered, IsTariffOf, Tariffed, ValidName;
    forall i | i in s.identities ensures ValidName(i.model) {
      var k :| 0 <= k < |s.identities| && s.identities[k] == i;
      assert models[k] in models;
    }
  }
}
