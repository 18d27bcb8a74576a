/**
 * The versioned configuration store of internal/config/store.go: entity maps keyed by
 * id, a version counter, an audit trail, and snapshots that list each map in any order.
 */
module ConfigStore {
  import opened Basics
  import opened RuleOrder
  import opened ModelProfiles

  datatype Cluster = Cluster(clusterId: string, displayName: string, region: string, environment: string,
                             enabled: bool, maintenanceMode: bool, labels: map<string, string>)

  datatype Engine = Engine(engineId: string, clusterId: string, apiEndpoint: string, tokenizerEndpoint: string,
                           servedModels: seq<string>, draining: bool, enabled: bool)

  datatype AuditEntry = AuditEntry(version: int, action: string, entity: string, entityId: string,
                                   versionBump: bool, detail: string)

  datatype Core = Core(clusters: map<string, Cluster>, engines: map<string, Engine>,
                       profiles: map<string, ModelProfile>, policies: map<string, Policy>,
                       version: int, audit: seq<AuditEntry>)

  const EMPTY_CORE: Core := Core(map[], map[], map[], map[], 0, [])

  datatype ConfigOp =
    | UpsertCluster(cluster: Cluster)
    | UpsertEngine(engine: Engine)
    | RemoveEngine(engineId: string)
    | UpsertProfile(profile: ModelProfile)
    | RemoveProfile(modelId: string)
    | UpsertPolicy(policy: Policy)
    | PatchPolicy(patchId: string, patch: Policy)
    | RemovePolicy(ruleId: string)

  function Bump(c: Core, action: string, entity: string, id: string, forced: bool, detail: string): Core {
    c.(version := c.version + 1,
       audit := c.audit + [AuditEntry(c.version + 1, action, entity, id, forced, detail)])
  }

  function StoredProfile(c: Core, p: ModelProfile): (ModelProfile, bool) {
    Upserted(if p.modelId in c.profiles then Some(c.profiles[p.modelId]) else None, p)
  }

  /** PatchPolicy's update keeps the rule id. */
  function Patched(p: Policy, patch: Policy): Policy {
    patch.(ruleId := p.ruleId)
  }

  /** One mutation; false when the entity to change is missing, and then nothing changes. */
  function Step(c: Core, op: ConfigOp): (Core, bool) {
    match op
    case UpsertCluster(x) =>
      (Bump(c.(clusters := c.clusters[x.clusterId := x]), "upsert", "cluster", x.clusterId, false, ""), true)
    case UpsertEngine(x) =>
      (Bump(c.(engines := c.engines[x.engineId := x]), "upsert", "engine", x.engineId, false, ""), true)
    case RemoveEngine(id) =>
      if id !in c.engines then (c, false)
      else (Bump(c.(engines := c.engines - {id}), "remove", "engine", id, false, ""), true)
    case UpsertProfile(p) =>
      var (stored, forced) := StoredProfile(c, p);
      (Bump(c.(profiles := c.profiles[p.modelId := stored]), "upsert", "model_profile", p.modelId, forced,
            "version=" + ItoaText(stored.version)), true)
    case RemoveProfile(id) =>
      if id !in c.profiles then (c, false)
      else (Bump(c.(profiles := c.profiles - {id}), "remove", "model_profile", id, false, ""), true)
    case UpsertPolicy(p) =>
      (Bump(c.(policies := c.policies[p.ruleId := p]), "upsert", "policy", p.ruleId, false, ""), true)
    case PatchPolicy(id, patch) =>
      if id !in c.policies then (c, false)
      else
        (Bump(c.(policies := c.policies[id := Patched(c.policies[id], patch)]), "patch", "policy", id, false, ""), true)
    case RemovePolicy(id) =>
      if id !in c.policies then (c, false)
      else (Bump(c.(policies := c.policies - {id}), "remove", "policy", id, false, ""), true)
  }

  /** One long-lived store under a run of mutations. */
  function LongLived(ops: seq<ConfigOp>): Core {
    if ops == [] then EMPTY_CORE else Step(LongLived(Init(ops)), Last(ops)).0
  }

  // ------------------------------------------------ each mutation, map by map

  ghost predicate Put<T(!new)>(m: map<string, T>, k: string, v: T, m': map<string, T>) {
    && k in m' && m'[k] == v
    && forall x :: x != k ==> (x in m' <==> x in m) && (x in m ==> m'[x] == m[x])
  }

  ghost predicate Taken<T(!new)>(m: map<string, T>, k: string, m': map<string, T>) {
    && k !in m'
    && forall x :: x != k ==> (x in m' <==> x in m) && (x in m ==> m'[x] == m[x])
  }

  /** One more version, and one audit entry that says what happened to what. */
  ghost predicate Logged(c: Core, d: Core, entry: AuditEntry) {
    && d.version == c.version + 1 && entry.version == d.version
    && |d.audit| == |c.audit| + 1 && d.audit[..|c.audit|] == c.audit && d.audit[|c.audit|] == entry
  }

  ghost predicate LoggedAs(c: Core, d: Core, action: string, entity: string, id: string) {
    Logged(c, d, AuditEntry(c.version + 1, action, entity, id, false, ""))
  }

  /** From `c` to `d` the mutation did what it is for, and nothing else; `ok` is its answer. */
  ghost predicate Does(c: Core, op: ConfigOp, d: Core, ok: bool) {
    && (!op.UpsertCluster? ==> d.clusters == c.clusters)
    && (!op.UpsertEngine? && !op.RemoveEngine? ==> d.engines == c.engines)
    && (!op.UpsertProfile? && !op.RemoveProfile? ==> d.profiles == c.profiles)
    && (!op.UpsertPolicy? && !op.PatchPolicy? && !op.RemovePolicy? ==> d.policies == c.policies)
    && (!ok ==> d == c)
    && match op
       case UpsertCluster(x) =>
         ok && Put(c.clusters, x.clusterId, x, d.clusters) && LoggedAs(c, d, "upsert", "cluster", x.clusterId)
       case UpsertEngine(x) =>
         ok && Put(c.engines, x.engineId, x, d.engines) && LoggedAs(c, d, "upsert", "engine", x.engineId)
       case RemoveEngine(id) =>
         && (ok <==> id in c.engines) && Taken(c.engines, id, d.engines)
         && (ok ==> LoggedAs(c, d, "remove", "engine", id))
       case UpsertProfile(q) =>
         && ok && q.modelId in d.profiles && Put(c.profiles, q.modelId, d.profiles[q.modelId], d.profiles)
         && StoredFor(if q.modelId in c.profiles then Some(c.profiles[q.modelId]) else None, q, d.profiles[q.modelId])
         && Logged(c, d, AuditEntry(c.version + 1, "upsert", "model_profile", q.modelId,
                                    q.modelId in c.profiles && Rehashes(c.profiles[q.modelId], d.profiles[q.modelId]),
                                    "version=" + ItoaText(d.profiles[q.modelId].version)))
       case RemoveProfile(id) =>
         && (ok <==> id in c.profiles) && Taken(c.profiles, id, d.profiles)
         && (ok ==> LoggedAs(c, d, "remove", "model_profile", id))
       case UpsertPolicy(x) =>
         ok && Put(c.policies, x.ruleId, x, d.policies) && LoggedAs(c, d, "upsert", "policy", x.ruleId)
       case PatchPolicy(id, patch) =>
         && (ok <==> id in c.policies)
         && (ok ==>
               && id in d.policies && Put(c.policies, id, d.policies[id], d.policies)
               && d.policies[id].ruleId == c.policies[id].ruleId && d.policies[id].name == patch.name
               && d.policies[id].priority == patch.priority && d.policies[id].conditions == patch.conditions
               && d.policies[id].action == patch.action && d.policies[id].enabled == patch.enabled
               && LoggedAs(c, d, "patch", "policy", id))
       case RemovePolicy(id) =>
         && (ok <==> id in c.policies) && Taken(c.policies, id, d.policies)
         && (ok ==> LoggedAs(c, d, "remove", "policy", id))
  }

  lemma UpsertProfileDoes(c: Core, q: ModelProfile)
    ensures Does(c, UpsertProfile(q), Step(c, UpsertProfile(q)).0, true)
  {
    UpsertedMeans(if q.modelId in c.profiles then Some(c.profiles[q.modelId]) else None, q);
  }

  /** Every mutation does that, on every state. */
  lemma StepDoes(c: Core, op: ConfigOp)
    ensures Does(c, op, Step(c, op).0, Step(c, op).1)
  {
    match op
    case UpsertProfile(q) => UpsertProfileDoes(c, q);
    case UpsertCluster(_) =>
    case UpsertEngine(_) =>
    case RemoveEngine(_) =>
    case RemoveProfile(_) =>
    case UpsertPolicy(_) =>
    case PatchPolicy(_, _) =>
    case RemovePolicy(_) =>
  }

  // ------------------------------------------------------------------ snapshots

  datatype Snapshot = Snapshot(version: int, clusters: seq<Cluster>, engines: seq<Engine>,
                               profiles: seq<ModelProfile>, policies: seq<Policy>, audit: seq<AuditEntry>)

  const EMPTY_SNAPSHOT: Snapshot := Snapshot(0, [], [], [], [], [])

  /** `vs` lists the values of `m`, in some order. */
  ghost predicate Lists<T(!new)>(m: map<string, T>, vs: seq<T>) {
    (forall k :: k in m ==> m[k] in vs) && (forall v :: v in vs ==> exists k :: k in m && m[k] == v)
  }

  ghost predicate Listed(c: Core, snap: Snapshot) {
    && snap.version == c.version && snap.audit == c.audit
    && Lists(c.clusters, snap.clusters) && Lists(c.engines, snap.engines)
    && Lists(c.profiles, snap.profiles) && Lists(c.policies, snap.policies)
  }

  /** Entries of a rebuilt map: which key and value a listed entity becomes, if any. */
  function ClusterEntry(x: Cluster): Option<(string, Cluster)> { Some((x.clusterId, x)) }

  function EngineEntry(x: Engine): Option<(string, Engine)> { Some((x.engineId, x)) }

  function ProfileEntry(x: ModelProfile): Option<(string, ModelProfile)> {
    Some((Normalize(x).modelId, Normalize(x)))
  }

  function PolicyEntry(x: Policy): Option<(string, Policy)> {
    if x.ruleId == "" then None else Some((x.ruleId, x))
  }

  function Rebuilt<T>(vs: seq<T>, entry: T -> Option<(string, T)>): map<string, T> {
    if vs == [] then map[]
    else
      match entry(Last(vs))
      case None => Rebuilt(Init(vs), entry)
      case Some(kv) => Rebuilt(Init(vs), entry)[kv.0 := kv.1]
  }

  /** What applySnapshot makes of a snapshot. */
  function Loaded(snap: Snapshot): Core {
    Core(Rebuilt(snap.clusters, ClusterEntry), Rebuilt(snap.engines, EngineEntry),
         Rebuilt(snap.profiles, ProfileEntry), Rebuilt(snap.policies, PolicyEntry),
         snap.version, snap.audit)
  }

  lemma {:induction false} RebuiltFromListed<T>(vs: seq<T>, entry: T -> Option<(string, T)>)
    ensures forall k :: k in Rebuilt(vs, entry) ==>
              exists v :: v in vs && entry(v) == Some((k, Rebuilt(vs, entry)[k]))
    ensures forall v :: v in vs && entry(v).Some? ==> entry(v).value.0 in Rebuilt(vs, entry)
    decreases |vs|
  {
    if vs != [] {
      RebuiltFromListed(Init(vs), entry);
      assert vs == Init(vs) + [Last(vs)];
    }
  }

  /** Rebuilding a listing gives back every kept entry under its own key. */
  lemma RebuiltIs<T(!new)>(m: map<string, T>, vs: seq<T>, entry: T -> Option<(string, T)>, want: map<string, T>)
    requires Lists(m, vs)
    requires forall k :: k in m ==> entry(m[k]) == if k in want then Some((k, want[k])) else None
    requires want.Keys <= m.Keys
    ensures Rebuilt(vs, entry) == want
  {
    RebuiltFromListed(vs, entry);
    var r := Rebuilt(vs, entry);
    forall k ensures (k in r <==> k in want) && (k in r ==> r[k] == want[k]) {
      if k in want {
        assert m[k] in vs && entry(m[k]).value.0 in r;
      }
      if k in r {
        var v :| v in vs && entry(v) == Some((k, r[k]));
        var key :| key in m && m[key] == v;
      }
    }
    assert r == want;
  }

  /** Entities sit under their own ids, and stored profiles are normalized. */
  ghost predicate Sane(c: Core) {
    && (forall k :: k in c.clusters ==> c.clusters[k].clusterId == k)
    && (forall k :: k in c.engines ==> c.engines[k].engineId == k)
    && (forall k :: k in c.profiles ==> c.profiles[k].modelId == k && Normalize(c.profiles[k]) == c.profiles[k])
    && (forall k :: k in c.policies ==> c.policies[k].ruleId == k)
  }

  lemma StoredProfileIsSane(c: Core, p: ModelProfile)
    ensures StoredProfile(c, p).0.modelId == p.modelId
    ensures Normalize(StoredProfile(c, p).0) == StoredProfile(c, p).0
  {
    var stored := StoredProfile(c, p).0;
    assert stored == Normalize(p).(version := stored.version);
    NormalizeTwice(p, stored.version);
  }

  lemma NormalizeTwice(p: ModelProfile, v: int)
    ensures Normalize(Normalize(p).(version := v)) == Normalize(p).(version := v)
  {
  }

  lemma StepKeepsSane(c: Core, op: ConfigOp)
    requires Sane(c)
    ensures Sane(Step(c, op).0)
  {
    match op
    case UpsertProfile(p) => StoredProfileIsSane(c, p);
    case UpsertCluster(_) =>
    case UpsertEngine(_) =>
    case UpsertPolicy(_) =>
    case PatchPolicy(_, _) =>
    case RemoveEngine(_) =>
    case RemoveProfile(_) =>
    case RemovePolicy(_) =>
  }

  /** Whatever is loaded is sane, and has no policy with an empty id. */
  lemma LoadedIsSane(snap: Snapshot)
    ensures Sane(Loaded(snap)) && "" !in Loaded(snap).policies
  {
    RebuiltFromListed(snap.clusters, ClusterEntry);
    RebuiltFromListed(snap.engines, EngineEntry);
    RebuiltFromListed(snap.profiles, ProfileEntry);
    RebuiltFromListed(snap.policies, PolicyEntry);
    forall x: ModelProfile ensures Normalize(Normalize(x)) == Normalize(x) {
    }
  }

  /** Saving and loading a sane store loses nothing but policies with an empty id. */
  lemma SnapshotRoundTrip(c: Core, snap: Snapshot)
    requires Sane(c) && Listed(c, snap)
    ensures Loaded(snap) == c.(policies := c.policies - {""})
    ensures Sane(Loaded(snap))
  {
    RebuiltIs(c.clusters, snap.clusters, ClusterEntry, c.clusters);
    RebuiltIs(c.engines, snap.engines, EngineEntry, c.engines);
    RebuiltIs(c.profiles, snap.profiles, ProfileEntry, c.profiles);
    RebuiltIs(c.policies, snap.policies, PolicyEntry, c.policies - {""});
  }

  // ----------------------------------------------------------------- the classes

  /** A persister that keeps the last snapshot in memory. */
  class SnapshotPersister {
    var snap: Snapshot
    var ok: bool

    constructor (snap: Snapshot, ok: bool)
      ensures this.snap == snap && this.ok == ok
    {
      this.snap, this.ok := snap, ok;
    }

    method Save(s: Snapshot)
      modifies this
      ensures snap == s && ok
    {
      snap, ok := s, true;
    }
  }

  class Store {
    var clusters: map<string, Cluster>
    var engines: map<string, Engine>
    var profiles: map<string, ModelProfile>
    var policies: map<string, Policy>
    var version: int
    var audit: seq<AuditEntry>
    const persister: SnapshotPersister

    function Value(): Core
      reads this
    {
      Core(clusters, engines, profiles, policies, version, audit)
    }

    constructor (persister: SnapshotPersister)
      ensures Value() == EMPTY_CORE && this.persister == persister
    {
      clusters, engines, profiles, policies := map[], map[], map[], map[];
      version, audit := 0, [];
      this.persister := persister;
    }

    method BumpVersion(action: string, entity: string, id: string, forced: bool, detail: string)
      modifies this`version, this`audit
      ensures Value() == Bump(old(Value()), action, entity, id, forced, detail)
    {
      version := version + 1;
      audit := audit + [AuditEntry(version, action, entity, id, forced, detail)];
    }

    /** snapshotLocked and persistLocked */
    method Persist()
      modifies persister
      ensures Listed(Value(), persister.snap) && persister.ok
    {
      var cs := ListValues(clusters);
      var es := ListValues(engines);
      var ps := ListValues(profiles);
      var rs := ListValues(policies);
      persister.Save(Snapshot(version, cs, es, ps, rs, audit));
    }

    method UpsertCluster(c: Cluster)
      modifies this, persister
      ensures Value() == Step(old(Value()), ConfigOp.UpsertCluster(c)).0
      ensures Listed(Value(), persister.snap)
      ensures Does(old(Value()), ConfigOp.UpsertCluster(c), Value(), true)
    {
      StepDoes(Value(), ConfigOp.UpsertCluster(c));
      clusters := clusters[c.clusterId := c];
      BumpVersion("upsert", "cluster", c.clusterId, false, "");
      Persist();
    }

    method UpsertEngine(e: Engine)
      modifies this, persister
      ensures Value() == Step(old(Value()), ConfigOp.UpsertEngine(e)).0
      ensures Listed(Value(), persister.snap)
      ensures Does(old(Value()), ConfigOp.UpsertEngine(e), Value(), true)
    {
      StepDoes(Value(), ConfigOp.UpsertEngine(e));
      engines := engines[e.engineId := e];
      BumpVersion("upsert", "engine", e.engineId, false, "");
      Persist();
    }

    method RemoveEngine(id: string) returns (ok: bool)
      modifies this, persister
      ensures (Value(), ok) == Step(old(Value()), ConfigOp.RemoveEngine(id))
      ensures if ok then Listed(Value(), persister.snap) else persister.snap == old(persister.snap)
      ensures Does(old(Value()), ConfigOp.RemoveEngine(id), Value(), ok)
    {
      StepDoes(Value(), ConfigOp.RemoveEngine(id));
      if id !in engines {
        return false;
      }
      engines := engines - {id};
      BumpVersion("remove", "engine", id, false, "");
      Persist();
      return true;
    }

    /** The profile to store for `q`, with its version, and whether it counts as a version bump. */
    method VersionedProfile(q: ModelProfile) returns (p: ModelProfile, bump: bool)
      ensures (p, bump) == StoredProfile(Value(), q)
    {
      p := Normalize(q);
      bump := false;
      if p.modelId in profiles {
        var old' := profiles[p.modelId];
        if AffectsHashNamespace(old', p) {
          p := p.(version := old'.version + 1);
          bump := true;
        } else if p.version == 0 {
          p := p.(version := old'.version);
        }
      } else if p.version == 0 {
        p := p.(version := 1);
      }
    }

    method UpsertModelProfile(q: ModelProfile) returns (stored: ModelProfile)
      modifies this, persister
      ensures Value() == Step(old(Value()), UpsertProfile(q)).0
      ensures stored == StoredProfile(old(Value()), q).0
      ensures Listed(Value(), persister.snap)
      ensures Does(old(Value()), UpsertProfile(q), Value(), true)
    {
      StepDoes(Value(), UpsertProfile(q));
      var p, bump := VersionedProfile(q);
      StoredProfileIsSane(Value(), q);
      profiles := profiles[p.modelId := p];
      BumpVersion("upsert", "model_profile", p.modelId, bump, "version=" + ItoaText(p.version));
      Persist();
      return p;
    }

    method RemoveModelProfile(id: string) returns (ok: bool)
      modifies this, persister
      ensures (Value(), ok) == Step(old(Value()), RemoveProfile(id))
      ensures if ok then Listed(Value(), persister.snap) else persister.snap == old(persister.snap)
      ensures Does(old(Value()), RemoveProfile(id), Value(), ok)
    {
      StepDoes(Value(), RemoveProfile(id));
      if id !in profiles {
        return false;
      }
      profiles := profiles - {id};
      BumpVersion("remove", "model_profile", id, false, "");
      Persist();
      return true;
    }

    method UpsertPolicy(p: Policy)
      modifies this, persister
      ensures Value() == Step(old(Value()), ConfigOp.UpsertPolicy(p)).0
      ensures Listed(Value(), persister.snap)
      ensures Does(old(Value()), ConfigOp.UpsertPolicy(p), Value(), true)
    {
      StepDoes(Value(), ConfigOp.UpsertPolicy(p));
      policies := policies[p.ruleId := p];
      BumpVersion("upsert", "policy", p.ruleId, false, "");
      Persist();
    }

    /** PatchPolicy, with the field updates its callers pass. */
    method PatchPolicy(id: string, patch: Policy) returns (ok: bool)
      modifies this, persister
      ensures (Value(), ok) == Step(old(Value()), ConfigOp.PatchPolicy(id, patch))
      ensures if ok then Listed(Value(), persister.snap) else persister.snap == old(persister.snap)
      ensures Does(old(Value()), ConfigOp.PatchPolicy(id, patch), Value(), ok)
    {
      StepDoes(Value(), ConfigOp.PatchPolicy(id, patch));
      if id !in policies {
        return false;
      }
      var dst := policies[id];
      dst := dst.(name := patch.name, priority := patch.priority, conditions := patch.conditions,
                  action := patch.action, enabled := patch.enabled);
      policies := policies[id := dst];
      BumpVersion("patch", "policy", id, false, "");
      Persist();
      return true;
    }

    method RemovePolicy(id: string) returns (ok: bool)
      modifies this, persister
      ensures (Value(), ok) == Step(old(Value()), ConfigOp.RemovePolicy(id))
      ensures if ok then Listed(Value(), persister.snap) else persister.snap == old(persister.snap)
      ensures Does(old(Value()), ConfigOp.RemovePolicy(id), Value(), ok)
    {
      StepDoes(Value(), ConfigOp.RemovePolicy(id));
      if id !in policies {
        return false;
      }
      policies := policies - {id};
      BumpVersion("remove", "policy", id, false, "");
      Persist();
      return true;
    }

    /** Load and applySnapshot */
    method Load()
      requires Value() == EMPTY_CORE
      modifies this
      ensures Value() == if persister.ok then Loaded(persister.snap) else EMPTY_CORE
    {
      if !persister.ok {
        return;
      }
      var snap := persister.snap;
      version := snap.version;
      audit := snap.audit;
      clusters := Rebuild(snap.clusters, ClusterEntry);
      engines := Rebuild(snap.engines, EngineEntry);
      profiles := Rebuild(snap.profiles, ProfileEntry);
      policies := Rebuild(snap.policies, PolicyEntry);
    }
  }

  /** Lists a map's values in its arbitrary iteration order. */
  method ListValues<T(!new)>(m: map<string, T>) returns (vs: seq<T>)
    ensures Lists(m, vs)
  {
    vs := [];
    var rest := m.Keys;
    while rest != {}
      invariant rest <= m.Keys
      invariant forall k :: k in m && k !in rest ==> m[k] in vs
      invariant forall v :: v in vs ==> exists k :: k in m && m[k] == v
      decreases |rest|
    {
      var k :| k in rest;
      rest := rest - {k};
      vs := vs + [m[k]];
    }
  }

  /** One of applySnapshot's loops. */
  method Rebuild<T>(vs: seq<T>, entry: T -> Option<(string, T)>) returns (m: map<string, T>)
    ensures m == Rebuilt(vs, entry)
  {
    m := map[];
    for i := 0 to |vs|
      invariant m == Rebuilt(vs[..i], entry)
    {
      InitPrefix(vs, i);
      match entry(vs[i]) {
        case None =>
        case Some(kv) => m := m[kv.0 := kv.1];
      }
    }
    assert vs[..|vs|] == vs;
  }

  // --------------------------------------- hash semantics over whole runs

  predicate Removes(op: ConfigOp, m: string) {
    op.RemoveProfile? && op.modelId == m
  }

  /** The mutation names a version of `m` below the stored one and changes no hash-affecting field. */
  predicate StaleUpsert(c: Core, op: ConfigOp, m: string) {
    op.UpsertProfile? && op.profile.modelId == m && m in c.profiles &&
    var stored, p := c.profiles[m], Normalize(op.profile);
    !AffectsHashNamespace(stored, p) && p.version != 0 && p.version < stored.version
  }

  /** The two ways to take back a version of `m`: remove it while it is stored, or upsert it stale. */
  predicate StepsBack(c: Core, op: ConfigOp, m: string) {
    (Removes(op, m) && m in c.profiles) || StaleUpsert(c, op, m)
  }

  predicate StepsBackAt(ops: seq<ConfigOp>, i: nat, m: string)
    requires i < |ops|
  {
    StepsBack(LongLived(ops[..i]), ops[i], m)
  }

  /** From mutation `k` on, none takes back a version of `m`. */
  ghost predicate SteadyFrom(ops: seq<ConfigOp>, m: string, k: nat) {
    forall i: nat :: k <= i < |ops| ==> !StepsBackAt(ops, i, m)
  }

  ghost predicate Steady(ops: seq<ConfigOp>, m: string) {
    SteadyFrom(ops, m, 0)
  }

  lemma {:induction false} LongLivedIsSane(ops: seq<ConfigOp>)
    ensures Sane(LongLived(ops))
    decreases |ops|
  {
    if ops != [] {
      LongLivedIsSane(Init(ops));
      StepKeepsSane(LongLived(Init(ops)), Last(ops));
    }
  }

  /** What one mutation does to the profile of `m`, whatever it is about. */
  lemma StepOnProfile(c: Core, op: ConfigOp, m: string)
    requires m in c.profiles && !StepsBack(c, op, m)
    ensures m in Step(c, op).0.profiles
    ensures var old', neu := c.profiles[m], Step(c, op).0.profiles[m];
            old'.version <= neu.version && (old'.version == neu.version ==> !AffectsHashNamespace(old', neu))
  {
    match op
    case UpsertProfile(p) => UpsertedVersion(c.profiles[m], p);
    case _ =>
  }

  lemma {:induction false} SteadySpan(ops: seq<ConfigOp>, m: string, i: nat, j: nat)
    requires i <= j <= |ops| && Steady(ops, m) && m in LongLived(ops[..i]).profiles
    ensures m in LongLived(ops[..j]).profiles
    ensures var p, q := LongLived(ops[..i]).profiles[m], LongLived(ops[..j]).profiles[m];
            p.version <= q.version && (p.version == q.version ==> !AffectsHashNamespace(p, q))
    decreases j - i
  {
    if i < j {
      SteadySpan(ops, m, i, j - 1);
      InitPrefix(ops, j - 1);
      assert !StepsBackAt(ops, j - 1, m);
      StepOnProfile(LongLived(ops[..j - 1]), ops[j - 1], m);
    }
  }

  /**
   * The namespace pins the hash semantics over whole runs of the store. Whatever other
   * mutations are interleaved, as long as no mutation removes the stored model or upserts
   * it with a stale version, any two profiles ever stored for it that have the same
   * namespace agree on every hash-affecting field.
   */
  lemma RunsPinHashSemantics(ops: seq<ConfigOp>, m: string, i: nat, j: nat)
    requires i <= |ops| && j <= |ops| && Steady(ops, m)
    requires m in LongLived(ops[..i]).profiles && m in LongLived(ops[..j]).profiles
    requires Namespace(LongLived(ops[..i]).profiles[m]) == Namespace(LongLived(ops[..j]).profiles[m])
    ensures !AffectsHashNamespace(LongLived(ops[..i]).profiles[m], LongLived(ops[..j]).profiles[m])
  {
    LongLivedIsSane(ops[..i]);
    LongLivedIsSane(ops[..j]);
    NamespaceInjective(LongLived(ops[..i]).profiles[m], LongLived(ops[..j]).profiles[m]);
    if i <= j {
      SteadySpan(ops, m, i, j);
    } else {
      SteadySpan(ops, m, j, i);
    }
  }

  /** Under one namespace the two states have the same hash-affecting fields for `m`. */
  predicate AgreeOn(c: Core, d: Core, m: string) {
    m in c.profiles && m in d.profiles && Namespace(c.profiles[m]) == Namespace(d.profiles[m]) ==>
      !AffectsHashNamespace(c.profiles[m], d.profiles[m])
  }

  /** Any two profiles ever stored for `m` under one namespace agree on the hash-affecting fields. */
  ghost predicate Pinned(ops: seq<ConfigOp>, m: string) {
    forall i, j :: 0 <= i <= |ops| && 0 <= j <= |ops| ==> AgreeOn(LongLived(ops[..i]), LongLived(ops[..j]), m)
  }

  lemma SteadyIsPinned(ops: seq<ConfigOp>, m: string)
    requires Steady(ops, m)
    ensures Pinned(ops, m)
  {
    forall i, j | 0 <= i <= |ops| && 0 <= j <= |ops| ensures AgreeOn(LongLived(ops[..i]), LongLived(ops[..j]), m) {
      var c, d := LongLived(ops[..i]), LongLived(ops[..j]);
      if m in c.profiles && m in d.profiles && Namespace(c.profiles[m]) == Namespace(d.profiles[m]) {
        RunsPinHashSemantics(ops, m, i, j);
      }
    }
  }

  lemma SteadyAppend(ops: seq<ConfigOp>, more: seq<ConfigOp>, m: string, k: nat)
    requires k <= |ops| && SteadyFrom(ops, m, k) && SteadyFrom(ops + more, m, |ops|)
    ensures SteadyFrom(ops + more, m, k)
  {
    forall i: nat | k <= i < |ops| ensures StepsBackAt(ops + more, i, m) == StepsBackAt(ops, i, m) {
      assert (ops + more)[..i] == ops[..i];
    }
  }

  lemma SteadyJoins(ops: seq<ConfigOp>, more: seq<ConfigOp>, rest: seq<ConfigOp>, m: string)
    requires SteadyFrom(ops + more, m, |ops|) && SteadyFrom(ops + more + rest, m, |ops + more|)
    ensures SteadyFrom(ops + (more + rest), m, |ops|)
  {
    SteadyAppend(ops + more, rest, m, |ops|);
    assert ops + (more + rest) == ops + more + rest;
  }

  lemma LongLivedSnoc(ops: seq<ConfigOp>, op: ConfigOp)
    ensures LongLived(ops + [op]) == Step(LongLived(ops), op).0
  {
    assert Init(ops + [op]) == ops;
  }

  lemma SteadySnoc(ops: seq<ConfigOp>, op: ConfigOp, m: string)
    requires !StepsBack(LongLived(ops), op, m)
    ensures SteadyFrom(ops + [op], m, |ops|) && LongLived(ops + [op]) == Step(LongLived(ops), op).0
  {
    LongLivedSnoc(ops, op);
    assert !StepsBackAt(ops + [op], |ops|, m) by {
      assert (ops + [op])[..|ops|] == ops;
    }
  }

  /** An upsert that only lengthens the seed. */
  function Reseeding(p: ModelProfile): ConfigOp {
    UpsertProfile(p.(version := 0, hashSeed := p.hashSeed + "'"))
  }

  /** `q` is `p` some versions on, with a seed that much longer. */
  predicate Reseeded(p: ModelProfile, q: ModelProfile) {
    q == p.(version := q.version, hashSeed := q.hashSeed) && |q.hashSeed| == |p.hashSeed| + (q.version - p.version)
  }

  lemma ReseededTwice(p: ModelProfile, q: ModelProfile, r: ModelProfile)
    requires Reseeded(p, q) && Reseeded(q, r)
    ensures Reseeded(p, r)
  {
  }

  lemma ReseedOnce(c: Core, m: string)
    requires Sane(c) && m in c.profiles
    ensures var p := c.profiles[m];
            && !StepsBack(c, Reseeding(p), m)
            && m in Step(c, Reseeding(p)).0.profiles
            && var q := Step(c, Reseeding(p)).0.profiles[m];
               Reseeded(p, q) && q.version == p.version + 1
  {
    var p := c.profiles[m];
    assert |p.hashSeed + "'"| == |p.hashSeed| + 1;
    assert Normalize(p) == p && p.modelId == m;
    assert Normalize(Reseeding(p).profile) == Reseeding(p).profile;
  }

  lemma ReseedSnoc(ops: seq<ConfigOp>, m: string)
    requires m in LongLived(ops).profiles
    ensures var p, more := LongLived(ops).profiles[m], ops + [Reseeding(LongLived(ops).profiles[m])];
            && SteadyFrom(more, m, |ops|) && m in LongLived(more).profiles
            && Reseeded(p, LongLived(more).profiles[m]) && LongLived(more).profiles[m].version == p.version + 1
  {
    LongLivedIsSane(ops);
    ReseedOnce(LongLived(ops), m);
    SteadySnoc(ops, Reseeding(LongLived(ops).profiles[m]), m);
  }

  /** From `c` to `d` the seed of `m` has become longer, up to version `v`. */
  predicate Advanced(c: Core, d: Core, m: string, v: int) {
    m in c.profiles && m in d.profiles && Reseeded(c.profiles[m], d.profiles[m]) && d.profiles[m].version == v
  }

  lemma AdvancedTwice(c: Core, d: Core, e: Core, m: string, v: int, w: int)
    requires Advanced(c, d, m, v) && Advanced(d, e, m, w)
    ensures Advanced(c, e, m, w)
  {
    ReseededTwice(c.profiles[m], d.profiles[m], e.profiles[m]);
  }

  /** Mutations `more` after `ops` are steady and lead `m` to version `v`. */
  ghost predicate LeadsTo(ops: seq<ConfigOp>, more: seq<ConfigOp>, m: string, v: int) {
    SteadyFrom(ops + more, m, |ops|) && Advanced(LongLived(ops), LongLived(ops + more), m, v)
  }

  lemma LeadsOn(ops: seq<ConfigOp>, more: seq<ConfigOp>, rest: seq<ConfigOp>, m: string, v: int, w: int)
    requires LeadsTo(ops, more, m, v) && LeadsTo(ops + more, rest, m, w)
    ensures LeadsTo(ops, more + rest, m, w)
  {
    assert SteadyFrom(ops + (more + rest), m, |ops|) by {
      SteadyJoins(ops, more, rest, m);
    }
    assert Advanced(LongLived(ops), LongLived(ops + (more + rest)), m, w) by {
      assert ops + (more + rest) == ops + more + rest;
      AdvancedTwice(LongLived(ops), LongLived(ops + more), LongLived(ops + more + rest), m, v, w);
    }
  }

  /** Re-seeding upserts, none of them stale, lead to any later version. */
  lemma {:induction false} Reseed(ops: seq<ConfigOp>, m: string, n: nat) returns (more: seq<ConfigOp>)
    requires m in LongLived(ops).profiles
    ensures LeadsTo(ops, more, m, LongLived(ops).profiles[m].version + n)
    decreases n
  {
    if n == 0 {
      more := [];
      assert ops + more == ops;
    } else {
      var p := LongLived(ops).profiles[m];
      ReseedSnoc(ops, m);
      assert LeadsTo(ops, [Reseeding(p)], m, p.version + 1);
      var rest := Reseed(ops + [Reseeding(p)], m, n - 1);
      LeadsOn(ops, [Reseeding(p)], rest, m, p.version + 1, p.version + n);
      more := [Reseeding(p)] + rest;
    }
  }

  /** Another seed under the namespace that `m` had before mutation `i`. */
  lemma NotPinned(ops: seq<ConfigOp>, m: string, i: nat)
    requires i <= |ops| && m in LongLived(ops[..i]).profiles && m in LongLived(ops).profiles
    requires Namespace(LongLived(ops[..i]).profiles[m]) == Namespace(LongLived(ops).profiles[m])
    requires |LongLived(ops[..i]).profiles[m].hashSeed| < |LongLived(ops).profiles[m].hashSeed|
    ensures !Pinned(ops, m)
  {
    assert ops[..|ops|] == ops;
    assert !AgreeOn(LongLived(ops[..i]), LongLived(ops[..|ops|]), m);
  }

  lemma AfterStaleUpsert(ops: seq<ConfigOp>, op: ConfigOp, m: string) returns (more: seq<ConfigOp>)
    requires StaleUpsert(LongLived(ops), op, m)
    ensures SteadyFrom(ops + [op] + more, m, |ops| + 1) && !Pinned(ops + [op] + more, m)
  {
    var c, p := LongLived(ops), LongLived(ops).profiles[m];
    LongLivedIsSane(ops);
    assert Init(ops + [op]) == ops;
    var q := LongLived(ops + [op]).profiles[m];
    assert q == Normalize(op.profile);
    more := Reseed(ops + [op], m, p.version - q.version);
    var all := ops + [op] + more;
    assert all[..|ops|] == ops;
    NotPinned(all, m, |ops|);
  }

  /** Adding a model that is not stored, with a version of its own. */
  lemma AddOnce(c: Core, p: ModelProfile)
    requires p.modelId !in c.profiles && Normalize(p) == p && p.version != 0
    ensures !StepsBack(c, UpsertProfile(p), p.modelId)
    ensures p.modelId in Step(c, UpsertProfile(p)).0.profiles && Step(c, UpsertProfile(p)).0.profiles[p.modelId] == p
  {
  }

  /** Added again with another seed, a removed model can get back to the version it had. */
  lemma AddedAgain(ops: seq<ConfigOp>, p: ModelProfile) returns (more: seq<ConfigOp>)
    requires p.modelId !in LongLived(ops).profiles && Normalize(p) == p
    ensures SteadyFrom(ops + more, p.modelId, |ops|) && p.modelId in LongLived(ops + more).profiles
    ensures var q := LongLived(ops + more).profiles[p.modelId];
            q == p.(hashSeed := q.hashSeed) && |q.hashSeed| > |p.hashSeed|
  {
    var q := p.(version := if p.version == 0 then -1 else p.version, hashSeed := p.hashSeed + "'");
    assert |q.hashSeed| == |p.hashSeed| + 1 && Normalize(q) == q;
    AddOnce(LongLived(ops), q);
    var once := [UpsertProfile(q)];
    SteadySnoc(ops, UpsertProfile(q), p.modelId);
    var rest := Reseed(ops + once, p.modelId, p.version - q.version);
    more := once + rest;
    assert SteadyFrom(ops + more, p.modelId, |ops|) by {
      SteadyJoins(ops, once, rest, p.modelId);
    }
    assert ops + more == ops + once + rest;
  }

  lemma AfterRemoval(ops: seq<ConfigOp>, op: ConfigOp, m: string) returns (more: seq<ConfigOp>)
    requires Removes(op, m) && m in LongLived(ops).profiles
    ensures SteadyFrom(ops + [op] + more, m, |ops| + 1) && !Pinned(ops + [op] + more, m)
  {
    LongLivedIsSane(ops);
    assert Init(ops + [op]) == ops;
    more := AddedAgain(ops + [op], LongLived(ops).profiles[m]);
    var all := ops + [op] + more;
    assert all[..|ops|] == ops;
    NotPinned(all, m, |ops|);
  }

  /** After a step back, harmless-looking mutations can put another seed under an old namespace. */
  lemma StepBackUnpins(ops: seq<ConfigOp>, m: string, i: nat) returns (more: seq<ConfigOp>)
    requires i < |ops| && StepsBackAt(ops, i, m)
    ensures SteadyFrom(ops[..i + 1] + more, m, i + 1) && !Pinned(ops[..i + 1] + more, m)
  {
    assert ops[..i + 1] == ops[..i] + [ops[i]];
    if Removes(ops[i], m) {
      more := AfterRemoval(ops[..i], ops[i], m);
    } else {
      more := AfterStaleUpsert(ops[..i], ops[i], m);
    }
  }

  /** However the run goes on after any of its moments, without further steps back `m` stays pinned. */
  ghost predicate StaysPinned(ops: seq<ConfigOp>, m: string) {
    forall k: nat, more :: k <= |ops| && SteadyFrom(ops[..k] + more, m, k) ==> Pinned(ops[..k] + more, m)
  }

  /**
   * Exactly when the namespace keeps pinning the hash semantics of a model: if and only if
   * no mutation of the run removes it while it is stored or upserts it with a stale
   * version. After the first that does, mutations that do neither can still put a profile
   * with another seed under a namespace the model has had before.
   */
  lemma StaysPinnedExactlyWhenSteady(ops: seq<ConfigOp>, m: string)
    ensures Steady(ops, m) <==> StaysPinned(ops, m)
  {
    if Steady(ops, m) {
      forall k: nat, more | k <= |ops| && SteadyFrom(ops[..k] + more, m, k) ensures Pinned(ops[..k] + more, m) {
        forall i: nat | i < k ensures !StepsBackAt(ops[..k], i, m) {
          assert ops[..k][..i] == ops[..i] && !StepsBackAt(ops, i, m);
        }
        SteadyAppend(ops[..k], more, m, 0);
        SteadyIsPinned(ops[..k] + more, m);
      }
    } else {
      var i: nat :| i < |ops| && StepsBackAt(ops, i, m);
      var more := StepBackUnpins(ops, m, i);
    }
  }

  /** The upserts of model `m` in a run. */
  function UpsertsOf(ops: seq<ConfigOp>, m: string): seq<ModelProfile> {
    if ops == [] then []
    else
      var front := UpsertsOf(Init(ops), m);
      if Last(ops).UpsertProfile? && Last(ops).profile.modelId == m then front + [Last(ops).profile] else front
  }

  /** A mutation that does not remove `m` stores for it what its upsert says, if it is one. */
  lemma ProfileAfterStep(c: Core, op: ConfigOp, m: string)
    requires !Removes(op, m)
    ensures var t := Step(c, op).0;
            if op.UpsertProfile? && op.profile.modelId == m
            then m in t.profiles && t.profiles[m] == StoredProfile(c, op.profile).0
            else (m in t.profiles <==> m in c.profiles) && (m in c.profiles ==> t.profiles[m] == c.profiles[m])
  {
  }

  lemma LastOfHistory(ups: seq<ModelProfile>)
    requires ups != []
    ensures Last(History(ups)) ==
            Upserted(if Init(ups) == [] then None else Some(Last(History(Init(ups)))), Last(ups)).0
  {
  }

  /** Between removals the stored profile is what the model's own upserts alone make of it. */
  lemma {:induction false} StoredIsHistory(ops: seq<ConfigOp>, m: string)
    requires forall op :: op in ops ==> !Removes(op, m)
    ensures m in LongLived(ops).profiles <==> UpsertsOf(ops, m) != []
    ensures m in LongLived(ops).profiles ==> LongLived(ops).profiles[m] == Last(History(UpsertsOf(ops, m)))
    decreases |ops|
  {
    if ops != [] {
      var front, op := Init(ops), Last(ops);
      assert ops == front + [op];
      StoredIsHistory(front, m);
      ProfileAfterStep(LongLived(front), op, m);
      var ups := UpsertsOf(ops, m);
      if op.UpsertProfile? && op.profile.modelId == m {
        assert Init(ups) == UpsertsOf(front, m) && Last(ups) == op.profile;
        LastOfHistory(ups);
      }
    }
  }

  // ----------------------------------------------- removal and hash semantics

  /**
   * Removing a profile forgets its version: re-adding the model with another seed
   * starts at version 1 again, under the namespace of the removed profile.
   */
  lemma RemovalReusesNamespace(c: Core, p: ModelProfile, q: ModelProfile)
    requires p.modelId !in c.profiles && Normalize(p) == p && p.version == 0
    requires q == p.(hashSeed := p.hashSeed + "'")
    ensures var c1 := Step(c, UpsertProfile(p)).0;
            var c2 := Step(Step(c1, RemoveProfile(p.modelId)).0, UpsertProfile(q)).0;
            && p.modelId in c1.profiles && p.modelId in c2.profiles
            && Namespace(c1.profiles[p.modelId]) == Namespace(c2.profiles[p.modelId])
            && c1.profiles[p.modelId].hashSeed != c2.profiles[p.modelId].hashSeed
  {
    assert |p.hashSeed + "'"| == |p.hashSeed| + 1;
  }
}
