/**
 * Virtual configurations of the gateway (internal/gateway/store.go). Every request
 * rehydrates a config store from the saved snapshot, applies one mutation and saves
 * again; over whole runs this has to look like one long-lived store.
 */
module VirtualConfigs {
  import opened Basics
  import opened RuleOrder
  import opened ModelProfiles
  import opened ConfigStore

  datatype Connection = Connection(id: string, kind: string, cluster: string, displayName: string, region: string,
                                   environment: string, labels: map<string, string>, url: string, token: string,
                                   enabled: bool)

  datatype VirtualConfig = VirtualConfig(backendId: string, snapshot: Snapshot)

  datatype Outcome<+T> = NotFound | Done(value: T)

  /** Some fields only; ok is true when the snapshot holds anything at all. */
  predicate SnapshotHasData(s: Snapshot) {
    s.version != 0 || |s.clusters| != 0 || |s.engines| != 0 || |s.profiles| != 0 || |s.policies| != 0 || |s.audit| != 0
  }

  lemma NoDataLoadsEmpty(s: Snapshot)
    ensures !SnapshotHasData(s) ==> Loaded(s) == EMPTY_CORE
  {
  }

  method VirtualStoreFromSnapshot(snap: Snapshot) returns (st: Store, p: SnapshotPersister)
    ensures fresh(st) && fresh(p) && st.persister == p
    ensures st.Value() == Loaded(snap) && p.snap == snap
  {
    p := new SnapshotPersister(snap, SnapshotHasData(snap));
    st := new Store(p);
    st.Load();
    NoDataLoadsEmpty(snap);
  }

  function NormalizeConnection(c: Connection): Connection {
    var d := if c.kind == "" then c.(kind := "backend") else c;
    if d.kind == "virtual" then d.(url := "", token := "") else d
  }

  /** validateConnection; whether the URL is an absolute http(s) URL is an input. */
  predicate ValidConnection(c: Connection, urlOk: bool) {
    c.id != "" && c.cluster != "" && (c.kind == "virtual" || (c.kind == "backend" && c.url != "" && urlOk))
  }

  function ClusterOf(c: Connection): Cluster {
    Cluster(c.cluster, if c.displayName == "" then c.cluster else c.displayName, c.region, c.environment,
            c.enabled, false, c.labels)
  }

  /** A virtual connection keeps no address or token, another one is a backend; the rest stays. */
  lemma NormalizedMeans(c: Connection)
    ensures var d := NormalizeConnection(c);
            && d.kind == (if c.kind == "" then "backend" else c.kind)
            && (c.kind == "virtual" ==> d.url == "" && d.token == "")
            && (c.kind != "virtual" ==> d.url == c.url && d.token == c.token)
            && d.(kind := c.kind, url := c.url, token := c.token) == c
  {
  }

  /** Its cluster carries its own name, or the cluster's when it has none, and is never in maintenance. */
  lemma ClusterMeans(c: Connection)
    ensures var x := ClusterOf(c);
            && x.clusterId == c.cluster && x.displayName == (if c.displayName != "" then c.displayName else c.cluster)
            && x.region == c.region && x.environment == c.environment && x.labels == c.labels
            && x.enabled == c.enabled && !x.maintenanceMode
    ensures c.kind == "virtual" ==> ClusterOf(NormalizeConnection(c)) == ClusterOf(c)
  {
  }

  /** A request on a saved snapshot: load, apply `op`, save if it succeeded. */
  ghost predicate Request(snap: Snapshot, op: ConfigOp, snap': Snapshot) {
    var (c, ok) := Step(Loaded(snap), op);
    if ok then Listed(c, snap') else snap' == snap
  }

  predicate NamesEmptyRule(op: ConfigOp) {
    op.UpsertPolicy? && op.policy.ruleId == ""
  }

  lemma NextLoad(snap: Snapshot, op: ConfigOp, snap': Snapshot)
    requires Sane(Loaded(snap)) && Request(snap, op, snap') && "" !in Loaded(snap).policies
    ensures var c := Step(Loaded(snap), op).0; Loaded(snap') == c.(policies := c.policies - {""})
  {
    var (c, ok) := Step(Loaded(snap), op);
    if ok {
      StepKeepsSane(Loaded(snap), op);
      SnapshotRoundTrip(c, snap');
    } else {
      assert c.policies - {""} == c.policies;
    }
  }

  /**
   * What a request does, on the states that the snapshots before and after it stand for: the
   * mutation itself, except that a policy with an empty id is logged but not kept.
   */
  lemma RequestDoes(snap: Snapshot, op: ConfigOp, snap': Snapshot)
    requires Request(snap, op, snap')
    ensures !NamesEmptyRule(op) ==> Does(Loaded(snap), op, Loaded(snap'), Step(Loaded(snap), op).1)
    ensures NamesEmptyRule(op) ==>
              Loaded(snap') == Loaded(snap).(version := Loaded(snap').version, audit := Loaded(snap').audit)
  {
    var v := Loaded(snap);
    var c := Step(v, op).0;
    LoadedIsSane(snap);
    NextLoad(snap, op, snap');
    StepDoes(v, op);
    if NamesEmptyRule(op) {
      assert c.policies - {""} == v.policies;
    } else {
      assert "" !in c.policies;
      assert c.policies - {""} == c.policies;
    }
  }

  /** upsertVirtualCluster: the connection's cluster is put into its configuration. */
  method UpsertVirtualCluster(vc: VirtualConfig, c: Connection) returns (next: VirtualConfig)
    ensures next.backendId == c.id
    ensures Request(vc.snapshot, UpsertCluster(ClusterOf(c)), next.snapshot)
    ensures Does(Loaded(vc.snapshot), UpsertCluster(ClusterOf(c)), Loaded(next.snapshot), true)
  {
    var st, p := VirtualStoreFromSnapshot(vc.snapshot);
    st.UpsertCluster(ClusterOf(c));
    RequestDoes(vc.snapshot, UpsertCluster(ClusterOf(c)), p.snap);
    next := VirtualConfig(c.id, p.snap);
  }

  class MemoryStore {
    var conns: map<string, Connection>
    var virtualById: map<string, VirtualConfig>

    constructor ()
      ensures conns == map[] && virtualById == map[]
    {
      conns, virtualById := map[], map[];
    }

    ghost function SnapshotOf(id: string): Snapshot
      reads this
    {
      if id in virtualById then virtualById[id].snapshot else EMPTY_SNAPSHOT
    }

    /** Only `id`'s virtual config may differ from `was`. */
    ghost predicate OthersKept(was: map<string, VirtualConfig>, id: string)
      reads this
    {
      forall k :: k != id ==> (k in virtualById <==> k in was) && (k in was ==> virtualById[k] == was[k])
    }

    method Upsert(conn: Connection, urlOk: bool) returns (ok: bool)
      modifies this
      ensures ok <==> ValidConnection(NormalizeConnection(conn), urlOk)
      ensures ok <==> conn.id != "" && conn.cluster != "" &&
                      (conn.kind == "virtual" || (conn.kind in ["", "backend"] && conn.url != "" && urlOk))
      ensures !ok ==> conns == old(conns) && virtualById == old(virtualById)
      ensures ok ==> conns == old(conns)[conn.id := NormalizeConnection(conn)]
      ensures ok && NormalizeConnection(conn).kind != "virtual" ==> virtualById == old(virtualById)
      ensures ok && NormalizeConnection(conn).kind == "virtual" ==>
                conn.id in virtualById && OthersKept(old(virtualById), conn.id) &&
                Request(old(SnapshotOf(conn.id)), UpsertCluster(ClusterOf(NormalizeConnection(conn))), SnapshotOf(conn.id))
      ensures ok && conn.kind == "virtual" ==>
                Does(Loaded(old(SnapshotOf(conn.id))), UpsertCluster(ClusterOf(conn)), Loaded(SnapshotOf(conn.id)), true)
    {
      var c := NormalizeConnection(conn);
      ClusterMeans(conn);
      if !ValidConnection(c, urlOk) {
        return false;
      }
      conns := conns[c.id := c];
      if c.kind == "virtual" {
        var vc := if c.id in virtualById then virtualById[c.id] else VirtualConfig("", EMPTY_SNAPSHOT);
        var next := UpsertVirtualCluster(vc, c);
        virtualById := virtualById[c.id := next];
      }
      return true;
    }

    method Delete(id: string)
      modifies this
      ensures conns == old(conns) - {id} && virtualById == old(virtualById) - {id}
    {
      conns := conns - {id};
      virtualById := virtualById - {id};
    }

    method UpsertVirtualModelProfile(id: string, profile: ModelProfile) returns (r: Outcome<ModelProfile>)
      modifies this`virtualById
      ensures r.NotFound? <==> id !in old(virtualById)
      ensures r.NotFound? ==> virtualById == old(virtualById)
      ensures r.Done? ==> id in virtualById && OthersKept(old(virtualById), id) &&
                          Request(old(SnapshotOf(id)), UpsertProfile(profile), SnapshotOf(id)) &&
                          r.value == StoredProfile(Loaded(old(SnapshotOf(id))), profile).0
      ensures r.Done? ==> Does(Loaded(old(SnapshotOf(id))), UpsertProfile(profile), Loaded(SnapshotOf(id)), true)
    {
      if id !in virtualById {
        return NotFound;
      }
      var vc := virtualById[id];
      var st, p := VirtualStoreFromSnapshot(vc.snapshot);
      var stored := st.UpsertModelProfile(profile);
      virtualById := virtualById[id := vc.(snapshot := p.snap)];
      RequestDoes(vc.snapshot, UpsertProfile(profile), p.snap);
      return Done(stored);
    }

    method RemoveVirtualModelProfile(id: string, modelId: string) returns (r: Outcome<bool>)
      modifies this`virtualById
      ensures r.NotFound? <==> id !in old(virtualById)
      ensures r.NotFound? ==> virtualById == old(virtualById)
      ensures r.Done? ==> id in virtualById && OthersKept(old(virtualById), id) &&
                          Request(old(SnapshotOf(id)), RemoveProfile(modelId), SnapshotOf(id)) &&
                          r.value == Step(Loaded(old(SnapshotOf(id))), RemoveProfile(modelId)).1
      ensures r.Done? ==> Does(Loaded(old(SnapshotOf(id))), RemoveProfile(modelId), Loaded(SnapshotOf(id)), r.value)
    {
      if id !in virtualById {
        return NotFound;
      }
      var vc := virtualById[id];
      var st, p := VirtualStoreFromSnapshot(vc.snapshot);
      var ok := st.RemoveModelProfile(modelId);
      if ok {
        virtualById := virtualById[id := vc.(snapshot := p.snap)];
      }
      RequestDoes(vc.snapshot, RemoveProfile(modelId), if ok then p.snap else vc.snapshot);
      return Done(ok);
    }

    method UpsertVirtualPolicy(id: string, policy: Policy) returns (r: Outcome<Policy>)
      modifies this`virtualById
      ensures r.NotFound? <==> id !in old(virtualById)
      ensures r.NotFound? ==> virtualById == old(virtualById)
      ensures r.Done? ==> id in virtualById && OthersKept(old(virtualById), id) && r.value == policy &&
                          Request(old(SnapshotOf(id)), ConfigOp.UpsertPolicy(policy), SnapshotOf(id))
      ensures r.Done? && policy.ruleId != "" ==>
                Does(Loaded(old(SnapshotOf(id))), ConfigOp.UpsertPolicy(policy), Loaded(SnapshotOf(id)), true)
    {
      if id !in virtualById {
        return NotFound;
      }
      var vc := virtualById[id];
      var st, p := VirtualStoreFromSnapshot(vc.snapshot);
      st.UpsertPolicy(policy);
      virtualById := virtualById[id := vc.(snapshot := p.snap)];
      RequestDoes(vc.snapshot, ConfigOp.UpsertPolicy(policy), p.snap);
      return Done(policy);
    }

    method PatchVirtualPolicy(id: string, ruleId: string, patch: Policy) returns (r: Outcome<bool>)
      modifies this`virtualById
      ensures r.NotFound? <==> id !in old(virtualById)
      ensures r.NotFound? ==> virtualById == old(virtualById)
      ensures r.Done? ==> id in virtualById && OthersKept(old(virtualById), id) &&
                          Request(old(SnapshotOf(id)), ConfigOp.PatchPolicy(ruleId, patch), SnapshotOf(id)) &&
                          r.value == Step(Loaded(old(SnapshotOf(id))), ConfigOp.PatchPolicy(ruleId, patch)).1
      ensures r.Done? ==>
                Does(Loaded(old(SnapshotOf(id))), ConfigOp.PatchPolicy(ruleId, patch), Loaded(SnapshotOf(id)), r.value)
    {
      if id !in virtualById {
        return NotFound;
      }
      var vc := virtualById[id];
      var st, p := VirtualStoreFromSnapshot(vc.snapshot);
      var ok := st.PatchPolicy(ruleId, patch);
      if ok {
        virtualById := virtualById[id := vc.(snapshot := p.snap)];
      }
      RequestDoes(vc.snapshot, ConfigOp.PatchPolicy(ruleId, patch), if ok then p.snap else vc.snapshot);
      return Done(ok);
    }

    method RemoveVirtualPolicy(id: string, ruleId: string) returns (r: Outcome<bool>)
      modifies this`virtualById
      ensures r.NotFound? <==> id !in old(virtualById)
      ensures r.NotFound? ==> virtualById == old(virtualById)
      ensures r.Done? ==> id in virtualById && OthersKept(old(virtualById), id) &&
                          Request(old(SnapshotOf(id)), ConfigOp.RemovePolicy(ruleId), SnapshotOf(id)) &&
                          r.value == Step(Loaded(old(SnapshotOf(id))), ConfigOp.RemovePolicy(ruleId)).1
      ensures r.Done? ==>
                Does(Loaded(old(SnapshotOf(id))), ConfigOp.RemovePolicy(ruleId), Loaded(SnapshotOf(id)), r.value)
    {
      if id !in virtualById {
        return NotFound;
      }
      var vc := virtualById[id];
      var st, p := VirtualStoreFromSnapshot(vc.snapshot);
      var ok := st.RemovePolicy(ruleId);
      if ok {
        virtualById := virtualById[id := vc.(snapshot := p.snap)];
      }
      RequestDoes(vc.snapshot, ConfigOp.RemovePolicy(ruleId), if ok then p.snap else vc.snapshot);
      return Done(ok);
    }
  }

  // ------------------------------------------------------------- whole runs

  /**
   * The audit trail of a long-lived store numbers the successful mutations 1, 2, 3, ...
   * and the version is the number of the last one.
   */
  lemma {:induction false} AuditNumbersMutations(ops: seq<ConfigOp>)
    ensures Numbered(LongLived(ops))
    decreases |ops|
  {
    if ops != [] {
      AuditNumbersMutations(Init(ops));
      StepIsNumbered(LongLived(Init(ops)), Last(ops));
    }
  }

  ghost predicate Numbered(c: Core) {
    c.version == |c.audit| && forall i :: 0 <= i < |c.audit| ==> c.audit[i].version == i + 1
  }

  /** A mutation either changes nothing or adds one audit entry with the next version. */
  lemma StepIsNumbered(c: Core, op: ConfigOp)
    requires Numbered(c)
    ensures Numbered(Step(c, op).0)
    ensures !Step(c, op).1 ==> Step(c, op).0 == c
    ensures Step(c, op).1 ==> Step(c, op).0.version == c.version + 1
  {
    var (d, ok) := Step(c, op);
    assert ok ==> d.version == c.version + 1 && |d.audit| == |c.audit| + 1 &&
                  d.audit[..|c.audit|] == c.audit && d.audit[|c.audit|].version == c.version + 1;
    assert forall i :: 0 <= i < |c.audit| && ok ==> d.audit[i] == d.audit[..|c.audit|][i];
  }

  /** The snapshots a virtual config goes through, one request per mutation. */
  ghost predicate VirtualRun(ops: seq<ConfigOp>, snaps: seq<Snapshot>) {
    && |snaps| == |ops| + 1 && snaps[0] == EMPTY_SNAPSHOT
    && forall i :: 0 <= i < |ops| ==> Request(snaps[i], ops[i], snaps[i + 1])
  }

  /** What the rehydrated store (v) and the long-lived one (l) always share. */
  ghost predicate Alike(v: Core, l: Core) {
    Sane(v) && Sane(l) && SameEntities(v, l)
  }

  /** The same entities, but for a policy with an empty id. */
  ghost predicate SameEntities(v: Core, l: Core) {
    && v.clusters == l.clusters && v.engines == l.engines && v.profiles == l.profiles
    && v.policies == l.policies - {""}
    && v.version <= l.version
  }

  /** How an empty rule id, once stored, stays visible. */
  ghost predicate SetApart(v: Core, l: Core) {
    "" in l.policies || v.version < l.version
  }

  lemma PutKeepsRest(v: map<string, Policy>, l: map<string, Policy>, id: string, p: Policy)
    requires v == l - {""}
    ensures v[id := p] - {""} == l[id := p] - {""}
  {
  }

  lemma DropKeepsRest(v: map<string, Policy>, l: map<string, Policy>, id: string)
    requires v == l - {""}
    ensures v - {id} - {""} == l - {id} - {""}
    ensures v - {""} == v
    ensures id !in v ==> l - {id} - {""} == v
  {
  }

  lemma RequestKeepsEntities(v: Core, l: Core, op: ConfigOp)
    requires SameEntities(v, l)
    ensures var v' := Step(v, op).0;
            SameEntities(v'.(policies := v'.policies - {""}), Step(l, op).0)
  {
    match op
    case UpsertPolicy(p) =>
      PutKeepsRest(v.policies, l.policies, p.ruleId, p);
    case PatchPolicy(id, patch) =>
      if id in v.policies {
        PutKeepsRest(v.policies, l.policies, id, Patched(v.policies[id], patch));
      } else {
        DropKeepsRest(v.policies, l.policies, id);
      }
    case RemovePolicy(id) =>
      DropKeepsRest(v.policies, l.policies, id);
    case _ =>
      DropKeepsRest(v.policies, l.policies, "");
  }

  lemma RequestKeepsAlike(v: Core, l: Core, op: ConfigOp)
    requires Alike(v, l)
    ensures var v' := Step(v, op).0;
            Alike(v'.(policies := v'.policies - {""}), Step(l, op).0)
  {
    RequestKeepsEntities(v, l, op);
    StepKeepsSane(v, op);
    StepKeepsSane(l, op);
  }

  /** An empty rule id is never forgotten by the comparison, and nothing else shows up in it. */
  lemma RequestKeepsApart(v: Core, l: Core, op: ConfigOp)
    requires Alike(v, l)
    ensures SetApart(v, l) || NamesEmptyRule(op) ==> SetApart(Step(v, op).0, Step(l, op).0)
    ensures v == l && !NamesEmptyRule(op) ==> "" !in Step(v, op).0.policies
  {
  }

  lemma OneMoreRequest(snap: Snapshot, l: Core, op: ConfigOp, snap': Snapshot)
    requires var v := Loaded(snap); Alike(v, l) && "" !in v.policies
    requires Request(snap, op, snap')
    ensures Alike(Loaded(snap'), Step(l, op).0)
    ensures SetApart(Loaded(snap), l) || NamesEmptyRule(op) ==> SetApart(Loaded(snap'), Step(l, op).0)
    ensures Loaded(snap) == l && !NamesEmptyRule(op) ==> Loaded(snap') == Step(l, op).0
  {
    var v := Loaded(snap);
    NextLoad(snap, op, snap');
    RequestKeepsAlike(v, l, op);
    RequestKeepsApart(v, l, op);
    if v == l && !NamesEmptyRule(op) {
      var c := Step(v, op).0;
      assert c.policies - {""} == c.policies;
    }
  }

  lemma {:induction false} RunsAreAlike(ops: seq<ConfigOp>, snaps: seq<Snapshot>)
    requires VirtualRun(ops, snaps)
    ensures Alike(Loaded(Last(snaps)), LongLived(ops))
    ensures (exists op :: op in ops && NamesEmptyRule(op)) ==> SetApart(Loaded(Last(snaps)), LongLived(ops))
    ensures (forall op :: op in ops ==> !NamesEmptyRule(op)) ==> Loaded(Last(snaps)) == LongLived(ops)
    decreases |ops|
  {
    if ops != [] {
      var n := |ops| - 1;
      assert ops == Init(ops) + [Last(ops)];
      assert Last(Init(snaps)) == snaps[n];
      RunsAreAlike(Init(ops), Init(snaps));
      var l := LongLived(Init(ops));
      assert Request(snaps[n], ops[n], snaps[n + 1]);
      OneMoreRequest(snaps[n], l, ops[n], snaps[n + 1]);
      assert forall op :: op in Init(ops) || op == Last(ops) <==> op in ops;
    }
  }

  /**
   * Virtual configurations refine one long-lived store, exactly when no mutation stores
   * a policy with an empty rule id: after any run of requests, loading the snapshot
   * gives the same entities, version and audit as the long-lived store if and only if
   * none did. (Such a policy is dropped by the next load, while the long-lived store
   * keeps it; even removing it later leaves the versions apart.)
   */
  lemma VirtualRefinesLongLived(ops: seq<ConfigOp>, snaps: seq<Snapshot>)
    requires VirtualRun(ops, snaps)
    ensures Loaded(Last(snaps)) == LongLived(ops) <==> forall op :: op in ops ==> !NamesEmptyRule(op)
  {
    RunsAreAlike(ops, snaps);
  }

  /** And then every request reports success just as the long-lived store does. */
  lemma RequestsAnswerAlike(ops: seq<ConfigOp>, snaps: seq<Snapshot>, op: ConfigOp)
    requires VirtualRun(ops, snaps) && forall o :: o in ops ==> !NamesEmptyRule(o)
    ensures Step(Loaded(Last(snaps)), op) == Step(LongLived(ops), op)
  {
    RunsAreAlike(ops, snaps);
  }
}
