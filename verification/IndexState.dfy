/**
 * The residency index of internal/residency/index.go as a value: the three
 * coupled maps, and what each index operation does to them, stated on whole maps
 * (the loops that compute it are the methods of ResidencyIndex.Index).
 */
module IndexState {
  import opened Basics

  /** Who holds a block: an engine's data-parallel rank, in a storage tier. */
  datatype Resident = Resident(engineId: string, dpRank: int, tier: string)

  datatype BridgeKey = BridgeKey(engineId: string, engineKey: uint64)

  datatype State = State(
    byRequestKey: map<uint64, set<Resident>>,
    bridge: map<BridgeKey, uint64>,
    byEngine: map<string, set<uint64>>)

  const EMPTY: State := State(map[], map[], map[])

  function Holders(s: State, rk: uint64): set<Resident> {
    if rk in s.byRequestKey then s.byRequestKey[rk] else {}
  }

  predicate HasEngine(holders: set<Resident>, engineId: string) {
    exists r :: r in holders && r.engineId == engineId
  }

  function EngineKeys(s: State, engineId: string): set<uint64> {
    if engineId in s.byEngine then s.byEngine[engineId] else {}
  }

  // ------------------------------------------------------------- operations

  /** Every key of `rks` gains the holder `r`; nothing else changes. */
  function StoredKeys(s: State, r: Resident, rks: seq<uint64>): State {
    s.(byRequestKey := map rk | rk in s.byRequestKey.Keys + Elems(rks) ::
                         Holders(s, rk) + (if rk in rks then {r} else {}),
       byEngine := s.byEngine[r.engineId := EngineKeys(s, r.engineId) + Elems(rks)])
  }

  /** Bridges last engine key to last request key, and so on towards the front. */
  function BridgeTail(bridge: map<BridgeKey, uint64>, engineId: string, eks: seq<uint64>, rks: seq<uint64>)
    : map<BridgeKey, uint64>
  {
    if eks == [] || rks == [] then bridge
    else BridgeTail(bridge, engineId, Init(eks), Init(rks))[BridgeKey(engineId, Last(eks)) := Last(rks)]
  }

  function Store(s: State, r: Resident, eks: seq<uint64>, rks: seq<uint64>): State {
    if rks == [] then s
    else
      StoredKeys(s, r, rks).(bridge := BridgeTail(s.bridge, r.engineId, eks, rks))
  }

  predicate Resolvable(s: State, engineId: string, eks: seq<uint64>) {
    eks != [] && forall ek :: ek in eks ==> BridgeKey(engineId, ek) in s.bridge
  }

  function Resolved(s: State, engineId: string, eks: seq<uint64>): seq<uint64>
    requires Resolvable(s, engineId, eks)
  {
    seq(|eks|, i requires 0 <= i < |eks| => s.bridge[BridgeKey(engineId, eks[i])])
  }

  function StoreByEngineKeys(s: State, r: Resident, eks: seq<uint64>): State {
    if Resolvable(s, r.engineId, eks) then StoredKeys(s, r, Resolved(s, r.engineId, eks)) else s
  }

  /**
   * One engine key of a remove. A bridge is dropped exactly when its entry exists
   * and the engine keeps no hold on it; a bridge to a key that nobody holds stays.
   */
  function RemoveOne(s: State, r: Resident, ek: uint64): State {
    var bk := BridgeKey(r.engineId, ek);
    if bk !in s.bridge then s
    else
      var rk := s.bridge[bk];
      var left := Holders(s, rk) - {r};
      var gone := !HasEngine(left, r.engineId);
      State(if left == {} then s.byRequestKey - {rk} else s.byRequestKey[rk := left],
            if gone && rk in s.byRequestKey then s.bridge - {bk} else s.bridge,
            if gone && r.engineId in s.byEngine
            then s.byEngine[r.engineId := s.byEngine[r.engineId] - {rk}] else s.byEngine)
  }

  function Remove(s: State, r: Resident, eks: seq<uint64>): State {
    if eks == [] then s else RemoveOne(Remove(s, r, Init(eks)), r, Last(eks))
  }

  /** The holders of `rk` that a clear of `engineId` (of one tier, if named) leaves. */
  function Surviving(s: State, engineId: string, tier: string, rk: uint64): set<Resident> {
    if rk in EngineKeys(s, engineId) then
      set r | r in Holders(s, rk) && (r.engineId != engineId || (tier != "" && r.tier != tier))
    else Holders(s, rk)
  }

  function Clear(s: State, engineId: string, tier: string): State {
    if engineId !in s.byEngine then s
    else
      State(map rk | rk in s.byRequestKey &&
                     (rk in s.byEngine[engineId] ==> Surviving(s, engineId, tier, rk) != {})
                   :: Surviving(s, engineId, tier, rk),
            if tier == "" then map bk | bk in s.bridge && bk.engineId != engineId :: s.bridge[bk]
            else s.bridge,
            if tier == "" then s.byEngine - {engineId} else s.byEngine)
  }

  datatype Op =
    | StoreOp(dpRank: int, tier: string, engineKeys: seq<uint64>, requestKeys: seq<uint64>)
    | CopyOp(dpRank: int, tier: string, engineKeys: seq<uint64>)
    | RemoveOp(dpRank: int, tier: string, engineKeys: seq<uint64>)
    | ClearOp(tier: string)

  function Step(s: State, engineId: string, op: Op): State {
    match op
    case StoreOp(dp, tier, eks, rks) => Store(s, Resident(engineId, dp, tier), eks, rks)
    case CopyOp(dp, tier, eks) => StoreByEngineKeys(s, Resident(engineId, dp, tier), eks)
    case RemoveOp(dp, tier, eks) => Remove(s, Resident(engineId, dp, tier), eks)
    case ClearOp(tier) => Clear(s, engineId, tier)
  }

  datatype EngineOp = EngineOp(engineId: string, op: Op)

  function RunOps(ops: seq<EngineOp>): State {
    if ops == [] then EMPTY
    else Step(RunOps(Init(ops)), Last(ops).engineId, Last(ops).op)
  }

  // --------------------------------------------------- structural invariant

  /** What holds after every run, tier-restricted clears included. */
  ghost predicate WellFormed(s: State) {
    && (forall rk :: rk in s.byRequestKey ==> s.byRequestKey[rk] != {})
    && (forall rk, r :: rk in s.byRequestKey && r in s.byRequestKey[rk] ==> rk in EngineKeys(s, r.engineId))
    && (forall bk :: bk in s.bridge ==> bk.engineId in s.byEngine)
  }

  /** Without tier-restricted clears the engine sets are also exact. */
  ghost predicate Exact(s: State) {
    forall e, rk :: e in s.byEngine && rk in s.byEngine[e] ==> HasEngine(Holders(s, rk), e)
  }

  lemma {:induction false} BridgeTailKeys(bridge: map<BridgeKey, uint64>, e: string, eks: seq<uint64>, rks: seq<uint64>, bk: BridgeKey)
    ensures bk in bridge ==> bk in BridgeTail(bridge, e, eks, rks)
    ensures bk in BridgeTail(bridge, e, eks, rks) ==> bk in bridge || (bk.engineId == e && bk.engineKey in eks)
    ensures bk.engineId != e && bk in bridge ==> BridgeTail(bridge, e, eks, rks)[bk] == bridge[bk]
    decreases |eks|
  {
    if eks != [] && rks != [] {
      BridgeTailKeys(bridge, e, Init(eks), Init(rks), bk);
      assert forall x :: x in Init(eks) || x == Last(eks) ==> x in eks;
    }
  }

  lemma StoredKeysKeepsWellFormed(s: State, r: Resident, rks: seq<uint64>)
    requires WellFormed(s)
    ensures WellFormed(StoredKeys(s, r, rks))
    ensures Exact(s) ==> Exact(StoredKeys(s, r, rks))
  {
    var t := StoredKeys(s, r, rks);
    if Exact(s) {
      forall e, rk | e in t.byEngine && rk in t.byEngine[e]
        ensures HasEngine(Holders(t, rk), e)
      {
        if e == r.engineId && rk in rks {
          assert r in Holders(t, rk);
        } else {
          assert e in s.byEngine && rk in s.byEngine[e] && HasEngine(Holders(s, rk), e);
          var h :| h in Holders(s, rk) && h.engineId == e;
          assert h in Holders(t, rk);
        }
      }
    }
  }

  lemma RemoveOneKeepsWellFormed(s: State, r: Resident, ek: uint64)
    requires WellFormed(s)
    ensures WellFormed(RemoveOne(s, r, ek))
    ensures Exact(s) ==> Exact(RemoveOne(s, r, ek))
  {
    var bk, t := BridgeKey(r.engineId, ek), RemoveOne(s, r, ek);
    if bk in s.bridge {
      var rk := s.bridge[bk];
      forall k, h | k in t.byRequestKey && h in t.byRequestKey[k]
        ensures k in EngineKeys(t, h.engineId)
      {
        assert h in Holders(s, k);
      }
      if Exact(s) {
        forall e, k | e in t.byEngine && k in t.byEngine[e]
          ensures HasEngine(Holders(t, k), e)
        {
          assert e in s.byEngine && k in s.byEngine[e] && HasEngine(Holders(s, k), e);
          var h :| h in Holders(s, k) && h.engineId == e;
          if k == rk && e != r.engineId {
            assert h in Holders(t, k);
          }
        }
      }
    }
  }

  lemma {:induction false} RemoveKeepsWellFormed(s: State, r: Resident, eks: seq<uint64>)
    requires WellFormed(s)
    ensures WellFormed(Remove(s, r, eks))
    ensures Exact(s) ==> Exact(Remove(s, r, eks))
    decreases |eks|
  {
    if eks != [] {
      RemoveKeepsWellFormed(s, r, Init(eks));
      RemoveOneKeepsWellFormed(Remove(s, r, Init(eks)), r, Last(eks));
    }
  }

  lemma HoldersAfterClear(s: State, e: string, tier: string, rk: uint64)
    requires WellFormed(s)
    ensures Holders(Clear(s, e, tier), rk) == Surviving(s, e, tier, rk)
  {
    if e in s.byEngine && rk in s.byRequestKey && rk !in s.byEngine[e] {
      assert s.byRequestKey[rk] != {};
    }
  }

  lemma ClearKeepsWellFormed(s: State, e: string, tier: string)
    requires WellFormed(s)
    ensures WellFormed(Clear(s, e, tier))
    ensures Exact(s) && tier == "" ==> Exact(Clear(s, e, tier))
  {
    var t := Clear(s, e, tier);
    forall k, h | k in t.byRequestKey && h in t.byRequestKey[k]
      ensures k in EngineKeys(t, h.engineId)
    {
      assert h in Holders(s, k);
    }
    if Exact(s) && tier == "" && e in s.byEngine {
      forall f, k | f in t.byEngine && k in t.byEngine[f]
        ensures HasEngine(Holders(t, k), f)
      {
        assert f in s.byEngine && k in s.byEngine[f] && HasEngine(Holders(s, k), f);
        var h :| h in Holders(s, k) && h.engineId == f;
        assert h in Surviving(s, e, tier, k);
      }
    }
  }

  lemma StepKeepsWellFormed(s: State, e: string, op: Op)
    requires WellFormed(s)
    ensures WellFormed(Step(s, e, op))
    ensures Exact(s) && (op.ClearOp? ==> op.tier == "") ==> Exact(Step(s, e, op))
  {
    match op
    case StoreOp(dp, tier, eks, rks) =>
      var r := Resident(e, dp, tier);
      StoredKeysKeepsWellFormed(s, r, rks);
      forall rk ensures rks != [] ==> Holders(Step(s, e, op), rk) == Holders(StoredKeys(s, r, rks), rk) {
      }
      forall bk | bk in Step(s, e, op).bridge ensures bk.engineId in Step(s, e, op).byEngine {
        BridgeTailKeys(s.bridge, e, eks, rks, bk);
      }
    case CopyOp(dp, tier, eks) =>
      if Resolvable(s, e, eks) {
        StoredKeysKeepsWellFormed(s, Resident(e, dp, tier), Resolved(s, e, eks));
      }
    case RemoveOp(dp, tier, eks) =>
      RemoveKeepsWellFormed(s, Resident(e, dp, tier), eks);
    case ClearOp(tier) =>
      ClearKeepsWellFormed(s, e, tier);
  }

  /** The structural invariant, over every run of the four operations. */
  lemma {:induction false} RunsAreWellFormed(ops: seq<EngineOp>)
    ensures WellFormed(RunOps(ops))
    ensures (forall o :: o in ops && o.op.ClearOp? ==> o.op.tier == "") ==> Exact(RunOps(ops))
    decreases |ops|
  {
    if ops != [] {
      RunsAreWellFormed(Init(ops));
      StepKeepsWellFormed(RunOps(Init(ops)), Last(ops).engineId, Last(ops).op);
    }
  }

  /**
   * After any run, a clear takes exactly the engine's holds in the named tier, or all of them
   * when none is named; only then do its bridges and its key set go too.
   */
  lemma ClearTakesExactly(ops: seq<EngineOp>, e: string, tier: string, r: Resident, rk: uint64)
    ensures var s, t := RunOps(ops), Clear(RunOps(ops), e, tier);
            && (r in Holders(t, rk) <==> r in Holders(s, rk) && !(r.engineId == e && (tier == "" || r.tier == tier)))
            && (tier != "" ==> t.bridge == s.bridge && t.byEngine == s.byEngine)
  {
    var s := RunOps(ops);
    RunsAreWellFormed(ops);
    HoldersAfterClear(s, e, tier, rk);
    assert r in Holders(s, rk) ==> rk in EngineKeys(s, r.engineId);
  }

  /** `t` is `s` with every trace of engine `e` gone and every other engine intact. */
  ghost predicate Without(s: State, t: State, e: string) {
    && e !in t.byEngine
    && (forall f :: f in t.byEngine <==> f in s.byEngine && f != e)
    && (forall f :: f in t.byEngine ==> t.byEngine[f] == s.byEngine[f])
    && (forall bk :: bk in t.bridge <==> bk in s.bridge && bk.engineId != e)
    && (forall bk :: bk in t.bridge ==> t.bridge[bk] == s.bridge[bk])
    && (forall rk :: rk in t.byRequestKey ==> rk in s.byRequestKey && t.byRequestKey[rk] != {})
    && (forall rk, r :: rk in s.byRequestKey && r in s.byRequestKey[rk] ==>
          ((rk in t.byRequestKey && r in t.byRequestKey[rk]) <==> r.engineId != e))
    && (forall rk, r :: rk in t.byRequestKey && r in t.byRequestKey[rk] ==> r in s.byRequestKey[rk])
  }

  lemma ClearRemovesEngine(s: State, e: string)
    requires WellFormed(s)
    ensures Without(s, Clear(s, e, ""), e)
  {
    var t := Clear(s, e, "");
    forall rk, r | rk in s.byRequestKey && r in s.byRequestKey[rk]
      ensures (rk in t.byRequestKey && r in t.byRequestKey[rk]) <==> r.engineId != e
    {
      HoldersAfterClear(s, e, "", rk);
      assert rk in EngineKeys(s, r.engineId);
      assert r in Surviving(s, e, "", rk) <==> r.engineId != e;
    }
    forall rk | rk in t.byRequestKey
      ensures rk in s.byRequestKey && t.byRequestKey[rk] != {} && t.byRequestKey[rk] <= s.byRequestKey[rk]
    {
      HoldersAfterClear(s, e, "", rk);
    }
  }

  /**
   * After any run, clearing a whole engine leaves no trace of it in any of the
   * three maps, although the code only walks that engine's key set and returns
   * early when it has none. Every other engine keeps all it had.
   */
  lemma ClearLeavesNoTrace(ops: seq<EngineOp>, e: string)
    ensures Without(RunOps(ops), Clear(RunOps(ops), e, ""), e)
  {
    RunsAreWellFormed(ops);
    ClearRemovesEngine(RunOps(ops), e);
  }
}
