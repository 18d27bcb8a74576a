/**
 * The Index object of internal/residency/index.go: its three maps as fields, and
 * its methods with the loops of the source, proved against IndexState and Hits.
 * Map iteration order is left open: every loop over a map picks any element.
 */
module ResidencyIndex {
  import opened Basics
  import opened IndexState
  import opened Hits

  class Index {
    var byRequestKey: map<uint64, set<Resident>>
    var bridge: map<BridgeKey, uint64>
    var byEngine: map<string, set<uint64>>

    function Value(): State
      reads this
    {
      State(byRequestKey, bridge, byEngine)
    }

    constructor ()
      ensures Value() == EMPTY
    {
      byRequestKey, bridge, byEngine := map[], map[], map[];
    }

    /** storeRequestKeysLocked */
    method StoreRequestKeys(r: Resident, requestKeys: seq<uint64>)
      modifies this
      ensures Value() == StoredKeys(old(Value()), r, requestKeys)
    {
      ghost var s := Value();
      if r.engineId !in byEngine {
        byEngine := byEngine[r.engineId := {}];
      }
      StoredNone(s, r);
      assert requestKeys[..0] == [];
      for i := 0 to |requestKeys|
        invariant Value() == StoredKeys(s, r, requestKeys[..i])
      {
        StoredSnoc(s, r, requestKeys, i);
        var rk := requestKeys[i];
        var holders := if rk in byRequestKey then byRequestKey[rk] else {};
        byRequestKey := byRequestKey[rk := holders + {r}];
        byEngine := byEngine[r.engineId := byEngine[r.engineId] + {rk}];
      }
      assert requestKeys[..|requestKeys|] == requestKeys;
    }

    method StoreEvent(engineId: string, dpRank: int, tier: string, engineKeys: seq<uint64>, requestKeys: seq<uint64>)
      modifies this
      ensures Value() == Step(old(Value()), engineId, StoreOp(dpRank, tier, engineKeys, requestKeys))
    {
      if |requestKeys| == 0 {
        return;
      }
      StoreRequestKeys(Resident(engineId, dpRank, tier), requestKeys);
      BridgeFromTail(engineId, engineKeys, requestKeys);
    }

    /** The closing loop of StoreEvent: the last engine key with the last request key, and so on. */
    method BridgeFromTail(engineId: string, engineKeys: seq<uint64>, requestKeys: seq<uint64>)
      modifies this`bridge
      ensures bridge == BridgeTail(old(bridge), engineId, engineKeys, requestKeys)
    {
      var nEng, nReq := |engineKeys|, |requestKeys|;
      var k := if nReq < nEng then nReq else nEng;
      ghost var a, b := nEng - k, nReq - k;
      assert engineKeys[..a] == [] || requestKeys[..b] == [];
      for i := 0 to k
        invariant bridge == BridgeTail(old(bridge), engineId, engineKeys[..a + i], requestKeys[..b + i])
      {
        BridgeTailSnoc(old(bridge), engineId, engineKeys, requestKeys, a + i, b + i);
        bridge := bridge[BridgeKey(engineId, engineKeys[nEng - k + i]) := requestKeys[nReq - k + i]];
      }
      assert engineKeys[..nEng] == engineKeys && requestKeys[..nReq] == requestKeys;
    }

    method StoreEventByEngineKeys(engineId: string, dpRank: int, tier: string, engineKeys: seq<uint64>)
      returns (requestKeys: seq<uint64>, ok: bool)
      modifies this
      ensures Value() == Step(old(Value()), engineId, CopyOp(dpRank, tier, engineKeys))
      ensures ok <==> Resolvable(old(Value()), engineId, engineKeys)
      ensures requestKeys == if ok then Resolved(old(Value()), engineId, engineKeys) else []
    {
      if |engineKeys| == 0 {
        return [], false;
      }
      requestKeys := [];
      for i := 0 to |engineKeys|
        invariant Value() == old(Value())
        invariant |requestKeys| == i
        invariant forall j :: 0 <= j < i ==>
                    BridgeKey(engineId, engineKeys[j]) in bridge &&
                    requestKeys[j] == bridge[BridgeKey(engineId, engineKeys[j])]
      {
        var bk := BridgeKey(engineId, engineKeys[i]);
        if bk !in bridge {
          assert engineKeys[i] in engineKeys;
          return [], false;
        }
        requestKeys := requestKeys + [bridge[bk]];
      }
      ok := true;
      StoreRequestKeys(Resident(engineId, dpRank, tier), requestKeys);
      assert requestKeys == Resolved(old(Value()), engineId, engineKeys);
    }

    /** hasEngine, over an entry's holders */
    method AnyOf(holders: set<Resident>, engineId: string) returns (found: bool)
      ensures found <==> HasEngine(holders, engineId)
    {
      var rest := holders;
      while rest != {}
        invariant rest <= holders
        invariant forall r :: r in holders - rest ==> r.engineId != engineId
        decreases |rest|
      {
        var r :| r in rest;
        if r.engineId == engineId {
          return true;
        }
        rest := rest - {r};
      }
      return false;
    }

    method RemoveEvent(engineId: string, dpRank: int, tier: string, engineKeys: seq<uint64>)
      modifies this
      ensures Value() == Step(old(Value()), engineId, RemoveOp(dpRank, tier, engineKeys))
    {
      var r := Resident(engineId, dpRank, tier);
      for i := 0 to |engineKeys|
        invariant Value() == Remove(old(Value()), r, engineKeys[..i])
      {
        InitPrefix(engineKeys, i);
        RemoveKey(r, engineKeys[i]);
      }
      assert engineKeys[..|engineKeys|] == engineKeys;
    }

    /** The body of RemoveEvent's loop, branch for branch. */
    method RemoveKey(r: Resident, engineKey: uint64)
      modifies this
      ensures Value() == RemoveOne(old(Value()), r, engineKey)
    {
      var bk := BridgeKey(r.engineId, engineKey);
      if bk !in bridge {
        return;
      }
      var rk := bridge[bk];
      ghost var was := byEngine;
      if rk in byRequestKey {
        byRequestKey := byRequestKey[rk := byRequestKey[rk] - {r}];
        var still := AnyOf(byRequestKey[rk], r.engineId);
        if byRequestKey[rk] == {} {
          byRequestKey := byRequestKey - {rk};
          bridge := bridge - {bk};
        } else if !still {
          bridge := bridge - {bk};
          if r.engineId in byEngine {
            byEngine := byEngine[r.engineId := byEngine[r.engineId] - {rk}];
          }
        }
      }
      var held := false;
      if rk in byRequestKey {
        held := AnyOf(byRequestKey[rk], r.engineId);
      }
      if !held && r.engineId in byEngine {
        byEngine := byEngine[r.engineId := byEngine[r.engineId] - {rk}];
      }
      assert r.engineId in was ==> was[r.engineId] - {rk} - {rk} == was[r.engineId] - {rk};
      if rk !in old(byRequestKey) {
        assert byRequestKey == old(byRequestKey) - {rk};
      }
    }

    /** The inner loop of ClearEngine: the holders it leaves. */
    method DropHolds(holders: set<Resident>, engineId: string, tier: string) returns (left: set<Resident>)
      ensures left == set r | r in holders && (r.engineId != engineId || (tier != "" && r.tier != tier))
    {
      left := holders;
      var rest := holders;
      while rest != {}
        invariant rest <= holders
        invariant left == rest + set r | r in holders - rest && (r.engineId != engineId || (tier != "" && r.tier != tier))
        decreases |rest|
      {
        var r :| r in rest;
        rest := rest - {r};
        if r.engineId != engineId {
          continue;
        }
        if tier != "" && r.tier != tier {
          continue;
        }
        left := left - {r};
      }
    }

    method ClearEngine(engineId: string, tier: string)
      modifies this
      ensures Value() == Step(old(Value()), engineId, ClearOp(tier))
    {
      if engineId !in byEngine {
        return;
      }
      ghost var s := Value();
      var eng := byEngine[engineId];
      var rest := eng;
      while rest != {}
        invariant rest <= eng && bridge == s.bridge && byEngine == s.byEngine
        invariant forall rk :: rk in byRequestKey <==>
                    rk in s.byRequestKey && (rk in eng - rest ==> Surviving(s, engineId, tier, rk) != {})
        invariant forall rk :: rk in byRequestKey ==>
                    byRequestKey[rk] == if rk in eng - rest then Surviving(s, engineId, tier, rk) else s.byRequestKey[rk]
        decreases |rest|
      {
        var rk :| rk in rest;
        rest := rest - {rk};
        if rk in byRequestKey {
          var left := DropHolds(byRequestKey[rk], engineId, tier);
          assert left == Surviving(s, engineId, tier, rk);
          byRequestKey := if left == {} then byRequestKey - {rk} else byRequestKey[rk := left];
        }
      }
      assert byRequestKey == Clear(s, engineId, tier).byRequestKey;
      if tier == "" {
        bridge := map bk | bk in bridge && bk.engineId != engineId :: bridge[bk];
        byEngine := byEngine - {engineId};
      }
    }

    /** LookupBridge */
    function LookupBridge(engineId: string, engineKey: uint64): Option<uint64>
      reads this
    {
      var bk := BridgeKey(engineId, engineKey);
      if bk in bridge then Some(bridge[bk]) else None
    }

    /** Query's scan of one block's holders, grouped by instance. */
    method GroupHolders(holders: set<Resident>, blockSize: int) returns (infos: map<string, BlockInfo>)
      ensures infos == GroupOf(holders, blockSize)
    {
      infos := map[];
      var rest := holders;
      ghost var done: set<Resident> := {};
      while rest != {}
        invariant done !! rest && done + rest == holders
        invariant infos == GroupOf(done, blockSize)
        decreases |rest|
      {
        var r :| r in rest;
        rest := rest - {r};
        infos := GroupOne(done, infos, r, blockSize);
        done := done + {r};
      }
    }

    /** One holder of a block joins its instance's record. */
    method GroupOne(ghost done: set<Resident>, infos: map<string, BlockInfo>, r: Resident, blockSize: int)
      returns (more: map<string, BlockInfo>)
      requires r !in done && infos == GroupOf(done, blockSize)
      ensures more == GroupOf(done + {r}, blockSize)
    {
      GroupSnoc(done, r, blockSize);
      var bi := if r.engineId in infos then infos[r.engineId] else BlockInfo({}, map[]);
      more := infos[r.engineId := BlockInfo(bi.tiers + {r.tier}, bi.dp[r.dpRank := At(bi.dp, r.dpRank) + blockSize])];
    }

    /** Query's last inner loop: every active instance gains this block. */
    method AddBlock(was: map<string, InstanceHit>, active: set<string>, infos: map<string, BlockInfo>, blockSize: int)
      returns (instances: map<string, InstanceHit>)
      requires active <= infos.Keys
      ensures instances == Scanned(was, active, infos, blockSize)
    {
      instances := was;
      var rest := active;
      ScannedEnds(was, active, infos, blockSize);
      while rest != {}
        invariant rest <= active
        invariant instances == Scanned(was, active - rest, infos, blockSize)
        decreases |rest|
      {
        var eng :| eng in rest;
        instances := AddOne(was, active, rest, instances, infos, blockSize, eng);
        rest := rest - {eng};
      }
    }

    method AddOne(ghost was: map<string, InstanceHit>, ghost active: set<string>, ghost rest: set<string>,
                  instances: map<string, InstanceHit>, infos: map<string, BlockInfo>, blockSize: int, eng: string)
      returns (more: map<string, InstanceHit>)
      requires eng in rest && rest <= active <= infos.Keys
      requires instances == Scanned(was, active - rest, infos, blockSize)
      ensures more == Scanned(was, active - (rest - {eng}), infos, blockSize)
    {
      assert active - (rest - {eng}) == active - rest + {eng};
      ScannedOneMore(was, active - rest, infos, blockSize, eng);
      var ih := if eng in instances then instances[eng] else InstanceHit(0, 0, 0, 0, map[]);
      ih := ExtendHit(ih, infos[eng], blockSize);
      more := instances[eng := ih];
    }

    method ExtendHit(was: InstanceHit, bi: BlockInfo, blockSize: int) returns (ih: InstanceHit)
      ensures ih == Extend(was, bi, blockSize)
    {
      ih := was.(longestMatched := was.longestMatched + blockSize);
      if GPU in bi.tiers {
        ih := ih.(gpu := ih.gpu + blockSize);
      }
      if GPU in bi.tiers || CPU in bi.tiers {
        ih := ih.(cpu := ih.cpu + blockSize);
      }
      ih := ih.(disk := ih.disk + blockSize, dp := AddTokens(ih.dp, bi.dp));
    }

    /** The body of Query's loop over the keys, for a block with these holders. */
    method ScanBlock(holders: set<Resident>, first: bool, was: map<string, InstanceHit>, wasActive: set<string>,
                     blockSize: int)
      returns (instances: map<string, InstanceHit>, active: set<string>)
      ensures active == if first then Engines(holders) else wasActive * Engines(holders)
      ensures active <= GroupOf(holders, blockSize).Keys
      ensures instances == Scanned(was, active, GroupOf(holders, blockSize), blockSize)
    {
      var infos := GroupHolders(holders, blockSize);
      assert infos.Keys == Engines(holders);
      if first {
        active := infos.Keys;
      } else {
        active := set e | e in wasActive && e in infos;
      }
      instances := was;
      if active != {} {
        instances := AddBlock(was, active, infos, blockSize);
      }
    }

    /** Query */
    method Query(requestKeys: seq<uint64>, blockSize: int) returns (instances: map<string, InstanceHit>)
      ensures instances == QueryResult(Value(), requestKeys, blockSize)
    {
      instances := map[];
      if |requestKeys| == 0 {
        return;
      }
      var active: set<string> := {};
      for i := 0 to |requestKeys|
        invariant ScannedUpTo(Value(), requestKeys, i, blockSize, instances, active)
      {
        instances, active := ScanKey(requestKeys, i, blockSize, instances, active);
        if active == {} {
          ScanIsDone(Value(), requestKeys, i + 1, blockSize, instances, active);
          return;
        }
      }
      ScanIsDone(Value(), requestKeys, |requestKeys|, blockSize, instances, active);
    }

    method ScanKey(requestKeys: seq<uint64>, i: nat, blockSize: int, was: map<string, InstanceHit>,
                   wasActive: set<string>)
      returns (instances: map<string, InstanceHit>, active: set<string>)
      requires i < |requestKeys| && ScannedUpTo(Value(), requestKeys, i, blockSize, was, wasActive)
      ensures ScannedUpTo(Value(), requestKeys, i + 1, blockSize, instances, active)
    {
      var rk := requestKeys[i];
      instances, active := ScanBlock(if rk in byRequestKey then byRequestKey[rk] else {},
                                     i == 0, was, wasActive, blockSize);
      ScanStep(Value(), requestKeys, i, blockSize, was, wasActive, instances, active);
    }
  }

  // ------------------------------------------------------ facts for Query

  function GroupOf(holders: set<Resident>, blockSize: int): map<string, BlockInfo> {
    map e | e in Engines(holders) :: InfoOf(SpotsOf(holders, e), blockSize)
  }

  function HitSoFar(m: map<string, InstanceHit>, e: string): InstanceHit {
    if e in m then m[e] else InstanceHit(0, 0, 0, 0, map[])
  }

  /** The engines that hold every one of `keys`. */
  ghost function FullRuns(s: State, keys: seq<uint64>): set<string>
    requires keys != []
  {
    set e | e in Engines(Holders(s, keys[0])) && Run(BlocksOf(s, e, keys)) == |keys|
  }

  lemma StoredNone(s: State, r: Resident)
    ensures StoredKeys(s, r, []) == s.(byEngine := s.byEngine[r.engineId := EngineKeys(s, r.engineId)])
  {
    var t := StoredKeys(s, r, []);
    forall rk ensures rk in t.byRequestKey <==> rk in s.byRequestKey {
    }
    forall rk | rk in s.byRequestKey ensures t.byRequestKey[rk] == s.byRequestKey[rk] {
    }
    assert t.byRequestKey == s.byRequestKey;
    assert EngineKeys(s, r.engineId) + Elems<uint64>([]) == EngineKeys(s, r.engineId);
  }

  lemma BridgeTailSnoc(bridge: map<BridgeKey, uint64>, e: string, eks: seq<uint64>, rks: seq<uint64>, i: nat, j: nat)
    requires i < |eks| && j < |rks|
    ensures BridgeTail(bridge, e, eks[..i + 1], rks[..j + 1]) ==
            BridgeTail(bridge, e, eks[..i], rks[..j])[BridgeKey(e, eks[i]) := rks[j]]
  {
    InitPrefix(eks, i);
    InitPrefix(rks, j);
  }

  lemma StoredSnoc(s: State, r: Resident, rks: seq<uint64>, i: nat)
    requires i < |rks|
    ensures var t, rk := StoredKeys(s, r, rks[..i]), rks[i];
            StoredKeys(s, r, rks[..i + 1]) ==
            t.(byRequestKey := t.byRequestKey[rk := Holders(t, rk) + {r}],
               byEngine := t.byEngine[r.engineId := t.byEngine[r.engineId] + {rk}])
  {
    ElemsUpTo(rks, i);
    HoldersSnoc(s, r, rks, i);
    assert EngineKeys(s, r.engineId) + Elems(rks[..i]) + {rks[i]} == EngineKeys(s, r.engineId) + Elems(rks[..i + 1]);
  }

  lemma ElemsUpTo(rks: seq<uint64>, i: nat)
    requires i < |rks|
    ensures Elems(rks[..i + 1]) == Elems(rks[..i]) + {rks[i]}
    ensures forall k :: k in rks[..i + 1] <==> k in rks[..i] || k == rks[i]
  {
    InitPrefix(rks, i);
    ElemsSnoc(rks[..i + 1]);
  }

  lemma HoldersSnoc(s: State, r: Resident, rks: seq<uint64>, i: nat)
    requires i < |rks|
    ensures var t, rk := StoredKeys(s, r, rks[..i]), rks[i];
            StoredKeys(s, r, rks[..i + 1]).byRequestKey == t.byRequestKey[rk := Holders(t, rk) + {r}]
  {
    ElemsUpTo(rks, i);
    var t, u := StoredKeys(s, r, rks[..i]), StoredKeys(s, r, rks[..i + 1]);
    var w := t.byRequestKey[rks[i] := Holders(t, rks[i]) + {r}];
    assert forall k :: k in w ==> k in u.byRequestKey && u.byRequestKey[k] == w[k];
    assert u.byRequestKey.Keys == w.Keys;
  }

  lemma SpotsSnoc(done: set<Resident>, r: Resident)
    requires r !in done
    ensures Spot(r.dpRank, r.tier) !in SpotsOf(done, r.engineId)
    ensures SpotsOf(done + {r}, r.engineId) == SpotsOf(done, r.engineId) + {Spot(r.dpRank, r.tier)}
    ensures r.engineId !in Engines(done) ==> SpotsOf(done, r.engineId) == {}
    ensures forall e :: e != r.engineId ==> SpotsOf(done + {r}, e) == SpotsOf(done, e)
  {
    assert forall q :: q in done ==> q == Resident(q.engineId, q.dpRank, q.tier);
    assert r == Resident(r.engineId, r.dpRank, r.tier);
    forall e | e != r.engineId ensures SpotsOf(done + {r}, e) == SpotsOf(done, e) {
    }
  }

  lemma RankSpotsSnoc(b: Block, x: Spot, d: int)
    requires x !in b
    ensures d in RanksIn(b + {x}) <==> d in RanksIn(b) || d == x.dpRank
    ensures |RankSpots(b + {x}, d)| == |RankSpots(b, d)| + (if d == x.dpRank then 1 else 0)
  {
    assert RankSpots(b + {x}, d) == RankSpots(b, d) + (if d == x.dpRank then {x} else {});
  }

  lemma BlockTokensSnoc(b: Block, x: Spot, blockSize: int)
    requires x !in b
    ensures BlockTokens(b + {x}, blockSize) ==
            BlockTokens(b, blockSize)[x.dpRank := At(BlockTokens(b, blockSize), x.dpRank) + blockSize]
  {
    var left := BlockTokens(b + {x}, blockSize);
    var right := BlockTokens(b, blockSize)[x.dpRank := At(BlockTokens(b, blockSize), x.dpRank) + blockSize];
    forall d: int ensures (d in left <==> d in right) && (d in left ==> left[d] == right[d]) {
      RankSpotsSnoc(b, x, d);
      RankSpotsOutside(b, d);
      TokensAdd(|RankSpots(b, d)|, 1, blockSize);
    }
    assert left == right;
  }

  lemma GroupSnoc(done: set<Resident>, r: Resident, blockSize: int)
    requires r !in done
    ensures var g := GroupOf(done, blockSize);
            var bi := if r.engineId in g then g[r.engineId] else BlockInfo({}, map[]);
            GroupOf(done + {r}, blockSize) ==
            g[r.engineId := BlockInfo(bi.tiers + {r.tier}, bi.dp[r.dpRank := At(bi.dp, r.dpRank) + blockSize])]
  {
    var e := r.engineId;
    var b, x := SpotsOf(done, e), Spot(r.dpRank, r.tier);
    SpotsSnoc(done, r);
    BlockTokensSnoc(b, x, blockSize);
    assert InfoOf(b + {x}, blockSize).tiers == InfoOf(b, blockSize).tiers + {r.tier};
    assert Engines(done + {r}) == Engines(done) + {e};
    if e !in Engines(done) {
      assert InfoOf(b, blockSize) == BlockInfo({}, map[]) by {
        assert BlockTokens({}, blockSize) == map[];
      }
    }
  }

  lemma BlocksSnoc(s: State, keys: seq<uint64>, i: nat, e: string)
    requires i < |keys|
    ensures BlocksOf(s, e, keys[..i + 1]) == BlocksOf(s, e, keys[..i]) + [BlockOf(s, e, keys[i])]
  {
  }

  /** Pruning the active set leaves the engines that hold all blocks so far. */
  lemma ActiveAfter(s: State, keys: seq<uint64>, i: nat, active: set<string>)
    requires i < |keys|
    requires active == if i == 0 then Engines(Holders(s, keys[0]))
                       else FullRuns(s, keys[..i]) * Engines(Holders(s, keys[i]))
    ensures active == FullRuns(s, keys[..i + 1])
  {
    forall e ensures e in active <==> e in FullRuns(s, keys[..i + 1]) {
      BlocksSnoc(s, keys, i, e);
      BlockMembers(s, e, keys[i]);
      var blocks := BlocksOf(s, e, keys[..i]);
      assert Init(blocks + [BlockOf(s, e, keys[i])]) == blocks;
      assert e in Engines(Holders(s, keys[i])) <==> HasEngine(Holders(s, keys[i]), e);
    }
  }

  ghost function ResultAfter(s: State, keys: seq<uint64>, i: nat, blockSize: int): map<string, InstanceHit>
    requires i <= |keys|
  {
    if i == 0 then map[] else QueryResult(s, keys[..i], blockSize)
  }

  /** `was`, with every engine of `full` extended by its share of the next block. */
  function Scanned(was: map<string, InstanceHit>, full: set<string>, infos: map<string, BlockInfo>, blockSize: int)
    : map<string, InstanceHit>
    requires full <= infos.Keys
  {
    map e | e in was.Keys + full ::
      if e in full then Extend(HitSoFar(was, e), infos[e], blockSize) else was[e]
  }

  lemma ScannedEnds(was: map<string, InstanceHit>, active: set<string>, infos: map<string, BlockInfo>, blockSize: int)
    requires active <= infos.Keys
    ensures Scanned(was, active - active, infos, blockSize) == was
    ensures Scanned(was, active - {}, infos, blockSize) == Scanned(was, active, infos, blockSize)
  {
    assert active - {} == active;
  }

  lemma ScannedOneMore(was: map<string, InstanceHit>, done: set<string>, infos: map<string, BlockInfo>,
                       blockSize: int, e: string)
    requires done + {e} <= infos.Keys && e !in done
    ensures var m := Scanned(was, done, infos, blockSize);
            && (e in m <==> e in was) && (e in m ==> m[e] == was[e])
            && Scanned(was, done + {e}, infos, blockSize) == m[e := Extend(HitSoFar(was, e), infos[e], blockSize)]
  {
    var m := Scanned(was, done, infos, blockSize)[e := Extend(HitSoFar(was, e), infos[e], blockSize)];
    var n := Scanned(was, done + {e}, infos, blockSize);
    assert n.Keys == m.Keys;
    forall f | f in n ensures n[f] == m[f] {
    }
    assert n == m;
  }

  /** One step of the scan: engines with a full run are extended, the others keep their answer. */
  lemma OneMoreBlock(s: State, keys: seq<uint64>, i: nat, blockSize: int)
    requires i < |keys|
    ensures FullRuns(s, keys[..i + 1]) <= GroupOf(Holders(s, keys[i]), blockSize).Keys
    ensures ResultAfter(s, keys, i + 1, blockSize) ==
            Scanned(ResultAfter(s, keys, i, blockSize), FullRuns(s, keys[..i + 1]),
                    GroupOf(Holders(s, keys[i]), blockSize), blockSize)
  {
    var was, now := ResultAfter(s, keys, i, blockSize), ResultAfter(s, keys, i + 1, blockSize);
    var full, infos := FullRuns(s, keys[..i + 1]), GroupOf(Holders(s, keys[i]), blockSize);
    forall e | e in Engines(Holders(s, keys[0]))
      ensures e in full ==> e in infos && now[e] == Extend(HitSoFar(was, e), infos[e], blockSize)
      ensures e !in full ==> e in was && now[e] == was[e]
    {
      EngineStep(s, keys, i, blockSize, e);
    }
    ResultKeys(s, keys, i, blockSize);
    SameHits(now, Scanned(was, full, infos, blockSize));
  }

  lemma ResultKeys(s: State, keys: seq<uint64>, i: nat, blockSize: int)
    requires i < |keys|
    ensures ResultAfter(s, keys, i + 1, blockSize).Keys == Engines(Holders(s, keys[0]))
    ensures ResultAfter(s, keys, i, blockSize).Keys == if i == 0 then {} else Engines(Holders(s, keys[0]))
    ensures FullRuns(s, keys[..i + 1]) <= Engines(Holders(s, keys[0]))
  {
    assert keys[..i + 1][0] == keys[0];
    assert i > 0 ==> keys[..i][0] == keys[0];
  }

  lemma SameHits(a: map<string, InstanceHit>, b: map<string, InstanceHit>)
    requires a.Keys == b.Keys && forall e :: e in a ==> a[e] == b[e]
    ensures a == b
  {
  }

  ghost predicate ScannedUpTo(s: State, keys: seq<uint64>, i: int, blockSize: int,
                              instances: map<string, InstanceHit>, active: set<string>)
  {
    && 0 <= i <= |keys|
    && instances == ResultAfter(s, keys, i, blockSize)
    && (i > 0 ==> active == FullRuns(s, keys[..i]))
  }

  lemma ScanStep(s: State, keys: seq<uint64>, i: nat, blockSize: int,
                 was: map<string, InstanceHit>, wasActive: set<string>,
                 instances: map<string, InstanceHit>, active: set<string>)
    requires i < |keys| && ScannedUpTo(s, keys, i, blockSize, was, wasActive)
    requires var engines := Engines(Holders(s, keys[i])); active == if i == 0 then engines else wasActive * engines
    requires active <= GroupOf(Holders(s, keys[i]), blockSize).Keys
    requires instances == Scanned(was, active, GroupOf(Holders(s, keys[i]), blockSize), blockSize)
    ensures ScannedUpTo(s, keys, i + 1, blockSize, instances, active)
  {
    ActiveAfter(s, keys, i, active);
    OneMoreBlock(s, keys, i, blockSize);
  }

  /** The scan may stop at the end of the keys, or where no engine is left active. */
  lemma ScanIsDone(s: State, keys: seq<uint64>, i: nat, blockSize: int,
                   instances: map<string, InstanceHit>, active: set<string>)
    requires i > 0 && ScannedUpTo(s, keys, i, blockSize, instances, active)
    requires active == {} || i == |keys|
    ensures instances == QueryResult(s, keys, blockSize)
  {
    if i == |keys| {
      assert keys[..i] == keys;
    } else {
      BrokenRunsAreFinal(s, keys, i, blockSize);
    }
  }

  lemma EngineStep(s: State, keys: seq<uint64>, i: nat, blockSize: int, e: string)
    requires i < |keys| && e in Engines(Holders(s, keys[0]))
    ensures var was, now := ResultAfter(s, keys, i, blockSize), ResultAfter(s, keys, i + 1, blockSize);
            && e in now
            && (if e in FullRuns(s, keys[..i + 1])
                then e in GroupOf(Holders(s, keys[i]), blockSize) &&
                     now[e] == Extend(HitSoFar(was, e), GroupOf(Holders(s, keys[i]), blockSize)[e], blockSize)
                else e in was && now[e] == was[e])
  {
    var blocks, b := BlocksOf(s, e, keys[..i]), BlockOf(s, e, keys[i]);
    BlocksSnoc(s, keys, i, e);
    BlockMembers(s, e, keys[i]);
    assert b == SpotsOf(Holders(s, keys[i]), e);
    assert keys[..i + 1][0] == keys[0];
    assert Init(blocks + [b]) == blocks && Last(blocks + [b]) == b;
    if i == 0 {
      assert HasEngine(Holders(s, keys[0]), e);
      assert blocks == [];
      HitOfNoBlocks(blockSize);
    } else {
      assert keys[..i][0] == keys[0];
    }
    if e in FullRuns(s, keys[..i + 1]) {
      HitOfLongerRun(blocks, b, blockSize);
      assert HasEngine(Holders(s, keys[i]), e);
    } else if Run(blocks) < |blocks| {
      HitOfBrokenRun(blocks, [b], blockSize);
    } else {
      HitOfGap(blocks, b, blockSize);
    }
  }

  lemma HitOfNoBlocks(blockSize: int)
    ensures HitOf([], blockSize) == InstanceHit(0, 0, 0, 0, map[])
  {
    var none: seq<Block> := [];
    assert none[..0] == none;
    assert RankTokens(none, blockSize) == map[];
  }

  lemma HitOfGap(blocks: seq<Block>, b: Block, blockSize: int)
    requires Run(blocks) == |blocks| && b == {}
    ensures HitOf(blocks + [b], blockSize) == HitOf(blocks, blockSize)
  {
    RunOfSnoc(blocks, b);
  }

  /** Once no engine holds every block so far, later keys change nothing. */
  lemma BrokenRunsAreFinal(s: State, keys: seq<uint64>, n: nat, blockSize: int)
    requires 0 < n <= |keys| && FullRuns(s, keys[..n]) == {}
    ensures QueryResult(s, keys[..n], blockSize) == QueryResult(s, keys, blockSize)
  {
    assert keys[..n][0] == keys[0];
    forall e | e in Engines(Holders(s, keys[0]))
      ensures HitOf(BlocksOf(s, e, keys[..n]), blockSize) == HitOf(BlocksOf(s, e, keys), blockSize)
    {
      assert e !in FullRuns(s, keys[..n]);
      BrokenRunIsFinal(s, keys, n, blockSize, e);
    }
  }

  lemma BrokenRunIsFinal(s: State, keys: seq<uint64>, n: nat, blockSize: int, e: string)
    requires n <= |keys| && Run(BlocksOf(s, e, keys[..n])) < n
    ensures HitOf(BlocksOf(s, e, keys[..n]), blockSize) == HitOf(BlocksOf(s, e, keys), blockSize)
  {
    var blocks := BlocksOf(s, e, keys);
    assert BlocksOf(s, e, keys[..n]) == blocks[..n];
    assert blocks == blocks[..n] + blocks[n..];
    HitOfBrokenRun(blocks[..n], blocks[n..], blockSize);
  }
}
