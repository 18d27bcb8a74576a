/**
 * Where isolation of an engine's own part of the index ends. Other engines never
 * change it directly (EngineViews), but they can change what the engine's own
 * removes do to it, and exactly when a remove follows a dangling bridge.
 */
module Interleavings {
  import opened Basics
  import opened IndexState
  import opened EngineViews

  // -------------------------------------------------------- one remove

  ghost predicate ByOthers(more: seq<EngineOp>, e: string) {
    forall o :: o in more ==> o.engineId != e
  }

  lemma {:induction false} OthersRunKeepsView(ops: seq<EngineOp>, more: seq<EngineOp>, e: string)
    requires ByOthers(more, e)
    ensures ViewOf(RunOps(ops + more), e) == ViewOf(RunOps(ops), e)
    decreases |more|
  {
    if more == [] {
      assert ops + more == ops;
    } else {
      assert more == Init(more) + [Last(more)];
      assert ops + more == ops + Init(more) + [Last(more)];
      OthersRunKeepsView(ops, Init(more), e);
      RunOpsSnoc(ops + Init(more), Last(more).engineId, Last(more).op);
      OthersKeepTheirView(RunOps(ops + Init(more)), Last(more).engineId, Last(more).op, e);
    }
  }

  /** One holder's engine clears itself, and the block has fewer holders. */
  lemma OneLetsGo(ops: seq<EngineOp>, e: string, rk: uint64) returns (clear: EngineOp)
    requires !HasEngine(Holders(RunOps(ops), rk), e) && Holders(RunOps(ops), rk) != {}
    ensures clear.engineId != e && |Holders(RunOps(ops + [clear]), rk)| < |Holders(RunOps(ops), rk)|
    ensures !HasEngine(Holders(RunOps(ops + [clear]), rk), e)
  {
    var s := RunOps(ops);
    var r :| r in Holders(s, rk);
    clear := EngineOp(r.engineId, ClearOp(""));
    RunsAreWellFormed(ops);
    RunOpsSnoc(ops, r.engineId, ClearOp(""));
    HoldersAfterClear(s, r.engineId, "", rk);
    assert rk in EngineKeys(s, r.engineId);
    assert r !in Surviving(s, r.engineId, "", rk) && Surviving(s, r.engineId, "", rk) <= Holders(s, rk);
    SmallerSet(Surviving(s, r.engineId, "", rk), Holders(s, rk));
  }

  /** Other engines' operations `more` leave the block `rk` without holders. */
  ghost predicate Vacates(ops: seq<EngineOp>, more: seq<EngineOp>, e: string, rk: uint64) {
    ByOthers(more, e) && Holders(RunOps(ops + more), rk) == {}
  }

  lemma OneThenRest(ops: seq<EngineOp>, o: EngineOp, rest: seq<EngineOp>, e: string, rk: uint64)
    requires o.engineId != e && Vacates(ops + [o], rest, e, rk)
    ensures Vacates(ops, [o] + rest, e, rk)
  {
    assert ops + ([o] + rest) == ops + [o] + rest;
  }

  /** The other engines can all let go of a block that `e` does not hold. */
  lemma {:induction false} VacateBlock(ops: seq<EngineOp>, e: string, rk: uint64, n: nat) returns (more: seq<EngineOp>)
    requires !HasEngine(Holders(RunOps(ops), rk), e) && |Holders(RunOps(ops), rk)| <= n
    ensures Vacates(ops, more, e, rk)
    decreases n
  {
    if Holders(RunOps(ops), rk) == {} {
      more := [];
      assert ops + [] == ops;
    } else {
      var clear := OneLetsGo(ops, e, rk);
      var rest := VacateBlock(ops + [clear], e, rk, n - 1);
      OneThenRest(ops, clear, rest, e, rk);
      more := [clear] + rest;
    }
  }

  lemma SmallerSet(a: set<Resident>, b: set<Resident>)
    requires a < b
    ensures |a| < |b|
  {
    assert b == a + (b - a);
  }

  /** Another engine stores the block `rk`, under no hash. */
  function StoredElsewhere(e: string, rk: uint64): EngineOp {
    EngineOp(e + "'", StoreOp(0, "gpu", [], [rk]))
  }

  lemma ElsewhereIsElsewhere(e: string)
    ensures e + "'" != e
  {
    assert |e + "'"| == |e| + 1;
  }

  lemma HeldElsewhere(s: State, e: string, rk: uint64)
    ensures var f := e + "'";
            var t := Step(s, f, StoredElsewhere(e, rk).op);
            ViewOf(t, e) == ViewOf(s, e) && Hold(rk, 0, "gpu") in ViewOf(t, f).holds
  {
    var f, op := e + "'", StoredElsewhere(e, rk).op;
    ElsewhereIsElsewhere(e);
    OthersKeepTheirView(s, f, op, e);
    ViewMembers(Step(s, f, op), f);
    assert rk in [rk];
    assert Resident(f, 0, "gpu") in Holders(Step(s, f, op), rk);
  }

  lemma UnheldBridgeStays(s: State, r: Resident, ek: uint64)
    requires var bk := BridgeKey(r.engineId, ek); bk in s.bridge && Holders(s, s.bridge[bk]) == {}
    requires WellFormed(s)
    ensures ek in ViewOf(RemoveOne(s, r, ek), r.engineId).bridge
  {
    ViewMembers(RemoveOne(s, r, ek), r.engineId);
  }

  /** A dangling bridge is dropped by the next remove when some other engine holds the block. */
  lemma SharedBridgeGoes(s: State, r: Resident, ek: uint64, f: string, h: Hold)
    requires Dangling(ViewOf(s, r.engineId), ek) && f != r.engineId
    requires h in ViewOf(s, f).holds && h.requestKey == ViewOf(s, r.engineId).bridge[ek]
    ensures BridgeKey(r.engineId, ek) !in RemoveOne(s, r, ek).bridge
  {
    ViewMembers(s, r.engineId);
    ViewMembers(s, f);
    var rk := h.requestKey;
    assert h == Hold(rk, h.dpRank, h.tier);
    assert Resident(f, h.dpRank, h.tier) in Holders(s, rk);
    assert !HasEngine(Holders(s, rk) - {r}, r.engineId);
  }

  /** The engine's view when, after `ops`, it removes one block. */
  function ViewAfterRemove(ops: seq<EngineOp>, e: string, dp: int, tier: string, ek: uint64): View {
    ViewOf(RunOps(ops + [EngineOp(e, RemoveOp(dp, tier, [ek]))]), e)
  }

  lemma RemoveAfter(ops: seq<EngineOp>, e: string, dp: int, tier: string, ek: uint64)
    ensures ViewAfterRemove(ops, e, dp, tier, ek) == ViewOf(RemoveOne(RunOps(ops), Resident(e, dp, tier), ek), e)
  {
    RunOpsSnoc(ops, e, RemoveOp(dp, tier, [ek]));
    RemoveJust(RunOps(ops), Resident(e, dp, tier), ek);
  }

  /**
   * Exactly where isolation of an engine's own behaviour ends. After any run, what a
   * remove leaves of the engine's own view is unaffected by anything the other engines
   * do before it if and only if the bridge it follows does not dangle. When it dangles,
   * the bridge survives the remove precisely when no other engine holds the block.
   */
  lemma RemoveIsLocalExactlyWhenNotDangling(ops: seq<EngineOp>, e: string, dp: int, tier: string, ek: uint64)
    ensures !Dangling(ViewOf(RunOps(ops), e), ek) <==>
            forall more: seq<EngineOp> :: ByOthers(more, e) ==>
              ViewAfterRemove(ops + more, e, dp, tier, ek) == ViewAfterRemove(ops, e, dp, tier, ek)
  {
    var v := ViewOf(RunOps(ops), e);
    if !Dangling(v, ek) {
      forall more: seq<EngineOp> | ByOthers(more, e)
        ensures ViewAfterRemove(ops + more, e, dp, tier, ek) == ViewAfterRemove(ops, e, dp, tier, ek)
      {
        OthersRunKeepsView(ops, more, e);
        RemoveAfter(ops, e, dp, tier, ek);
        RemoveAfter(ops + more, e, dp, tier, ek);
        RemoveOneIsLocal(RunOps(ops), e, dp, tier, ek);
        RemoveOneIsLocal(RunOps(ops + more), e, dp, tier, ek);
      }
    } else {
      var nowhere, elsewhere := DanglingBridgeTellsApart(ops, e, dp, tier, ek);
      assert ByOthers(nowhere, e) && ByOthers(elsewhere, e);
    }
  }

  lemma DanglingBridgeTellsApart(ops: seq<EngineOp>, e: string, dp: int, tier: string, ek: uint64)
    returns (nowhere: seq<EngineOp>, elsewhere: seq<EngineOp>)
    requires Dangling(ViewOf(RunOps(ops), e), ek)
    ensures ByOthers(nowhere, e) && ek in ViewAfterRemove(ops + nowhere, e, dp, tier, ek).bridge
    ensures ByOthers(elsewhere, e) && ek !in ViewAfterRemove(ops + elsewhere, e, dp, tier, ek).bridge
  {
    nowhere := StaysWhenVacated(ops, e, dp, tier, ek);
    GoesWhenStoredElsewhere(ops, e, dp, tier, ek);
    ElsewhereIsElsewhere(e);
    elsewhere := [StoredElsewhere(e, ViewOf(RunOps(ops), e).bridge[ek])];
  }

  lemma StaysWhenVacated(ops: seq<EngineOp>, e: string, dp: int, tier: string, ek: uint64) returns (more: seq<EngineOp>)
    requires Dangling(ViewOf(RunOps(ops), e), ek)
    ensures ByOthers(more, e) && ek in ViewAfterRemove(ops + more, e, dp, tier, ek).bridge
  {
    var rk := ViewOf(RunOps(ops), e).bridge[ek];
    ViewMembers(RunOps(ops), e);
    more := VacateBlock(ops, e, rk, |Holders(RunOps(ops), rk)|);
    OthersRunKeepsView(ops, more, e);
    ViewMembers(RunOps(ops + more), e);
    RunsAreWellFormed(ops + more);
    UnheldBridgeStays(RunOps(ops + more), Resident(e, dp, tier), ek);
    RemoveAfter(ops + more, e, dp, tier, ek);
  }

  lemma GoesWhenStoredElsewhere(ops: seq<EngineOp>, e: string, dp: int, tier: string, ek: uint64)
    requires Dangling(ViewOf(RunOps(ops), e), ek)
    ensures var other := StoredElsewhere(e, ViewOf(RunOps(ops), e).bridge[ek]);
            ek !in ViewAfterRemove(ops + [other], e, dp, tier, ek).bridge
  {
    var r, rk := Resident(e, dp, tier), ViewOf(RunOps(ops), e).bridge[ek];
    var other := StoredElsewhere(e, rk);
    var t := RunOps(ops + [other]);
    ElsewhereIsElsewhere(e);
    RunOpsSnoc(ops, e + "'", other.op);
    HeldElsewhere(RunOps(ops), e, rk);
    SharedBridgeGoes(t, r, ek, e + "'", Hold(rk, 0, "gpu"));
    ViewMembers(RemoveOne(t, r, ek), e);
    RemoveAfter(ops + [other], e, dp, tier, ek);
  }

  // ------------------------------------------------------------ whole runs

  /** The engine's view after `own` does not depend on what other engines do in between. */
  ghost predicate Independent(own: seq<Op>, e: string) {
    forall ops, ops' :: SubStream(ops, e) == own && SubStream(ops', e) == own ==>
      ViewOf(RunOps(ops), e) == ViewOf(RunOps(ops'), e)
  }

  lemma {:induction false} SafePrefix(own: seq<Op>, n: nat)
    requires SafeRun(own) && n <= |own|
    ensures SafeRun(own[..n])
    decreases |own|
  {
    if n == |own| {
      assert own[..n] == own;
    } else {
      SafePrefix(Init(own), n);
      assert Init(own)[..n] == own[..n];
    }
  }

  /** A run of `e` alone. */
  function Solo(own: seq<Op>, e: string): seq<EngineOp> {
    seq(|own|, i requires 0 <= i < |own| => EngineOp(e, own[i]))
  }

  lemma {:induction false} SoloIsOwn(own: seq<Op>, e: string)
    ensures SubStream(Solo(own, e), e) == own
    decreases |own|
  {
    if own != [] {
      assert Init(Solo(own, e)) == Solo(Init(own), e);
      SoloIsOwn(Init(own), e);
    }
  }

  lemma SubStreamSnoc(ops: seq<EngineOp>, o: EngineOp, e: string)
    ensures SubStream(ops + [o], e) == if o.engineId == e then SubStream(ops, e) + [o.op] else SubStream(ops, e)
  {
    assert Init(ops + [o]) == ops;
  }

  lemma SoloHoldsAlone(own: seq<Op>, e: string, f: string)
    requires f != e
    ensures ViewOf(RunOps(Solo(own, e)), f) == EMPTY_VIEW
    decreases |own|
  {
    if own == [] {
      ViewIs(EMPTY, f, EMPTY_VIEW);
    } else {
      SoloHoldsAlone(Init(own), e, f);
      assert Init(Solo(own, e)) == Solo(Init(own), e);
      OthersKeepTheirView(RunOps(Solo(Init(own), e)), e, Last(own), f);
    }
  }

  /** The remove `op` is safe up to its `j`-th hash, whose bridge then dangles. */
  predicate DanglesAt(v: View, op: Op, j: nat) {
    && op.RemoveOp? && j < |op.engineKeys|
    && SafeRemove(v, op.dpRank, op.tier, op.engineKeys[..j])
    && Dangling(RemoveOf(v, op.dpRank, op.tier, op.engineKeys[..j]), op.engineKeys[j])
  }

  function DanglingBlock(v: View, op: Op, j: nat): uint64
    requires DanglesAt(v, op, j)
  {
    RemoveOf(v, op.dpRank, op.tier, op.engineKeys[..j]).bridge[op.engineKeys[j]]
  }

  lemma {:induction false} FirstDangling(v: View, dp: int, tier: string, eks: seq<uint64>) returns (j: nat)
    requires !SafeRemove(v, dp, tier, eks)
    ensures DanglesAt(v, RemoveOp(dp, tier, eks), j)
    decreases |eks|
  {
    if SafeRemove(v, dp, tier, Init(eks)) {
      j := |eks| - 1;
    } else {
      j := FirstDangling(v, dp, tier, Init(eks));
      assert Init(eks)[..j] == eks[..j];
    }
  }

  lemma {:induction false} RemoveInTwo(s: State, r: Resident, eks: seq<uint64>, j: nat)
    requires j <= |eks|
    ensures Remove(s, r, eks) == Remove(Remove(s, r, eks[..j]), r, eks[j..])
    decreases |eks|
  {
    if j == |eks| {
      assert eks[..j] == eks;
    } else {
      RemoveInTwo(s, r, Init(eks), j);
      assert Init(eks)[..j] == eks[..j] && Init(eks)[j..] == Init(eks[j..]);
    }
  }

  lemma {:induction false} UnheldBridgeStaysThroughout(s: State, r: Resident, eks: seq<uint64>, bk: BridgeKey)
    requires bk in s.bridge && s.bridge[bk] !in s.byRequestKey
    ensures var t := Remove(s, r, eks); bk in t.bridge && t.bridge[bk] == s.bridge[bk] && s.bridge[bk] !in t.byRequestKey
    decreases |eks|
  {
    if eks != [] {
      UnheldBridgeStaysThroughout(s, r, Init(eks), bk);
    }
  }

  lemma {:induction false} RemoveAddsNoBridge(s: State, r: Resident, eks: seq<uint64>, bk: BridgeKey)
    requires bk !in s.bridge
    ensures bk !in Remove(s, r, eks).bridge
    decreases |eks|
  {
    if eks != [] {
      RemoveAddsNoBridge(s, r, Init(eks), bk);
    }
  }

  /** With no other engine about, a bridge that dangles during a remove is still there at its end. */
  lemma BridgeSurvivesAlone(s: State, e: string, op: Op, j: nat)
    requires WellFormed(s) && DanglesAt(ViewOf(s, e), op, j)
    requires forall f :: f != e ==> ViewOf(s, f) == EMPTY_VIEW
    ensures op.engineKeys[j] in ViewOf(Step(s, e, op), e).bridge
  {
    var r, eks := Resident(e, op.dpRank, op.tier), op.engineKeys;
    var t, bk := Remove(s, r, eks[..j]), BridgeKey(e, eks[j]);
    RemoveIsLocal(s, e, op.dpRank, op.tier, eks[..j]);
    RemoveKeepsWellFormed(s, r, eks[..j]);
    ViewMembers(t, e);
    var rk := t.bridge[bk];
    forall q: Resident ensures q !in Holders(t, rk) {
      if q.engineId != e {
        RemoveLeavesOthers(s, r, eks[..j], q.engineId);
        ViewMembers(t, q.engineId);
        assert q == Resident(q.engineId, q.dpRank, q.tier);
        assert Hold(rk, q.dpRank, q.tier) !in EMPTY_VIEW.holds;
      }
    }
    assert rk !in t.byRequestKey;
    UnheldBridgeStaysThroughout(t, r, eks[j..], bk);
    RemoveInTwo(s, r, eks, j);
    ViewMembers(Remove(s, r, eks), e);
  }

  lemma GoneStaysGone(s: State, r: Resident, eks: seq<uint64>, j: nat)
    requires j < |eks| && BridgeKey(r.engineId, eks[j]) !in RemoveOne(Remove(s, r, eks[..j]), r, eks[j]).bridge
    ensures eks[j] !in ViewOf(Remove(s, r, eks), r.engineId).bridge
  {
    InitPrefix(eks, j);
    RemoveAddsNoBridge(Remove(s, r, eks[..j + 1]), r, eks[j + 1..], BridgeKey(r.engineId, eks[j]));
    RemoveInTwo(s, r, eks, j + 1);
    ViewMembers(Remove(s, r, eks), r.engineId);
  }

  /** But if another engine holds that block throughout, it is gone. */
  lemma BridgeGoesWhenShared(s: State, e: string, op: Op, j: nat, f: string, h: Hold)
    requires DanglesAt(ViewOf(s, e), op, j) && f != e
    requires h in ViewOf(s, f).holds && h.requestKey == DanglingBlock(ViewOf(s, e), op, j)
    ensures op.engineKeys[j] !in ViewOf(Step(s, e, op), e).bridge
  {
    var r, eks := Resident(e, op.dpRank, op.tier), op.engineKeys;
    RemoveIsLocal(s, e, op.dpRank, op.tier, eks[..j]);
    RemoveLeavesOthers(s, r, eks[..j], f);
    SharedBridgeGoes(Remove(s, r, eks[..j]), r, eks[j], f, h);
    GoneStaysGone(s, r, eks, j);
  }

  lemma AloneKeepsBridge(own: seq<Op>, op: Op, e: string, j: nat) returns (ops: seq<EngineOp>)
    requires SafeRun(own) && DanglesAt(RunView(own), op, j)
    ensures SubStream(ops, e) == own + [op] && op.engineKeys[j] in ViewOf(RunOps(ops), e).bridge
  {
    var base := Solo(own, e);
    ops := base + [EngineOp(e, op)];
    SoloIsOwn(own, e);
    SafeRunProjects(base, e);
    RunsAreWellFormed(base);
    forall f | f != e ensures ViewOf(RunOps(base), f) == EMPTY_VIEW {
      SoloHoldsAlone(own, e, f);
    }
    BridgeSurvivesAlone(RunOps(base), e, op, j);
    RunOpsSnoc(base, e, op);
    SubStreamSnoc(base, EngineOp(e, op), e);
  }

  lemma SharedLosesBridge(own: seq<Op>, op: Op, e: string, j: nat) returns (ops: seq<EngineOp>)
    requires SafeRun(own) && DanglesAt(RunView(own), op, j)
    ensures SubStream(ops, e) == own + [op] && op.engineKeys[j] !in ViewOf(RunOps(ops), e).bridge
  {
    var base, rk := Solo(own, e), DanglingBlock(RunView(own), op, j);
    var other := StoredElsewhere(e, rk);
    ops := base + [other] + [EngineOp(e, op)];
    SoloIsOwn(own, e);
    SafeRunProjects(base, e);
    ElsewhereIsElsewhere(e);
    HeldElsewhere(RunOps(base), e, rk);
    RunOpsSnoc(base, e + "'", other.op);
    BridgeGoesWhenShared(RunOps(base + [other]), e, op, j, e + "'", Hold(rk, 0, "gpu"));
    RunOpsSnoc(base + [other], e, op);
    SubStreamSnoc(base, other, e);
    SubStreamSnoc(base + [other], EngineOp(e, op), e);
  }

  lemma UnsafeLastTellsApart(own: seq<Op>, e: string)
    requires own != [] && SafeRun(Init(own)) && !SafeOp(RunView(Init(own)), Last(own))
    ensures !Independent(own, e)
  {
    var op := Last(own);
    var j := FirstDangling(RunView(Init(own)), op.dpRank, op.tier, op.engineKeys);
    assert op == RemoveOp(op.dpRank, op.tier, op.engineKeys) && Init(own) + [op] == own;
    var alone := AloneKeepsBridge(Init(own), op, e, j);
    var shared := SharedLosesBridge(Init(own), op, e, j);
    TwoRunsDiffer(own, e, alone, shared, op.engineKeys[j]);
  }

  lemma TwoRunsDiffer(own: seq<Op>, e: string, ops: seq<EngineOp>, ops': seq<EngineOp>, ek: uint64)
    requires SubStream(ops, e) == own && SubStream(ops', e) == own
    requires ek in ViewOf(RunOps(ops), e).bridge && ek !in ViewOf(RunOps(ops'), e).bridge
    ensures !Independent(own, e)
  {
  }

  lemma {:induction false} UnsafeSomewhere(own: seq<Op>, e: string) returns (n: nat)
    requires !SafeRun(own)
    ensures n <= |own| && !Independent(own[..n], e)
    decreases |own|
  {
    if SafeRun(Init(own)) {
      n := |own|;
      assert own[..n] == own;
      UnsafeLastTellsApart(own, e);
    } else {
      n := UnsafeSomewhere(Init(own), e);
      assert Init(own)[..n] == own[..n];
    }
  }

  /**
   * Over whole runs: at every moment an engine's part of the index depends on its own
   * operations only, and not on how they are interleaved with other engines' operations,
   * if and only if none of its removes follows a dangling bridge.
   */
  lemma ViewIsItsOwnExactlyWhenSafe(own: seq<Op>, e: string)
    ensures SafeRun(own) <==> forall n: nat :: n <= |own| ==> Independent(own[..n], e)
  {
    if SafeRun(own) {
      forall n: nat | n <= |own| ensures Independent(own[..n], e) {
        SafePrefix(own, n);
        forall ops, ops' | SubStream(ops, e) == own[..n] && SubStream(ops', e) == own[..n]
          ensures ViewOf(RunOps(ops), e) == ViewOf(RunOps(ops'), e)
        {
          SafeRunProjects(ops, e);
          SafeRunProjects(ops', e);
        }
      }
    } else {
      var n := UnsafeSomewhere(own, e);
    }
  }

  // ------------------------------------------------- the smallest example

  /**
   * Without the discipline the interleaving does matter. Engine "a" gives one block two
   * hashes and then evicts it under both; engine "b" stores the same block. If "b" comes
   * last, the bridge of the second hash stays behind; if "b" comes first, it is removed.
   */
  lemma SharedKeysMakeOrderMatter()
    ensures var ours := TwoNamesForOneBlock();
            && BridgeKey("a", 2) in RunOps(ours + [SameBlockElsewhere()]).bridge
            && BridgeKey("a", 2) !in RunOps([SameBlockElsewhere()] + ours).bridge
  {
    AfterTwoNames([]);
    AfterTwoNames([SameBlockElsewhere()]);
    var ours, other := TwoNamesForOneBlock(), SameBlockElsewhere();
    assert [] + ours == ours;
    assert "a"[0] != "b"[0];
    RunOpsSnoc(ours, "b", other.op);
    StoreOne(RunOps(ours), Resident("b", 0, "gpu"), 9, 7);
    RunOpsSnoc([], "b", other.op);
    assert [] + [other] == [other];
    StoreOne(EMPTY, Resident("b", 0, "gpu"), 9, 7);
  }

  const SECOND_DROP: Op := RemoveOp(0, "gpu", [2])

  function TwoNamesForOneBlock(): seq<EngineOp> {
    [EngineOp("a", StoreOp(0, "gpu", [1], [7])), EngineOp("a", StoreOp(0, "gpu", [2], [7])),
     EngineOp("a", RemoveOp(0, "gpu", [1])), EngineOp("a", SECOND_DROP)]
  }

  function SameBlockElsewhere(): EngineOp {
    EngineOp("b", StoreOp(0, "gpu", [9], [7]))
  }

  lemma AfterTwoStores(before: seq<EngineOp>)
    requires BridgeKey("a", 1) !in RunOps(before).bridge && BridgeKey("a", 2) !in RunOps(before).bridge
    requires !HasEngine(Holders(RunOps(before), 7), "a")
    ensures var ops, r := TwoNamesForOneBlock(), Resident("a", 0, "gpu");
            var s := RunOps(before + [ops[0]] + [ops[1]]);
            && Holders(s, 7) == Holders(RunOps(before), 7) + {r} && r !in Holders(RunOps(before), 7)
            && BridgeKey("a", 1) in s.bridge && s.bridge[BridgeKey("a", 1)] == 7
            && BridgeKey("a", 2) in s.bridge && s.bridge[BridgeKey("a", 2)] == 7
  {
    var ops, r := TwoNamesForOneBlock(), Resident("a", 0, "gpu");
    RunOpsSnoc(before, "a", ops[0].op);
    RunOpsSnoc(before + [ops[0]], "a", ops[1].op);
    StoreOne(RunOps(before), r, 1, 7);
    StoreOne(RunOps(before + [ops[0]]), r, 2, 7);
    assert r !in Holders(RunOps(before), 7);
  }

  lemma DropBothNames(s: State, r: Resident, rest: set<Resident>)
    requires BridgeKey(r.engineId, 1) in s.bridge && s.bridge[BridgeKey(r.engineId, 1)] == 7
    requires BridgeKey(r.engineId, 2) in s.bridge && s.bridge[BridgeKey(r.engineId, 2)] == 7
    requires Holders(s, 7) == rest + {r} && r !in rest && !HasEngine(rest, r.engineId)
    ensures BridgeKey(r.engineId, 2) in RemoveOne(RemoveOne(s, r, 1), r, 2).bridge <==> rest == {}
  {
    var t := RemoveOne(s, r, 1);
    assert Holders(s, 7) - {r} == rest;
    assert Holders(t, 7) == rest;
    assert t.bridge[BridgeKey(r.engineId, 2)] == 7;
    assert Holders(t, 7) - {r} == rest;
  }

  lemma TwoNamesRun(before: seq<EngineOp>)
    ensures var ops, r := TwoNamesForOneBlock(), Resident("a", 0, "gpu");
            RunOps(before + ops) == RemoveOne(RemoveOne(RunOps(before + [ops[0]] + [ops[1]]), r, 1), r, 2)
  {
    var ops, r := TwoNamesForOneBlock(), Resident("a", 0, "gpu");
    var stored := before + [ops[0]] + [ops[1]];
    calc {
      RunOps(before + ops);
      { assert before + ops == stored + [ops[2]] + [ops[3]]; }
      RunOps(stored + [ops[2]] + [ops[3]]);
      { RunOpsSnoc(stored + [ops[2]], "a", ops[3].op); RemoveJust(RunOps(stored + [ops[2]]), r, 2); }
      RemoveOne(RunOps(stored + [ops[2]]), r, 2);
      { RunOpsSnoc(stored, "a", ops[2].op); RemoveJust(RunOps(stored), r, 1); }
      RemoveOne(RemoveOne(RunOps(stored), r, 1), r, 2);
    }
  }

  /** The second hash stays bridged exactly if nobody else holds the block by then. */
  lemma AfterTwoNames(before: seq<EngineOp>)
    requires BridgeKey("a", 1) !in RunOps(before).bridge && BridgeKey("a", 2) !in RunOps(before).bridge
    requires !HasEngine(Holders(RunOps(before), 7), "a")
    ensures var s := RunOps(before + TwoNamesForOneBlock());
            BridgeKey("a", 2) in s.bridge <==> Holders(RunOps(before), 7) == {}
  {
    var ops := TwoNamesForOneBlock();
    AfterTwoStores(before);
    TwoNamesRun(before);
    DropBothNames(RunOps(before + [ops[0]] + [ops[1]]), Resident("a", 0, "gpu"), Holders(RunOps(before), 7));
  }

  lemma StoreOne(s: State, r: Resident, ek: uint64, rk: uint64)
    ensures var t := Step(s, r.engineId, StoreOp(r.dpRank, r.tier, [ek], [rk]));
            && Holders(t, rk) == Holders(s, rk) + {r} && rk in t.byRequestKey
            && t.bridge == s.bridge[BridgeKey(r.engineId, ek) := rk]
  {
    assert Init([ek]) == [] && Init([rk]) == [];
    assert BridgeTail(s.bridge, r.engineId, [ek], [rk]) == s.bridge[BridgeKey(r.engineId, ek) := rk];
  }

  lemma RemoveJust(s: State, r: Resident, ek: uint64)
    ensures Step(s, r.engineId, RemoveOp(r.dpRank, r.tier, [ek])) == RemoveOne(s, r, ek)
  {
    assert Init([ek]) == [];
    assert Remove(s, r, Init([ek])) == s;
  }
}
