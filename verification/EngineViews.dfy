/**
 * One engine's part of the index, and why it evolves on its own.
 *
 * A View is everything the three maps record about one engine. An operation on
 * one engine never changes another engine's view. An engine's own view evolves as
 * a function of itself exactly as long as no remove of the engine follows a
 * dangling bridge (Interleavings), which never happens to an engine
 * that bridges no two of its hashes to one request key (OneToOneIsSafe).
 */
module EngineViews {
  import opened Basics
  import opened IndexState
  import opened Hits

  datatype Hold = Hold(requestKey: uint64, dpRank: int, tier: string)

  datatype View = View(
    holds: set<Hold>,
    bridge: map<uint64, uint64>,
    keys: Option<set<uint64>>)

  const EMPTY_VIEW: View := View({}, map[], None)

  function ViewOf(s: State, e: string): View {
    View(set rk, r | rk in s.byRequestKey && r in s.byRequestKey[rk] && r.engineId == e
           :: Hold(rk, r.dpRank, r.tier),
         map bk | bk in s.bridge && bk.engineId == e :: bk.engineKey := s.bridge[bk],
         if e in s.byEngine then Some(s.byEngine[e]) else None)
  }

  predicate Held(v: View, rk: uint64) {
    exists h :: h in v.holds && h.requestKey == rk
  }

  lemma ViewMembers(s: State, e: string)
    ensures forall rk, dp, tier {:trigger Hold(rk, dp, tier)} ::
              Hold(rk, dp, tier) in ViewOf(s, e).holds <==> Resident(e, dp, tier) in Holders(s, rk)
    ensures forall ek {:trigger BridgeKey(e, ek)} {:trigger ek in ViewOf(s, e).bridge} ::
              ek in ViewOf(s, e).bridge <==> BridgeKey(e, ek) in s.bridge
    ensures forall ek :: ek in ViewOf(s, e).bridge ==> ViewOf(s, e).bridge[ek] == s.bridge[BridgeKey(e, ek)]
    ensures forall rk :: Held(ViewOf(s, e), rk) <==> HasEngine(Holders(s, rk), e)
  {
    var v := ViewOf(s, e);
    forall rk, dp, tier
      ensures Hold(rk, dp, tier) in v.holds <==> Resident(e, dp, tier) in Holders(s, rk)
    {
      if Resident(e, dp, tier) in Holders(s, rk) {
        var r := Resident(e, dp, tier);
        assert rk in s.byRequestKey && r in s.byRequestKey[rk] && r.engineId == e;
      }
    }
    forall ek ensures ek in v.bridge <==> BridgeKey(e, ek) in s.bridge {
      if BridgeKey(e, ek) in s.bridge {
        var bk := BridgeKey(e, ek);
        assert bk in s.bridge && bk.engineId == e;
      }
    }
    forall rk ensures Held(v, rk) <==> HasEngine(Holders(s, rk), e) {
      if Held(v, rk) {
        var h :| h in v.holds && h.requestKey == rk;
        assert Hold(rk, h.dpRank, h.tier) in v.holds;
        assert Resident(e, h.dpRank, h.tier) in Holders(s, rk);
      }
      if HasEngine(Holders(s, rk), e) {
        var r :| r in Holders(s, rk) && r.engineId == e;
        assert r == Resident(e, r.dpRank, r.tier);
        assert Hold(rk, r.dpRank, r.tier) in v.holds;
      }
    }
  }

  /** A view is fixed by what the three maps say about the engine, point by point. */
  lemma ViewIs(s: State, e: string, w: View)
    requires forall rk, dp, tier {:trigger Hold(rk, dp, tier)} ::
               Hold(rk, dp, tier) in w.holds <==> Resident(e, dp, tier) in Holders(s, rk)
    requires forall ek :: ek in w.bridge <==> BridgeKey(e, ek) in s.bridge
    requires forall ek :: ek in w.bridge ==> w.bridge[ek] == s.bridge[BridgeKey(e, ek)]
    requires w.keys == if e in s.byEngine then Some(s.byEngine[e]) else None
    ensures ViewOf(s, e) == w
  {
    var v := ViewOf(s, e);
    ViewMembers(s, e);
    forall h: Hold ensures h in v.holds <==> h in w.holds {
      assert h == Hold(h.requestKey, h.dpRank, h.tier);
    }
    assert v.holds == w.holds;
    assert v.bridge == w.bridge;
  }

  lemma SameView(s: State, t: State, e: string)
    requires forall rk, dp, tier ::
               Resident(e, dp, tier) in Holders(t, rk) <==> Resident(e, dp, tier) in Holders(s, rk)
    requires forall ek {:trigger BridgeKey(e, ek)} :: BridgeKey(e, ek) in t.bridge <==> BridgeKey(e, ek) in s.bridge
    requires forall ek {:trigger BridgeKey(e, ek)} ::
               BridgeKey(e, ek) in s.bridge ==> t.bridge[BridgeKey(e, ek)] == s.bridge[BridgeKey(e, ek)]
    requires e in t.byEngine <==> e in s.byEngine
    requires e in s.byEngine ==> t.byEngine[e] == s.byEngine[e]
    ensures ViewOf(t, e) == ViewOf(s, e)
  {
    ViewMembers(s, e);
    ViewIs(t, e, ViewOf(s, e));
  }

  // ------------------------------------------------ one engine's own machine

  function KeysOf(v: View): set<uint64> {
    if v.keys.Some? then v.keys.value else {}
  }

  function StoredView(v: View, dp: int, tier: string, rks: seq<uint64>): View {
    v.(holds := v.holds + (set rk | rk in rks :: Hold(rk, dp, tier)),
       keys := Some(KeysOf(v) + Elems(rks)))
  }

  function BridgeTailOf(bridge: map<uint64, uint64>, eks: seq<uint64>, rks: seq<uint64>): map<uint64, uint64> {
    if eks == [] || rks == [] then bridge
    else BridgeTailOf(bridge, Init(eks), Init(rks))[Last(eks) := Last(rks)]
  }

  predicate ResolvableIn(v: View, eks: seq<uint64>) {
    eks != [] && forall ek :: ek in eks ==> ek in v.bridge
  }

  function ResolvedIn(v: View, eks: seq<uint64>): seq<uint64>
    requires ResolvableIn(v, eks)
  {
    seq(|eks|, i requires 0 <= i < |eks| => v.bridge[eks[i]])
  }

  function RemoveOneOf(v: View, dp: int, tier: string, ek: uint64): View {
    if ek !in v.bridge then v
    else
      var rk := v.bridge[ek];
      var t := v.(holds := v.holds - {Hold(rk, dp, tier)});
      if Held(t, rk) then t
      else t.(bridge := v.bridge - {ek},
              keys := if v.keys.Some? then Some(v.keys.value - {rk}) else None)
  }

  function RemoveOf(v: View, dp: int, tier: string, eks: seq<uint64>): View {
    if eks == [] then v else RemoveOneOf(RemoveOf(v, dp, tier, Init(eks)), dp, tier, Last(eks))
  }

  /** An engine's view under its own operations. */
  function ViewStep(v: View, op: Op): View {
    match op
    case StoreOp(dp, tier, eks, rks) =>
      if rks == [] then v
      else StoredView(v, dp, tier, rks).(bridge := BridgeTailOf(v.bridge, eks, rks))
    case CopyOp(dp, tier, eks) =>
      if ResolvableIn(v, eks) then StoredView(v, dp, tier, ResolvedIn(v, eks)) else v
    case RemoveOp(dp, tier, eks) => RemoveOf(v, dp, tier, eks)
    case ClearOp(tier) =>
      if tier == "" then EMPTY_VIEW else v.(holds := set h | h in v.holds && h.tier != tier)
  }

  function RunView(ops: seq<Op>): View {
    if ops == [] then EMPTY_VIEW else ViewStep(RunView(Init(ops)), Last(ops))
  }

  // ------------------------------------------------------- engine isolation

  lemma RemoveOneLeavesOthers(s: State, r: Resident, ek: uint64, f: string)
    requires f != r.engineId
    ensures ViewOf(RemoveOne(s, r, ek), f) == ViewOf(s, f)
  {
    SameView(s, RemoveOne(s, r, ek), f);
  }

  lemma {:induction false} RemoveLeavesOthers(s: State, r: Resident, eks: seq<uint64>, f: string)
    requires f != r.engineId
    ensures ViewOf(Remove(s, r, eks), f) == ViewOf(s, f)
    decreases |eks|
  {
    if eks != [] {
      RemoveLeavesOthers(s, r, Init(eks), f);
      RemoveOneLeavesOthers(Remove(s, r, Init(eks)), r, Last(eks), f);
    }
  }

  /**
   * Engine isolation: whatever an engine does, and whatever state the index is in,
   * every other engine's holders, bridges and key set stay as they were.
   */
  lemma OthersKeepTheirView(s: State, e: string, op: Op, f: string)
    requires f != e
    ensures ViewOf(Step(s, e, op), f) == ViewOf(s, f)
  {
    var t := Step(s, e, op);
    match op {
      case RemoveOp(dp, tier, eks) =>
        RemoveLeavesOthers(s, Resident(e, dp, tier), eks, f);
      case StoreOp(_, _, eks, rks) =>
        forall ek: uint64
          ensures BridgeKey(f, ek) in t.bridge <==> BridgeKey(f, ek) in s.bridge
          ensures BridgeKey(f, ek) in s.bridge ==> t.bridge[BridgeKey(f, ek)] == s.bridge[BridgeKey(f, ek)]
        {
          BridgeTailKeys(s.bridge, e, eks, rks, BridgeKey(f, ek));
        }
        SameView(s, t, f);
      case CopyOp(_, _, _) =>
        SameView(s, t, f);
      case ClearOp(tier) =>
        forall rk, dp, tr
          ensures Resident(f, dp, tr) in Holders(t, rk) <==> Resident(f, dp, tr) in Holders(s, rk)
        {
          assert Resident(f, dp, tr) in Surviving(s, e, tier, rk) <==> Resident(f, dp, tr) in Holders(s, rk);
        }
        SameView(s, t, f);
    }
  }

  lemma SameHoldsSameBlock(s: State, t: State, e: string, rk: uint64)
    requires ViewOf(s, e).holds == ViewOf(t, e).holds
    ensures BlockOf(s, e, rk) == BlockOf(t, e, rk)
  {
    ViewMembers(s, e);
    ViewMembers(t, e);
    BlockMembers(s, e, rk);
    BlockMembers(t, e, rk);
    forall x: Spot ensures x in BlockOf(s, e, rk) <==> x in BlockOf(t, e, rk) {
      assert x == Spot(x.dpRank, x.tier);
      assert Hold(rk, x.dpRank, x.tier) in ViewOf(s, e).holds <==> Hold(rk, x.dpRank, x.tier) in ViewOf(t, e).holds;
    }
  }

  /** What a query answers for an engine is a function of the engine's own holds. */
  lemma SameHoldsSameHit(s: State, t: State, e: string, keys: seq<uint64>, blockSize: int)
    requires ViewOf(s, e).holds == ViewOf(t, e).holds
    ensures var q, r := QueryResult(s, keys, blockSize), QueryResult(t, keys, blockSize);
            (e in q <==> e in r) && (e in q ==> q[e] == r[e])
  {
    forall i | 0 <= i < |keys| ensures BlockOf(s, e, keys[i]) == BlockOf(t, e, keys[i]) {
      SameHoldsSameBlock(s, t, e, keys[i]);
    }
    assert BlocksOf(s, e, keys) == BlocksOf(t, e, keys);
    if keys != [] {
      BlockMembers(s, e, keys[0]);
      BlockMembers(t, e, keys[0]);
      EngineListed(s, keys, e);
      EngineListed(t, keys, e);
    }
  }

  /** And so an operation on one engine changes no other engine's answer to any query. */
  lemma OthersKeepTheirHits(s: State, e: string, op: Op, f: string, keys: seq<uint64>, blockSize: int)
    requires f != e
    ensures var q, r := QueryResult(s, keys, blockSize), QueryResult(Step(s, e, op), keys, blockSize);
            (f in q <==> f in r) && (f in q ==> q[f] == r[f])
  {
    OthersKeepTheirView(s, e, op, f);
    SameHoldsSameHit(s, Step(s, e, op), f, keys, blockSize);
  }

  // ------------------------------------------------------------- locality

  predicate Dangling(v: View, ek: uint64) {
    ek in v.bridge && !Held(v, v.bridge[ek])
  }

  lemma RemoveOneIsLocal(s: State, e: string, dp: int, tier: string, ek: uint64)
    requires !Dangling(ViewOf(s, e), ek)
    ensures ViewOf(RemoveOne(s, Resident(e, dp, tier), ek), e) == RemoveOneOf(ViewOf(s, e), dp, tier, ek)
  {
    var r := Resident(e, dp, tier);
    var t, v := RemoveOne(s, r, ek), ViewOf(s, e);
    ViewMembers(s, e);
    if ek in v.bridge {
      var rk := v.bridge[ek];
      assert rk in s.byRequestKey;
      var left := v.(holds := v.holds - {Hold(rk, dp, tier)});
      assert forall dp', tier' {:trigger Hold(rk, dp', tier')} ::
          Hold(rk, dp', tier') in left.holds <==> Resident(e, dp', tier') in Holders(s, rk) - {r};
      assert Held(left, rk) <==> HasEngine(Holders(s, rk) - {r}, e) by {
        if Held(left, rk) {
          var h :| h in left.holds && h.requestKey == rk;
          assert Hold(rk, h.dpRank, h.tier) in left.holds;
          assert Resident(e, h.dpRank, h.tier) in Holders(s, rk) - {r};
        }
        if HasEngine(Holders(s, rk) - {r}, e) {
          var q :| q in Holders(s, rk) - {r} && q.engineId == e;
          assert q == Resident(e, q.dpRank, q.tier);
          assert Hold(rk, q.dpRank, q.tier) in left.holds;
        }
      }
      ViewIs(t, e, RemoveOneOf(v, dp, tier, ek));
    }
  }

  /** No bridge followed by a remove of `eks` dangles at the time. */
  predicate SafeRemove(v: View, dp: int, tier: string, eks: seq<uint64>) {
    eks == [] || (SafeRemove(v, dp, tier, Init(eks)) && !Dangling(RemoveOf(v, dp, tier, Init(eks)), Last(eks)))
  }

  predicate SafeOp(v: View, op: Op) {
    op.RemoveOp? ==> SafeRemove(v, op.dpRank, op.tier, op.engineKeys)
  }

  /** No remove among an engine's own operations ever follows a dangling bridge. */
  predicate SafeRun(own: seq<Op>) {
    own == [] || (SafeRun(Init(own)) && SafeOp(RunView(Init(own)), Last(own)))
  }

  lemma {:induction false} RemoveIsLocal(s: State, e: string, dp: int, tier: string, eks: seq<uint64>)
    requires SafeRemove(ViewOf(s, e), dp, tier, eks)
    ensures ViewOf(Remove(s, Resident(e, dp, tier), eks), e) == RemoveOf(ViewOf(s, e), dp, tier, eks)
    decreases |eks|
  {
    if eks != [] {
      RemoveIsLocal(s, e, dp, tier, Init(eks));
      RemoveOneIsLocal(Remove(s, Resident(e, dp, tier), Init(eks)), e, dp, tier, Last(eks));
    }
  }

  // --------------------------------------------- the one-to-one discipline

  ghost predicate Injective(k: map<uint64, uint64>) {
    forall a, b :: a in k && b in k && k[a] == k[b] ==> a == b
  }

  /** Every tail-aligned pair of the two lists is an entry of `k`. */
  ghost predicate AlignedWith(k: map<uint64, uint64>, eks: seq<uint64>, rks: seq<uint64>)
    decreases |eks|
  {
    eks == [] || rks == [] ||
    (Last(eks) in k && k[Last(eks)] == Last(rks) && AlignedWith(k, Init(eks), Init(rks)))
  }

  /** The engine's hashes name request keys as `k` says; clears are of the whole engine. */
  ghost predicate OneToOneOp(k: map<uint64, uint64>, op: Op) {
    && (op.StoreOp? ==> AlignedWith(k, op.engineKeys, op.requestKeys))
    && (op.ClearOp? ==> op.tier == "")
  }

  ghost predicate OneToOne(k: map<uint64, uint64>, ops: seq<Op>) {
    Injective(k) && forall op :: op in ops ==> OneToOneOp(k, op)
  }

  ghost predicate BridgedBy(k: map<uint64, uint64>, v: View) {
    forall ek :: ek in v.bridge ==> ek in k && v.bridge[ek] == k[ek] && Held(v, k[ek])
  }

  lemma {:induction false} BridgeTailIsAligned(k: map<uint64, uint64>, b: map<uint64, uint64>, eks: seq<uint64>, rks: seq<uint64>)
    requires AlignedWith(k, eks, rks)
    ensures forall ek :: ek in BridgeTailOf(b, eks, rks) ==>
              || (ek in b && BridgeTailOf(b, eks, rks)[ek] == b[ek])
              || (ek in k && k[ek] in rks && BridgeTailOf(b, eks, rks)[ek] == k[ek])
    decreases |eks|
  {
    if eks != [] && rks != [] {
      BridgeTailIsAligned(k, b, Init(eks), Init(rks));
      assert forall x :: x in Init(rks) || x == Last(rks) ==> x in rks;
    }
  }

  lemma RemoveOneOfKeepsBridged(k: map<uint64, uint64>, v: View, dp: int, tier: string, ek: uint64)
    requires Injective(k) && BridgedBy(k, v)
    ensures BridgedBy(k, RemoveOneOf(v, dp, tier, ek))
  {
    var w := RemoveOneOf(v, dp, tier, ek);
    forall x | x in w.bridge ensures x in k && w.bridge[x] == k[x] && Held(w, k[x]) {
      if x != ek && ek in v.bridge {
        var h :| h in v.holds && h.requestKey == k[x];
        assert k[x] != k[ek];
        assert h in w.holds;
      }
    }
  }

  lemma {:induction false} RemoveOfKeepsBridged(k: map<uint64, uint64>, v: View, dp: int, tier: string, eks: seq<uint64>)
    requires Injective(k) && BridgedBy(k, v)
    ensures BridgedBy(k, RemoveOf(v, dp, tier, eks))
    decreases |eks|
  {
    if eks != [] {
      RemoveOfKeepsBridged(k, v, dp, tier, Init(eks));
      RemoveOneOfKeepsBridged(k, RemoveOf(v, dp, tier, Init(eks)), dp, tier, Last(eks));
    }
  }

  lemma ViewStepKeepsBridged(k: map<uint64, uint64>, v: View, op: Op)
    requires Injective(k) && BridgedBy(k, v) && OneToOneOp(k, op)
    ensures BridgedBy(k, ViewStep(v, op))
  {
    var w := ViewStep(v, op);
    match op {
      case RemoveOp(dp, tier, eks) => RemoveOfKeepsBridged(k, v, dp, tier, eks);
      case StoreOp(dp, tier, eks, rks) =>
        BridgeTailIsAligned(k, v.bridge, eks, rks);
        forall x | x in w.bridge ensures x in k && w.bridge[x] == k[x] && Held(w, k[x]) {
          if x in v.bridge && w.bridge[x] == v.bridge[x] {
            var h :| h in v.holds && h.requestKey == k[x];
            assert h in w.holds;
          } else {
            assert Hold(k[x], dp, tier) in w.holds;
          }
        }
      case CopyOp(_, _, _) =>
        forall x | x in w.bridge ensures Held(w, k[x]) {
          var h :| h in v.holds && h.requestKey == k[x];
          assert h in w.holds;
        }
      case ClearOp(_) =>
    }
  }

  lemma {:induction false} BridgedRemoveIsSafe(k: map<uint64, uint64>, v: View, dp: int, tier: string, eks: seq<uint64>)
    requires Injective(k) && BridgedBy(k, v)
    ensures SafeRemove(v, dp, tier, eks)
    decreases |eks|
  {
    if eks != [] {
      BridgedRemoveIsSafe(k, v, dp, tier, Init(eks));
      RemoveOfKeepsBridged(k, v, dp, tier, Init(eks));
    }
  }

  lemma BridgedIsSafe(k: map<uint64, uint64>, v: View, op: Op)
    requires Injective(k) && BridgedBy(k, v)
    ensures SafeOp(v, op)
  {
    if op.RemoveOp? {
      BridgedRemoveIsSafe(k, v, op.dpRank, op.tier, op.engineKeys);
    }
  }

  /** The one-to-one discipline never leaves a bridge dangling. */
  lemma {:induction false} OneToOneIsSafe(k: map<uint64, uint64>, own: seq<Op>)
    requires OneToOne(k, own)
    ensures SafeRun(own) && BridgedBy(k, RunView(own))
    decreases |own|
  {
    if own != [] {
      assert forall op :: op in Init(own) || op == Last(own) ==> op in own;
      OneToOneIsSafe(k, Init(own));
      BridgedIsSafe(k, RunView(Init(own)), Last(own));
      ViewStepKeepsBridged(k, RunView(Init(own)), Last(own));
    }
  }

  lemma {:induction false} BridgeTailProjects(s: State, e: string, eks: seq<uint64>, rks: seq<uint64>, ek: uint64)
    ensures var b, v := BridgeTail(s.bridge, e, eks, rks), BridgeTailOf(ViewOf(s, e).bridge, eks, rks);
            && (BridgeKey(e, ek) in b <==> ek in v)
            && (ek in v ==> b[BridgeKey(e, ek)] == v[ek])
    decreases |eks|
  {
    ViewMembers(s, e);
    if eks != [] && rks != [] {
      BridgeTailProjects(s, e, Init(eks), Init(rks), ek);
    }
  }

  lemma StoredKeysAreLocal(s: State, e: string, dp: int, tier: string, rks: seq<uint64>)
    ensures ViewOf(StoredKeys(s, Resident(e, dp, tier), rks), e) == StoredView(ViewOf(s, e), dp, tier, rks)
  {
    var t := StoredKeys(s, Resident(e, dp, tier), rks);
    var w := StoredView(ViewOf(s, e), dp, tier, rks);
    ViewMembers(s, e);
    forall rk, dp', tier'
      ensures Hold(rk, dp', tier') in w.holds <==> Resident(e, dp', tier') in Holders(t, rk)
    {
      assert Hold(rk, dp', tier') in w.holds <==>
             Hold(rk, dp', tier') in ViewOf(s, e).holds || (rk in rks && dp' == dp && tier' == tier);
    }
    ViewIs(t, e, w);
  }

  lemma StoreIsLocal(s: State, e: string, dp: int, tier: string, eks: seq<uint64>, rks: seq<uint64>)
    requires rks != []
    ensures var v := ViewOf(s, e);
            ViewOf(Store(s, Resident(e, dp, tier), eks, rks), e) ==
            StoredView(v, dp, tier, rks).(bridge := BridgeTailOf(v.bridge, eks, rks))
  {
    var r := Resident(e, dp, tier);
    var t := StoredKeys(s, r, rks);
    StoredKeysAreLocal(s, e, dp, tier, rks);
    ViewMembers(t, e);
    forall ek: uint64 {
      BridgeTailProjects(s, e, eks, rks, ek);
    }
    ViewIs(Store(s, r, eks, rks), e,
           ViewOf(t, e).(bridge := BridgeTailOf(ViewOf(s, e).bridge, eks, rks)));
  }

  lemma CopyIsLocal(s: State, e: string, dp: int, tier: string, eks: seq<uint64>)
    ensures var v := ViewOf(s, e);
            ViewOf(StoreByEngineKeys(s, Resident(e, dp, tier), eks), e) ==
            if ResolvableIn(v, eks) then StoredView(v, dp, tier, ResolvedIn(v, eks)) else v
  {
    ViewMembers(s, e);
    assert Resolvable(s, e, eks) <==> ResolvableIn(ViewOf(s, e), eks);
    if Resolvable(s, e, eks) {
      assert Resolved(s, e, eks) == ResolvedIn(ViewOf(s, e), eks);
      StoredKeysAreLocal(s, e, dp, tier, Resolved(s, e, eks));
    }
  }

  lemma ClearIsLocal(s: State, e: string, tier: string)
    requires WellFormed(s)
    ensures ViewOf(Clear(s, e, tier), e) == ViewStep(ViewOf(s, e), ClearOp(tier))
  {
    var t, w := Clear(s, e, tier), ViewStep(ViewOf(s, e), ClearOp(tier));
    ViewMembers(s, e);
    forall rk, dp, tr
      ensures Hold(rk, dp, tr) in w.holds <==> Resident(e, dp, tr) in Holders(t, rk)
    {
      HoldersAfterClear(s, e, tier, rk);
      assert Resident(e, dp, tr) in Holders(s, rk) ==> rk in EngineKeys(s, Resident(e, dp, tr).engineId);
      assert Hold(rk, dp, tr) in ViewOf(s, e).holds <==> Resident(e, dp, tr) in Holders(s, rk);
    }
    forall ek ensures BridgeKey(e, ek) in s.bridge ==> e in s.byEngine {
      assert BridgeKey(e, ek) in s.bridge ==> BridgeKey(e, ek).engineId in s.byEngine;
    }
    ViewIs(t, e, w);
  }

  lemma StepIsLocal(s: State, e: string, op: Op)
    requires WellFormed(s) && SafeOp(ViewOf(s, e), op)
    ensures ViewOf(Step(s, e, op), e) == ViewStep(ViewOf(s, e), op)
  {
    match op {
      case RemoveOp(dp, tier, eks) =>
        RemoveIsLocal(s, e, dp, tier, eks);
      case StoreOp(dp, tier, eks, rks) =>
        if rks != [] {
          StoreIsLocal(s, e, dp, tier, eks, rks);
        }
      case CopyOp(dp, tier, eks) =>
        CopyIsLocal(s, e, dp, tier, eks);
      case ClearOp(tier) =>
        ClearIsLocal(s, e, tier);
    }
  }

  // ------------------------------------------------------------ whole runs

  /** The operations of engine `e`, in order. */
  function SubStream(ops: seq<EngineOp>, e: string): seq<Op> {
    if ops == [] then []
    else
      var front := SubStream(Init(ops), e);
      if Last(ops).engineId == e then front + [Last(ops).op] else front
  }

  /**
   * An engine none of whose removes follows a dangling bridge ends with the view its own
   * stream produces, however it is interleaved with other engines, safe or not.
   */
  lemma {:induction false} SafeRunProjects(ops: seq<EngineOp>, e: string)
    requires SafeRun(SubStream(ops, e))
    ensures ViewOf(RunOps(ops), e) == RunView(SubStream(ops, e))
    decreases |ops|
  {
    if ops != [] {
      var front, o := Init(ops), Last(ops);
      var sub := SubStream(front, e);
      if o.engineId == e {
        assert Init(SubStream(ops, e)) == sub && Last(SubStream(ops, e)) == o.op;
        SafeRunProjects(front, e);
        RunsAreWellFormed(front);
        StepIsLocal(RunOps(front), e, o.op);
      } else {
        SafeRunProjects(front, e);
        OthersKeepTheirView(RunOps(front), o.engineId, o.op, e);
      }
    }
  }

  /** In particular an engine that keeps to the one-to-one discipline. */
  lemma RunProjects(k: map<uint64, uint64>, ops: seq<EngineOp>, e: string)
    requires OneToOne(k, SubStream(ops, e))
    ensures ViewOf(RunOps(ops), e) == RunView(SubStream(ops, e))
    ensures BridgedBy(k, ViewOf(RunOps(ops), e))
  {
    OneToOneIsSafe(k, SubStream(ops, e));
    SafeRunProjects(ops, e);
  }

  lemma ViewsDetermineState(s: State, t: State)
    requires WellFormed(s) && WellFormed(t)
    requires forall e :: ViewOf(s, e) == ViewOf(t, e)
    ensures s == t
  {
    forall rk ensures Holders(s, rk) == Holders(t, rk) {
      forall r: Resident ensures r in Holders(s, rk) <==> r in Holders(t, rk) {
        ViewMembers(s, r.engineId);
        ViewMembers(t, r.engineId);
        assert r == Resident(r.engineId, r.dpRank, r.tier);
        assert ViewOf(s, r.engineId) == ViewOf(t, r.engineId);
        var h := Hold(rk, r.dpRank, r.tier);
        assert h in ViewOf(s, r.engineId).holds <==> h in ViewOf(t, r.engineId).holds;
      }
    }
    forall rk ensures rk in s.byRequestKey <==> rk in t.byRequestKey {
      assert Holders(s, rk) == Holders(t, rk);
    }
    forall rk | rk in s.byRequestKey ensures s.byRequestKey[rk] == t.byRequestKey[rk] {
      assert Holders(s, rk) == Holders(t, rk);
    }
    assert s.byRequestKey == t.byRequestKey;
    forall bk: BridgeKey ensures (bk in s.bridge <==> bk in t.bridge) && (bk in s.bridge ==> s.bridge[bk] == t.bridge[bk]) {
      ViewMembers(s, bk.engineId);
      ViewMembers(t, bk.engineId);
      assert ViewOf(s, bk.engineId) == ViewOf(t, bk.engineId);
      assert bk == BridgeKey(bk.engineId, bk.engineKey);
    }
    assert s.bridge == t.bridge;
    forall e ensures (e in s.byEngine <==> e in t.byEngine) && (e in s.byEngine ==> s.byEngine[e] == t.byEngine[e]) {
      assert ViewOf(s, e).keys == ViewOf(t, e).keys;
    }
    assert s.byEngine == t.byEngine;
  }

  /** Any two interleavings of the same safe per-engine streams end in the same index. */
  lemma SafeInterleavingsAgree(ops: seq<EngineOp>, ops': seq<EngineOp>)
    requires forall e :: SubStream(ops, e) == SubStream(ops', e)
    requires forall e :: SafeRun(SubStream(ops, e))
    ensures RunOps(ops) == RunOps(ops')
  {
    RunsAreWellFormed(ops);
    RunsAreWellFormed(ops');
    forall e ensures ViewOf(RunOps(ops), e) == ViewOf(RunOps(ops'), e) {
      assert SubStream(ops, e) == SubStream(ops', e) && SafeRun(SubStream(ops, e));
      SafeRunProjects(ops, e);
      SafeRunProjects(ops', e);
    }
    ViewsDetermineState(RunOps(ops), RunOps(ops'));
  }

  /** In particular of streams that each keep to the one-to-one discipline. */
  lemma InterleavingsAgree(k: string -> map<uint64, uint64>, ops: seq<EngineOp>, ops': seq<EngineOp>)
    requires forall e :: SubStream(ops, e) == SubStream(ops', e)
    requires forall e :: OneToOne(k(e), SubStream(ops, e))
    ensures RunOps(ops) == RunOps(ops')
  {
    forall e ensures SafeRun(SubStream(ops, e)) {
      OneToOneIsSafe(k(e), SubStream(ops, e));
    }
    SafeInterleavingsAgree(ops, ops');
  }

  lemma RunOpsSnoc(ops: seq<EngineOp>, e: string, op: Op)
    ensures RunOps(ops + [EngineOp(e, op)]) == Step(RunOps(ops), e, op)
  {
    assert Init(ops + [EngineOp(e, op)]) == ops;
  }

  // ------------------------------------------- the bridge tracks residency

  /** As OneToOneOp, and every stored block carries exactly one engine hash. */
  ghost predicate EqualCountsOp(k: map<uint64, uint64>, op: Op) {
    && (op.StoreOp? ==> |op.engineKeys| == |op.requestKeys| &&
                        forall i :: 0 <= i < |op.engineKeys| ==>
                          op.engineKeys[i] in k && k[op.engineKeys[i]] == op.requestKeys[i])
    && (op.ClearOp? ==> op.tier == "")
  }

  lemma {:induction false} EqualCountsAreAligned(k: map<uint64, uint64>, eks: seq<uint64>, rks: seq<uint64>)
    requires |eks| == |rks|
    requires forall i :: 0 <= i < |eks| ==> eks[i] in k && k[eks[i]] == rks[i]
    ensures AlignedWith(k, eks, rks)
    decreases |eks|
  {
    if eks != [] {
      EqualCountsAreAligned(k, Init(eks), Init(rks));
    }
  }

  ghost predicate Tracks(k: map<uint64, uint64>, v: View) {
    BridgedBy(k, v) && forall ek :: ek in k && Held(v, k[ek]) ==> ek in v.bridge
  }

  /** With equal counts, a store bridges each of its engine keys, and only those. */
  lemma {:induction false} BridgeTailEqualCounts(b: map<uint64, uint64>, eks: seq<uint64>, rks: seq<uint64>)
    requires |eks| == |rks|
    ensures forall ek :: ek in BridgeTailOf(b, eks, rks) <==> ek in b || ek in eks
    decreases |eks|
  {
    if eks != [] {
      BridgeTailEqualCounts(b, Init(eks), Init(rks));
      assert eks == Init(eks) + [Last(eks)];
    }
  }

  lemma RemoveOneOfTracks(k: map<uint64, uint64>, v: View, dp: int, tier: string, ek: uint64)
    requires Injective(k) && Tracks(k, v)
    ensures Tracks(k, RemoveOneOf(v, dp, tier, ek))
  {
    var w := RemoveOneOf(v, dp, tier, ek);
    RemoveOneOfKeepsBridged(k, v, dp, tier, ek);
    forall x | x in k && Held(w, k[x]) ensures x in w.bridge {
      var h :| h in w.holds && h.requestKey == k[x];
      assert h in v.holds;
      assert Held(v, k[x]);
    }
  }

  lemma {:induction false} RemoveOfTracks(k: map<uint64, uint64>, v: View, dp: int, tier: string, eks: seq<uint64>)
    requires Injective(k) && Tracks(k, v)
    ensures Tracks(k, RemoveOf(v, dp, tier, eks))
    decreases |eks|
  {
    if eks != [] {
      RemoveOfTracks(k, v, dp, tier, Init(eks));
      RemoveOneOfTracks(k, RemoveOf(v, dp, tier, Init(eks)), dp, tier, Last(eks));
    }
  }

  lemma ViewStepTracks(k: map<uint64, uint64>, v: View, op: Op)
    requires Injective(k) && Tracks(k, v) && EqualCountsOp(k, op)
    ensures Tracks(k, ViewStep(v, op)) && OneToOneOp(k, op)
  {
    var w := ViewStep(v, op);
    if op.StoreOp? {
      EqualCountsAreAligned(k, op.engineKeys, op.requestKeys);
    }
    ViewStepKeepsBridged(k, v, op);
    match op {
      case RemoveOp(dp, tier, eks) => RemoveOfTracks(k, v, dp, tier, eks);
      case StoreOp(dp, tier, eks, rks) =>
        BridgeTailEqualCounts(v.bridge, eks, rks);
        forall x | x in k && Held(w, k[x]) ensures x in w.bridge {
          var h :| h in w.holds && h.requestKey == k[x];
          if h in v.holds {
            assert Held(v, k[x]);
          } else {
            var i :| 0 <= i < |rks| && rks[i] == k[x];
            assert eks[i] in k && k[eks[i]] == k[x];
            assert eks[i] in eks;
          }
        }
      case CopyOp(dp, tier, eks) =>
        forall x | x in k && Held(w, k[x]) ensures x in w.bridge {
          var h :| h in w.holds && h.requestKey == k[x];
          if h !in v.holds {
            var rks := ResolvedIn(v, eks);
            var i :| 0 <= i < |rks| && rks[i] == k[x];
            assert eks[i] in eks && v.bridge[eks[i]] == k[eks[i]];
          } else {
            assert Held(v, k[x]);
          }
        }
      case ClearOp(_) =>
    }
  }

  lemma {:induction false} RunViewTracks(k: map<uint64, uint64>, ops: seq<Op>)
    requires Injective(k) && forall op :: op in ops ==> EqualCountsOp(k, op)
    ensures Tracks(k, RunView(ops)) && OneToOne(k, ops)
    decreases |ops|
  {
    if ops != [] {
      assert forall op :: op in Init(ops) || op == Last(ops) ==> op in ops;
      assert ops == Init(ops) + [Last(ops)];
      RunViewTracks(k, Init(ops));
      ViewStepTracks(k, RunView(Init(ops)), Last(ops));
    }
  }

  /**
   * The bridge tracks residency exactly. After any interleaved run in which engine
   * `e` names blocks one-to-one and with equal counts, one of its hashes is bridged
   * if and only if the engine still holds that block on some rank in some tier. So
   * eviction from the device keeps the bridge while a lower tier still has a copy.
   */
  lemma BridgeTracksResidency(k: map<uint64, uint64>, ops: seq<EngineOp>, e: string, ek: uint64)
    requires Injective(k) && forall op :: op in SubStream(ops, e) ==> EqualCountsOp(k, op)
    ensures var s := RunOps(ops);
            && (BridgeKey(e, ek) in s.bridge <==>
                ek in k && exists dp, tier :: Resident(e, dp, tier) in Holders(s, k[ek]))
            && (BridgeKey(e, ek) in s.bridge ==> s.bridge[BridgeKey(e, ek)] == k[ek])
  {
    var s := RunOps(ops);
    RunViewTracks(k, SubStream(ops, e));
    RunProjects(k, ops, e);
    ViewMembers(s, e);
    var v := ViewOf(s, e);
    if ek in k {
      if Held(v, k[ek]) {
        var r :| r in Holders(s, k[ek]) && r.engineId == e;
        assert r == Resident(e, r.dpRank, r.tier);
      }
      if dp, tier :| Resident(e, dp, tier) in Holders(s, k[ek]) {
        assert HasEngine(Holders(s, k[ek]), e);
      }
    }
  }
}
