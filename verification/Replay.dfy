/**
 * Replay overlap. After a reconnect the same batches can reach the listener twice.
 * ReplayIsHarmlessExactly reduces the question of what this does to the index to the
 * blocks its reports place and take; ReplayIsHarmless gives conditions under which it
 * does nothing; ReplayNeverInvents says what holds without any. Two histories show
 * that with a second tier, or with a child left behind its parent, blocks can be lost.
 */
module Replay {
  import opened Basics
  import opened ChainKeys
  import opened IndexState
  import opened EngineViews
  import opened Ingest
  import opened Listener
  import opened CacheRefinement

  /** What the index knows when `acts` are reported to it on top of `c`. */
  ghost function KnownFrom(c: Cache, acts: seq<Act>): Cache {
    if acts == [] then c else Effect(KnownFrom(c, Init(acts)), Last(acts))
  }

  /** What a real cache becomes when `acts` happen to it. */
  function CacheFrom(c: Cache, acts: seq<Act>): Cache {
    if acts == [] then c else CacheStep(CacheFrom(c, Init(acts)), Last(acts))
  }

  /** `acts` could really happen, one after the other, from cache `c`. */
  ghost predicate PossibleFrom(c: Cache, acts: seq<Act>) {
    acts == [] || (PossibleFrom(c, Init(acts)) && Resolves(CacheFrom(c, Init(acts)), Last(acts).op))
  }

  // ------------------------------------------------------ on reference caches

  /** Replaying never invents residency: what it leaves was there before. */
  lemma {:induction false} ReplayAddsNothing(c: Cache, last: Cache, acts: seq<Act>)
    ensures KnownFrom(last, acts) <= last + CacheFrom(c, acts)
    decreases |acts|
  {
    if acts != [] {
      ReplayAddsNothing(c, last, Init(acts));
    }
  }

  /** All blocks live on one rank and in one tier. */
  ghost predicate OnePlace(c: Cache, dp: int, tier: string) {
    forall b :: b in c ==> b.dpRank == dp && b.tier == tier
  }

  ghost predicate ActsInOnePlace(acts: seq<Act>, dp: int, tier: string) {
    forall a :: a in acts ==> a.report.dpRank == dp && a.tier == tier
  }

  /** With a block, its parent is held too. */
  ghost predicate PrefixClosed(c: Cache) {
    forall b :: b in c && |b.chain| > 1 ==> CacheBlock(Init(b.chain), b.dpRank, b.tier) in c
  }

  lemma {:induction false} AncestorHeld(c: Cache, parent: Chain, chunks: Chain, dp: int, tier: string)
    requires PrefixClosed(c) && parent != []
    requires CacheBlock(parent + chunks, dp, tier) in c
    ensures CacheBlock(parent, dp, tier) in c
    decreases |chunks|
  {
    if chunks == [] {
      assert parent + chunks == parent;
    } else {
      assert Init(parent + chunks) == parent + Init(chunks);
      AncestorHeld(c, parent, Init(chunks), dp, tier);
    }
  }

  /**
   * The heart of the argument: blocks that are cached both now (in the original
   * history) and at its end are known throughout the replay, because a report that
   * places such a block has its parent known as well.
   */
  lemma {:induction false} ReplayKeepsSurvivors(c: Cache, last: Cache, acts: seq<Act>, dp: int, tier: string)
    requires PossibleFrom(c, acts) && PrefixClosed(last)
    requires OnePlace(c, dp, tier) && OnePlace(last, dp, tier) && ActsInOnePlace(acts, dp, tier)
    ensures OnePlace(CacheFrom(c, acts), dp, tier) && OnePlace(KnownFrom(last, acts), dp, tier)
    ensures last * CacheFrom(c, acts) <= KnownFrom(last, acts)
    decreases |acts|
  {
    if acts == [] {
      assert last * c <= last;
    } else {
      var front, a := Init(acts), Last(acts);
      assert acts == front + [a];
      ReplayKeepsSurvivors(c, last, front, dp, tier);
      SurvivorsStep(CacheFrom(c, front), KnownFrom(last, front), last, a, dp, tier);
    }
  }

  lemma SurvivorsStep(now: Cache, known: Cache, last: Cache, a: Act, dp: int, tier: string)
    requires Resolves(now, a.op) && PrefixClosed(last)
    requires OnePlace(now, dp, tier) && OnePlace(known, dp, tier) && OnePlace(last, dp, tier)
    requires a.report.dpRank == dp && a.tier == tier
    requires last * now <= known
    ensures OnePlace(CacheStep(now, a), dp, tier) && OnePlace(Effect(known, a), dp, tier)
    ensures last * CacheStep(now, a) <= Effect(known, a)
  {
    forall b | b in last && b in CacheStep(now, a) ensures b in Effect(known, a) {
      match a.op
      case Computed(parent, chunks) =>
        if b !in now {
          var i :| 0 <= i < |chunks| && b == CacheBlock(NewChains(parent, chunks)[i], dp, tier);
          if parent != [] {
            AncestorHeld(last, parent, UpTo(chunks, i), dp, tier);
            CachedInOnePlace(now, parent, dp, tier);
            CachedInOnePlace(known, parent, dp, tier);
          }
        }
      case Copied(chains) =>
        if b !in now {
          CachedInOnePlace(now, b.chain, dp, tier);
        }
      case Evicted(_) =>
      case Dropped =>
    }
  }

  lemma CachedInOnePlace(c: Cache, p: Chain, dp: int, tier: string)
    requires OnePlace(c, dp, tier)
    ensures Cached(c, p) <==> CacheBlock(p, dp, tier) in c
  {
  }

  lemma ReplayRestores(c: Cache, acts: seq<Act>, dp: int, tier: string)
    requires PossibleFrom(c, acts) && OnePlace(c, dp, tier) && ActsInOnePlace(acts, dp, tier)
    requires PrefixClosed(CacheFrom(c, acts))
    ensures KnownFrom(CacheFrom(c, acts), acts) == CacheFrom(c, acts)
  {
    var last := CacheFrom(c, acts);
    StaysInOnePlace(c, acts, dp, tier);
    ReplayAddsNothing(c, last, acts);
    ReplayKeepsSurvivors(c, last, acts, dp, tier);
  }

  lemma {:induction false} StaysInOnePlace(c: Cache, acts: seq<Act>, dp: int, tier: string)
    requires OnePlace(c, dp, tier) && ActsInOnePlace(acts, dp, tier)
    ensures OnePlace(CacheFrom(c, acts), dp, tier)
    decreases |acts|
  {
    if acts != [] {
      assert acts == Init(acts) + [Last(acts)];
      StaysInOnePlace(c, Init(acts), dp, tier);
    }
  }

  // ------------------------------------------------------- gentle eviction

  /** No eviction takes a block whose child stays behind. */
  ghost predicate GentleStep(c: Cache, a: Act) {
    a.op.Evicted? ==>
      forall b :: b in CacheStep(c, a) && |b.chain| > 1 && CacheBlock(Init(b.chain), b.dpRank, b.tier) in c ==>
        CacheBlock(Init(b.chain), b.dpRank, b.tier) in CacheStep(c, a)
  }

  ghost predicate Gentle(acts: seq<Act>) {
    acts == [] || (Gentle(Init(acts)) && GentleStep(CacheAfter(Init(acts)), Last(acts)))
  }

  lemma {:induction false} GentleIsPrefixClosed(w: World, acts: seq<Act>, dp: int, tier: string)
    requires Faithful(w, acts) && Gentle(acts) && ActsInOnePlace(acts, dp, tier)
    ensures PrefixClosed(CacheAfter(acts)) && OnePlace(CacheAfter(acts), dp, tier)
    decreases |acts|
  {
    if acts != [] {
      var front, a := Init(acts), Last(acts);
      assert ActsInOnePlace(front, dp, tier) && a in acts by {
        assert acts == front + [a];
      }
      GentleIsPrefixClosed(w, front, dp, tier);
      StepKeepsPrefixClosed(CacheAfter(front), a, dp, tier);
    }
  }

  lemma StepKeepsPrefixClosed(c: Cache, a: Act, dp: int, tier: string)
    requires PrefixClosed(c) && OnePlace(c, dp, tier) && Resolves(c, a.op) && GentleStep(c, a)
    requires a.report.dpRank == dp && a.tier == tier
    ensures PrefixClosed(CacheStep(c, a)) && OnePlace(CacheStep(c, a), dp, tier)
  {
    forall b | b in CacheStep(c, a) && |b.chain| > 1
      ensures CacheBlock(Init(b.chain), b.dpRank, b.tier) in CacheStep(c, a)
    {
      match a.op
      case Computed(parent, chunks) =>
        if b !in c {
          var i :| 0 <= i < |chunks| && b == CacheBlock(NewChains(parent, chunks)[i], dp, tier);
          if i > 0 {
            assert Init(b.chain) == NewChains(parent, chunks)[i - 1];
          } else {
            assert Init(b.chain) == parent;
            CachedInOnePlace(c, parent, dp, tier);
          }
        }
      case Copied(chains) =>
        if b !in c {
          CachedInOnePlace(c, b.chain, dp, tier);
        }
      case Evicted(_) =>
      case Dropped =>
    }
  }

  // ------------------------------------------------------ on the index itself

  lemma {:induction false} KnownAppend(acts: seq<Act>, more: seq<Act>)
    ensures KnownAfter(acts + more) == KnownFrom(KnownAfter(acts), more)
    decreases |more|
  {
    if more == [] {
      assert acts + more == acts;
    } else {
      KnownAppend(acts, Init(more));
      assert Init(acts + more) == acts + Init(more);
    }
  }

  lemma {:induction false} CacheAppend(acts: seq<Act>, more: seq<Act>)
    ensures CacheAfter(acts + more) == CacheFrom(CacheAfter(acts), more)
    decreases |more|
  {
    if more == [] {
      assert acts + more == acts;
    } else {
      CacheAppend(acts, Init(more));
      assert Init(acts + more) == acts + Init(more);
    }
  }

  lemma {:induction false} FaithfulSplit(w: World, acts: seq<Act>, more: seq<Act>)
    requires Faithful(w, acts + more)
    ensures Faithful(w, acts) && PossibleFrom(CacheAfter(acts), more)
    decreases |more|
  {
    if more == [] {
      assert acts + more == acts;
    } else {
      assert Init(acts + more) == acts + Init(more);
      FaithfulSplit(w, acts, Init(more));
      CacheAppend(acts, Init(more));
    }
  }

  /** Delivering the reports of `acts` (again) after a history. */
  function Redelivered(e: string, acts: seq<Act>): seq<Happening> {
    seq(|acts|, i requires 0 <= i < |acts| => Happening(e, acts[i]))
  }

  lemma {:induction false} ActsOfRedelivery(history: seq<Happening>, e: string, acts: seq<Act>, f: string)
    ensures ActsOf(history + Redelivered(e, acts), f) ==
            if f == e then ActsOf(history, e) + acts else ActsOf(history, f)
    decreases |acts|
  {
    var more := history + Redelivered(e, acts);
    if acts == [] {
      assert more == history;
    } else {
      ActsOfRedelivery(history, e, Init(acts), f);
      assert Init(more) == history + Redelivered(e, Init(acts));
      assert ActsOf(history, e) + Init(acts) + [Last(acts)] == ActsOf(history, e) + acts;
    }
  }

  lemma RedeliveryLeavesOthers(scheme: Scheme, history: seq<Happening>, e: string, acts: seq<Act>, f: string)
    requires f != e
    ensures ViewOf(IngestRun(scheme, Deliveries(history + Redelivered(e, acts))), f) ==
            ViewOf(IngestRun(scheme, Deliveries(history)), f)
  {
    var more := Deliveries(Redelivered(e, acts));
    assert Deliveries(history + Redelivered(e, acts)) == Deliveries(history) + more;
    OthersReports(scheme, Deliveries(history), more, f);
  }

  /** The engine's part of the index after its stream and a redelivered suffix of it. */
  lemma RedeliveryIsKnown(w: World, history: seq<Happening>, e: string, n: nat)
    requires CollisionFree(w) && Faithful(w, ActsOf(history, e)) && n <= |ActsOf(history, e)|
    ensures var acts := ActsOf(history, e);
            var s := IngestRun(w.scheme, Deliveries(history));
            var t := IngestRun(w.scheme, Deliveries(history + Redelivered(e, acts[n..])));
            && Refines(w, CacheAfter(acts), ViewOf(s, e))
            && Refines(w, KnownFrom(CacheAfter(acts), acts[n..]), ViewOf(t, e))
  {
    var acts := ActsOf(history, e);
    var again := history + Redelivered(e, acts[n..]);
    FaithfulIsKnown(w, acts);
    assert forall a :: a in acts + acts[n..] ==> a in acts;
    StreamRefinesKnown(w, acts);
    StreamRefinesKnown(w, acts + acts[n..]);
    KnownAppend(acts, acts[n..]);
    ActsOfRedelivery(history, e, acts[n..], e);
    ReportsOfHistory(history, e);
    ReportsOfHistory(again, e);
    StreamsAreIsolated(w.scheme, Dictionary(w), Deliveries(history), e);
    StreamsAreIsolated(w.scheme, Dictionary(w), Deliveries(again), e);
  }

  lemma KnownAgainIsCached(acts: seq<Act>, n: nat)
    requires n <= |acts|
    ensures KnownFrom(CacheAfter(acts), acts[n..]) <= CacheAfter(acts)
  {
    assert acts == acts[..n] + acts[n..];
    CacheAppend(acts[..n], acts[n..]);
    ReplayAddsNothing(CacheAfter(acts[..n]), CacheAfter(acts), acts[n..]);
  }

  lemma RedeliveryAddsNoHold(w: World, history: seq<Happening>, e: string, n: nat)
    requires CollisionFree(w) && Faithful(w, ActsOf(history, e)) && n <= |ActsOf(history, e)|
    ensures ViewOf(IngestRun(w.scheme, Deliveries(history + Redelivered(e, ActsOf(history, e)[n..]))), e).holds <=
            ViewOf(IngestRun(w.scheme, Deliveries(history)), e).holds
  {
    var acts := ActsOf(history, e);
    RedeliveryIsKnown(w, history, e, n);
    KnownAgainIsCached(acts, n);
    FewerBlocksFewerHolds(w, KnownFrom(CacheAfter(acts), acts[n..]), CacheAfter(acts),
                          ViewOf(IngestRun(w.scheme, Deliveries(history + Redelivered(e, acts[n..]))), e),
                          ViewOf(IngestRun(w.scheme, Deliveries(history)), e));
  }

  /**
   * Whatever suffix of a faithful stream is delivered again, on any ranks and tiers,
   * and with any evictions, no engine gains a hold it did not have, and the other
   * engines keep exactly what they had.
   */
  lemma ReplayNeverInvents(w: World, history: seq<Happening>, e: string, n: nat)
    requires CollisionFree(w) && Faithful(w, ActsOf(history, e)) && n <= |ActsOf(history, e)|
    ensures var s := IngestRun(w.scheme, Deliveries(history));
            var t := IngestRun(w.scheme, Deliveries(history + Redelivered(e, ActsOf(history, e)[n..])));
            && (forall rk :: Holders(t, rk) <= Holders(s, rk))
            && (forall f :: f != e ==> ViewOf(t, f) == ViewOf(s, f))
  {
    var again := ActsOf(history, e)[n..];
    var s := IngestRun(w.scheme, Deliveries(history));
    var t := IngestRun(w.scheme, Deliveries(history + Redelivered(e, again)));
    RedeliveryAddsNoHold(w, history, e, n);
    forall f ensures f != e ==> ViewOf(t, f) == ViewOf(s, f) {
      if f != e {
        RedeliveryLeavesOthers(w.scheme, history, e, again, f);
      }
    }
    FewerHoldsFewerHolders(s, t);
  }

  lemma FewerHoldsFewerHolders(s: State, t: State)
    requires forall f :: ViewOf(t, f).holds <= ViewOf(s, f).holds
    ensures forall rk :: Holders(t, rk) <= Holders(s, rk)
  {
    forall rk, r: Resident | r in Holders(t, rk) ensures r in Holders(s, rk) {
      ViewMembers(s, r.engineId);
      ViewMembers(t, r.engineId);
      assert r == Resident(r.engineId, r.dpRank, r.tier);
      assert Hold(rk, r.dpRank, r.tier) in ViewOf(t, r.engineId).holds;
      assert ViewOf(t, r.engineId).holds <= ViewOf(s, r.engineId).holds;
    }
  }

  lemma FewerBlocksFewerHolds(w: World, c: Cache, d: Cache, v: View, u: View)
    requires SameBlocks(w, c, v) && SameBlocks(w, d, u) && c <= d
    ensures v.holds <= u.holds
  {
    forall h | h in v.holds ensures h in u.holds {
      var p :| p in w.universe && KeyOf(w, p) == h.requestKey;
      assert h == Hold(KeyOf(w, p), h.dpRank, h.tier);
      assert CacheBlock(p, h.dpRank, h.tier) in d;
    }
  }

  /** Two indexes agree on holders, bridges and every engine's key set. */
  ghost predicate SameContents(s: State, t: State) {
    s.byRequestKey == t.byRequestKey && s.bridge == t.bridge && forall e :: EngineKeys(s, e) == EngineKeys(t, e)
  }

  lemma SameCacheSameView(w: World, c: Cache, v: View, u: View)
    requires CollisionFree(w) && Refines(w, c, v) && Refines(w, c, u)
    ensures v.holds == u.holds && v.bridge == u.bridge
  {
    FewerBlocksFewerHolds(w, c, c, v, u);
    FewerBlocksFewerHolds(w, c, c, u, v);
    forall ek ensures ek in v.bridge <==> ek in u.bridge {
      assert ek in Dictionary(w) ==> (Held(v, Dictionary(w)[ek]) <==> Held(u, Dictionary(w)[ek]));
    }
    assert v.bridge == u.bridge;
  }

  lemma SameHoldsSameContents(s: State, t: State)
    requires WellFormed(s) && WellFormed(t) && Exact(s) && Exact(t)
    requires forall e :: ViewOf(s, e).holds == ViewOf(t, e).holds && ViewOf(s, e).bridge == ViewOf(t, e).bridge
    ensures SameContents(s, t)
  {
    forall rk ensures Holders(s, rk) == Holders(t, rk) {
      forall r: Resident ensures r in Holders(s, rk) <==> r in Holders(t, rk) {
        ViewMembers(s, r.engineId);
        ViewMembers(t, r.engineId);
        assert r == Resident(r.engineId, r.dpRank, r.tier);
        assert ViewOf(s, r.engineId).holds == ViewOf(t, r.engineId).holds;
        var h := Hold(rk, r.dpRank, r.tier);
        assert h in ViewOf(s, r.engineId).holds <==> h in ViewOf(t, r.engineId).holds;
      }
    }
    HoldersDetermineEntries(s, t);
    forall bk: BridgeKey
      ensures (bk in s.bridge <==> bk in t.bridge) && (bk in s.bridge ==> s.bridge[bk] == t.bridge[bk])
    {
      ViewMembers(s, bk.engineId);
      ViewMembers(t, bk.engineId);
      assert ViewOf(s, bk.engineId).bridge == ViewOf(t, bk.engineId).bridge;
      assert bk == BridgeKey(bk.engineId, bk.engineKey);
    }
    assert s.bridge == t.bridge;
    forall e ensures EngineKeys(s, e) == EngineKeys(t, e) {
      ExactKeys(s, e);
      ExactKeys(t, e);
    }
  }

  lemma HoldersDetermineEntries(s: State, t: State)
    requires WellFormed(s) && WellFormed(t)
    requires forall rk :: Holders(s, rk) == Holders(t, rk)
    ensures s.byRequestKey == t.byRequestKey
  {
    forall rk ensures rk in s.byRequestKey <==> rk in t.byRequestKey {
      assert Holders(s, rk) == Holders(t, rk);
    }
    forall rk | rk in s.byRequestKey ensures s.byRequestKey[rk] == t.byRequestKey[rk] {
      assert Holders(s, rk) == Holders(t, rk);
    }
    assert s.byRequestKey == t.byRequestKey;
  }

  lemma ExactKeys(s: State, e: string)
    requires WellFormed(s) && Exact(s)
    ensures forall rk :: rk in EngineKeys(s, e) <==> HasEngine(Holders(s, rk), e)
  {
    forall rk ensures rk in EngineKeys(s, e) <==> HasEngine(Holders(s, rk), e) {
      if HasEngine(Holders(s, rk), e) {
        var r :| r in Holders(s, rk) && r.engineId == e;
        assert rk in EngineKeys(s, r.engineId);
      }
    }
  }

  lemma SameHoldsSameCache(w: World, c: Cache, d: Cache, v: View, u: View)
    requires SameBlocks(w, c, v) && SameBlocks(w, d, u) && v.holds == u.holds
    ensures c == d
  {
    forall b: CacheBlock ensures b in c <==> b in d {
      assert b == CacheBlock(b.chain, b.dpRank, b.tier);
    }
  }

  /**
   * What a second delivery does to the index is decided on the reference cache: it leaves
   * holders, bridges and key sets as they were if and only if taking the repeated reports
   * on top of the final cache, skipping those whose parent or blocks are missing, leads
   * back to the final cache.
   */
  lemma ReplayIsHarmlessExactly(w: World, history: seq<Happening>, e: string, n: nat)
    requires CollisionFree(w) && Faithful(w, ActsOf(history, e)) && n <= |ActsOf(history, e)|
    ensures var acts := ActsOf(history, e);
            SameContents(IngestRun(w.scheme, Deliveries(history + Redelivered(e, acts[n..]))),
                         IngestRun(w.scheme, Deliveries(history)))
            <==> KnownFrom(CacheAfter(acts), acts[n..]) == CacheAfter(acts)
  {
    var acts := ActsOf(history, e);
    var s := IngestRun(w.scheme, Deliveries(history));
    var t := IngestRun(w.scheme, Deliveries(history + Redelivered(e, acts[n..])));
    RedeliveryIsKnown(w, history, e, n);
    if SameContents(t, s) {
      assert ViewOf(t, e).holds == ViewOf(s, e).holds;
      SameHoldsSameCache(w, KnownFrom(CacheAfter(acts), acts[n..]), CacheAfter(acts), ViewOf(t, e), ViewOf(s, e));
    }
    if KnownFrom(CacheAfter(acts), acts[n..]) == CacheAfter(acts) {
      IngestedIndexIsExact(w.scheme, Deliveries(history));
      IngestedIndexIsExact(w.scheme, Deliveries(history + Redelivered(e, acts[n..])));
      forall f ensures ViewOf(s, f).holds == ViewOf(t, f).holds && ViewOf(s, f).bridge == ViewOf(t, f).bridge {
        if f == e {
          SameCacheSameView(w, CacheAfter(acts), ViewOf(s, e), ViewOf(t, e));
        } else {
          RedeliveryLeavesOthers(w.scheme, history, e, acts[n..], f);
        }
      }
      SameHoldsSameContents(t, s);
    }
  }

  /**
   * Replay overlap is harmless. For an engine that reports one rank and tier, whose
   * reports were all resolvable the first time and which ends up holding, with every
   * block, its parent, delivering any suffix of its stream again leaves holders, bridges
   * and key sets as they were, although intermediate states differ and some of the
   * repeated reports are skipped.
   */
  lemma ReplayIsHarmless(w: World, history: seq<Happening>, e: string, n: nat, dp: int, tier: string)
    requires CollisionFree(w) && Faithful(w, ActsOf(history, e)) && n <= |ActsOf(history, e)|
    requires ActsInOnePlace(ActsOf(history, e), dp, tier) && PrefixClosed(CacheAfter(ActsOf(history, e)))
    ensures SameContents(IngestRun(w.scheme, Deliveries(history + Redelivered(e, ActsOf(history, e)[n..]))),
                         IngestRun(w.scheme, Deliveries(history)))
  {
    RestoredInOnePlace(w, ActsOf(history, e), n, dp, tier);
    ReplayIsHarmlessExactly(w, history, e, n);
  }

  lemma RestoredInOnePlace(w: World, acts: seq<Act>, n: nat, dp: int, tier: string)
    requires Faithful(w, acts) && n <= |acts| && ActsInOnePlace(acts, dp, tier) && PrefixClosed(CacheAfter(acts))
    ensures KnownFrom(CacheAfter(acts), acts[n..]) == CacheAfter(acts)
  {
    var before, suffix := acts[..n], acts[n..];
    assert acts == before + suffix;
    FaithfulSplit(w, before, suffix);
    CacheAppend(before, suffix);
    PrefixInOnePlace(before, dp, tier);
    ReplayRestores(CacheAfter(before), suffix, dp, tier);
  }

  /** In particular when no eviction ever takes a block with a child left behind. */
  lemma GentleReplayIsHarmless(w: World, history: seq<Happening>, e: string, n: nat, dp: int, tier: string)
    requires CollisionFree(w) && Faithful(w, ActsOf(history, e)) && n <= |ActsOf(history, e)|
    requires ActsInOnePlace(ActsOf(history, e), dp, tier) && Gentle(ActsOf(history, e))
    ensures SameContents(IngestRun(w.scheme, Deliveries(history + Redelivered(e, ActsOf(history, e)[n..]))),
                         IngestRun(w.scheme, Deliveries(history)))
  {
    GentleIsPrefixClosed(w, ActsOf(history, e), dp, tier);
    ReplayIsHarmless(w, history, e, n, dp, tier);
  }

  /** Where a block is after `acts` depends on where it was before only if they never touch it. */
  lemma {:induction false} Settled(c: Cache, d: Cache, acts: seq<Act>, b: CacheBlock)
    ensures || (b in CacheFrom(c, acts) <==> b in CacheFrom(d, acts))
            || ((b in CacheFrom(c, acts) <==> b in c) && (b in CacheFrom(d, acts) <==> b in d))
    decreases |acts|
  {
    if acts != [] {
      Settled(c, d, Init(acts), b);
    }
  }

  lemma {:induction false} UnskippedIsCache(c: Cache, acts: seq<Act>)
    requires PossibleFrom(c, acts)
    ensures KnownFrom(c, acts) == CacheFrom(c, acts)
    decreases |acts|
  {
    if acts != [] {
      UnskippedIsCache(c, Init(acts));
    }
  }

  /**
   * On any ranks and tiers and with any evictions, a second delivery of which no report
   * has to be skipped is harmless: only a skipped report can lose a block.
   */
  lemma UnskippedReplayIsHarmless(w: World, history: seq<Happening>, e: string, n: nat)
    requires CollisionFree(w) && Faithful(w, ActsOf(history, e)) && n <= |ActsOf(history, e)|
    requires PossibleFrom(CacheAfter(ActsOf(history, e)), ActsOf(history, e)[n..])
    ensures SameContents(IngestRun(w.scheme, Deliveries(history + Redelivered(e, ActsOf(history, e)[n..]))),
                         IngestRun(w.scheme, Deliveries(history)))
  {
    var acts := ActsOf(history, e);
    var before, suffix, last := acts[..n], acts[n..], CacheAfter(acts);
    assert acts == before + suffix;
    CacheAppend(before, suffix);
    UnskippedIsCache(last, suffix);
    forall b ensures b in CacheFrom(last, suffix) <==> b in last {
      Settled(CacheAfter(before), last, suffix, b);
    }
    ReplayIsHarmlessExactly(w, history, e, n);
  }

  /** The same for the listener: replayed batches whose events repeat a suffix change nothing. */
  lemma ReplayedFramesAreHarmless(w: World, history: seq<Happening>, e: string, n: nat, dp: int, tier: string,
                                  frames: seq<Frame>)
    requires CollisionFree(w) && Faithful(w, ActsOf(history, e)) && n <= |ActsOf(history, e)|
    requires ActsInOnePlace(ActsOf(history, e), dp, tier) && PrefixClosed(CacheAfter(ActsOf(history, e)))
    requires FrameDeliveries(e, frames) == Deliveries(Redelivered(e, ActsOf(history, e)[n..]))
    ensures var s := IngestRun(w.scheme, Deliveries(history));
            SameContents(DeliveredAll(Some(w.scheme), s, e, frames), s)
  {
    var again := Redelivered(e, ActsOf(history, e)[n..]);
    assert DeliveredAll(Some(w.scheme), IngestRun(w.scheme, Deliveries(history)), e, frames) ==
           IngestRun(w.scheme, Deliveries(history + again)) by {
      assert Deliveries(history + again) == Deliveries(history) + Deliveries(again);
      FramesExtendRun(w.scheme, Deliveries(history), e, frames);
    }
    ReplayIsHarmless(w, history, e, n, dp, tier);
  }

  lemma {:induction false} PrefixInOnePlace(acts: seq<Act>, dp: int, tier: string)
    requires ActsInOnePlace(acts, dp, tier)
    ensures OnePlace(CacheAfter(acts), dp, tier)
    decreases |acts|
  {
    if acts != [] {
      assert acts == Init(acts) + [Last(acts)];
      PrefixInOnePlace(Init(acts), dp, tier);
    }
  }

  // ------------------------------------------------- live reports after overlaps

  /** How a stream reaches the index: new reports, and repeats of all reports from one on. */
  datatype Segment =
    | Live(acts: seq<Act>)
    | Again(from: nat)

  /** What the engine really did. */
  function Real(segments: seq<Segment>): seq<Act> {
    if segments == [] then []
    else Real(Init(segments)) + if Last(segments).Live? then Last(segments).acts else []
  }

  /** What is reported to the index, repeats included. */
  function Heard(segments: seq<Segment>): seq<Act> {
    if segments == [] then []
    else Heard(Init(segments)) + Latest(segments)
  }

  function Latest(segments: seq<Segment>): seq<Act>
    requires segments != []
  {
    var before := Real(Init(segments));
    match Last(segments)
    case Live(acts) => acts
    case Again(n) => if n <= |before| then before[n..] else []
  }

  /** Each repeat, taken on top of the cache at its moment, leads back to that cache. */
  ghost predicate HarmlessOverlaps(segments: seq<Segment>) {
    segments == [] ||
    (HarmlessOverlaps(Init(segments)) &&
     (Last(segments).Again? ==>
        KnownFrom(CacheAfter(Real(Init(segments))), Latest(segments)) == CacheAfter(Real(Init(segments)))))
  }

  lemma {:induction false} HeardIsReal(segments: seq<Segment>)
    ensures forall a :: a in Heard(segments) ==> a in Real(segments)
    decreases |segments|
  {
    if segments != [] {
      HeardIsReal(Init(segments));
    }
  }

  lemma {:induction false} OverlapsAreForgotten(w: World, segments: seq<Segment>)
    requires Faithful(w, Real(segments)) && HarmlessOverlaps(segments)
    ensures KnownAfter(Heard(segments)) == CacheAfter(Real(segments))
    decreases |segments|
  {
    if segments != [] {
      var front, latest := Init(segments), Latest(segments);
      if Last(segments).Live? {
        FaithfulSplit(w, Real(front), latest);
        OverlapsAreForgotten(w, front);
        CacheAppend(Real(front), latest);
        UnskippedIsCache(CacheAfter(Real(front)), latest);
      } else {
        assert Real(segments) == Real(front);
        OverlapsAreForgotten(w, front);
      }
      KnownAppend(Heard(front), latest);
    }
  }

  /**
   * The index stays right across any number of overlaps. Take any run in which the reports
   * of `e` are those of a faithful history with harmless repeats anywhere in it, live reports
   * following each; the other engines may report anything. Then a query for any prompt
   * answers for `e` with exactly what its real cache holds of it, as if nothing had been
   * delivered twice.
   */
  lemma OverlapsKeepAnswersRight(w: World, run: seq<Delivery>, e: string, segments: seq<Segment>, tokens: seq<Token>)
    requires CollisionFree(w) && Faithful(w, Real(segments)) && HarmlessOverlaps(segments)
    requires ReportsOf(run, e) == ReportsIn(Heard(segments)) && InPlay(w, Chunks(tokens, w.blockSize))
    ensures Answers(w, IngestRun(w.scheme, run), e, CacheAfter(Real(segments)), tokens)
  {
    FaithfulIsKnown(w, Real(segments));
    HeardIsReal(segments);
    OverlapsAreForgotten(w, segments);
    StreamAnswers(w, run, e, Heard(segments), tokens);
  }

  lemma {:induction false} GentleSplit(acts: seq<Act>, more: seq<Act>)
    requires Gentle(acts + more)
    ensures Gentle(acts)
    decreases |more|
  {
    if more == [] {
      assert acts + more == acts;
    } else {
      assert Init(acts + more) == acts + Init(more);
      GentleSplit(acts, Init(more));
    }
  }

  /** On one rank and tier with gentle evictions every overlap is harmless, wherever it begins. */
  lemma {:induction false} GentleOverlapsAreHarmless(w: World, segments: seq<Segment>, dp: int, tier: string)
    requires Faithful(w, Real(segments)) && Gentle(Real(segments)) && ActsInOnePlace(Real(segments), dp, tier)
    ensures HarmlessOverlaps(segments)
    decreases |segments|
  {
    if segments != [] {
      var front := Init(segments);
      var more := if Last(segments).Live? then Last(segments).acts else [];
      assert Real(segments) == Real(front) + more;
      FaithfulSplit(w, Real(front), more);
      GentleSplit(Real(front), more);
      GentleOverlapsAreHarmless(w, front, dp, tier);
      if Last(segments).Again? && Last(segments).from <= |Real(front)| {
        GentleIsPrefixClosed(w, Real(front), dp, tier);
        RestoredInOnePlace(w, Real(front), Last(segments).from, dp, tier);
      }
    }
  }

  // ---------------------------------------------- why the conditions are needed

  function StoredReport(dp: int, hashes: seq<uint64>, parent: Option<uint64>, tokens: seq<Token>, blockSize: int,
                        medium: string): Report {
    Report(dp, BlockStored(hashes, parent, tokens, false, blockSize, medium, false, "", false, ""))
  }

  lemma Media()
    ensures MediumToTier("GPU") == "gpu" && MediumToTier("CPU") == "cpu" && IngestableSpecKind("")
  {
    CreditedTiers("GPU");
    CreditedTiers("CPU");
    assert ToUpper("GPU") == "GPU" && ToUpper("CPU") == "CPU" && ToLower("") == "";
  }

  lemma FaithfulSnoc(w: World, acts: seq<Act>, a: Act)
    requires Faithful(w, acts) && Possible(w, CacheAfter(acts), a.op) && Reported(w, a)
    ensures Faithful(w, acts + [a]) && CacheAfter(acts + [a]) == CacheStep(CacheAfter(acts), a)
  {
    assert Init(acts + [a]) == acts;
  }

  /** Three more acts, each possible where the one before it leads. */
  lemma FaithfulThree(w: World, acts: seq<Act>, x: Act, y: Act, z: Act)
    requires Faithful(w, acts) && Reported(w, x) && Reported(w, y) && Reported(w, z)
    requires var c := CacheAfter(acts);
             && Possible(w, c, x.op) && Possible(w, CacheStep(c, x), y.op)
             && Possible(w, CacheStep(CacheStep(c, x), y), z.op)
    ensures Faithful(w, acts + [x, y, z])
    ensures CacheAfter(acts + [x, y, z]) == CacheStep(CacheStep(CacheStep(CacheAfter(acts), x), y), z)
  {
    FaithfulSnoc(w, acts, x);
    FaithfulSnoc(w, acts + [x], y);
    FaithfulSnoc(w, acts + [x] + [y], z);
    assert acts + [x] + [y] + [z] == acts + [x, y, z];
  }

  lemma OneChunk(x: Chunk)
    requires x != []
    ensures Chunks(x, |x|) == [x]
  {
    assert x[..|x|] == x && Chunks(x[|x|..], |x|) == [];
  }

  lemma OwnHistory(e: string, acts: seq<Act>)
    ensures ActsOf(Redelivered(e, acts), e) == acts
  {
    assert [] + Redelivered(e, acts) == Redelivered(e, acts) && [] + acts == acts;
    ActsOfRedelivery([], e, acts, e);
  }

  lemma CachedBlockIsHeld(w: World, c: Cache, s: State, e: string, b: CacheBlock)
    requires SameBlocks(w, c, ViewOf(s, e)) && b in c
    ensures Resident(e, b.dpRank, b.tier) in Holders(s, KeyOf(w, b.chain))
  {
    ViewMembers(s, e);
    assert b == CacheBlock(b.chain, b.dpRank, b.tier);
    assert Hold(KeyOf(w, b.chain), b.dpRank, b.tier) in ViewOf(s, e).holds;
  }

  lemma UnknownBlockIsNotHeld(w: World, s: State, e: string, p: Chain)
    requires SameBlocks(w, {}, ViewOf(s, e)) && p in w.universe
    ensures !HasEngine(Holders(s, KeyOf(w, p)), e)
  {
    ViewMembers(s, e);
    CachedIsHeld(w, {}, ViewOf(s, e), p);
  }

  /** A second delivery from report `n` on that leaves nothing known loses what the engine holds. */
  lemma RedeliveryLoses(w: World, history: seq<Happening>, e: string, n: nat, b: CacheBlock)
    requires CollisionFree(w) && Faithful(w, ActsOf(history, e)) && n <= |ActsOf(history, e)|
    requires b in CacheAfter(ActsOf(history, e))
    requires KnownFrom(CacheAfter(ActsOf(history, e)), ActsOf(history, e)[n..]) == {}
    ensures Resident(e, b.dpRank, b.tier) in Holders(IngestRun(w.scheme, Deliveries(history)), KeyOf(w, b.chain))
    ensures var t := IngestRun(w.scheme, Deliveries(history + Redelivered(e, ActsOf(history, e)[n..])));
            !HasEngine(Holders(t, KeyOf(w, b.chain)), e)
  {
    RedeliveryIsKnown(w, history, e, n);
    CachedBlockIsHeld(w, CacheAfter(ActsOf(history, e)), IngestRun(w.scheme, Deliveries(history)), e, b);
    UnknownBlockIsNotHeld(w, IngestRun(w.scheme, Deliveries(history + Redelivered(e, ActsOf(history, e)[n..]))), e, b.chain);
  }

  lemma TwiceDelivered(e: string, acts: seq<Act>, n: nat)
    requires n <= |acts|
    ensures var history := Redelivered(e, acts);
            && ActsOf(history, e) == acts
            && Deliveries(history + Redelivered(e, ActsOf(history, e)[n..])) ==
               Deliveries(history) + Deliveries(Redelivered(e, acts[n..]))
  {
    OwnHistory(e, acts);
  }

  /** One block `x` that an engine calls `h`. */
  function OneBlockWorld(scheme: Scheme, h: uint64, x: Chunk): World {
    World(scheme, |x|, {[x]}, (c: Chain) => h)
  }

  /** Computed on the device, copied to the host, dropped there, copied there again, evicted from the device. */
  function TwoTierActs(dp: int, h: uint64, x: Chunk): seq<Act> {
    [Act(Computed([], [x]), "gpu", StoredReport(dp, [h], None, x, |x|, "GPU")), CopyToHost(dp, h, x)] +
    DropCopyDrop(dp, h, x)
  }

  function CopyToHost(dp: int, h: uint64, x: Chunk): Act {
    Act(Copied([[x]]), "cpu", StoredReport(dp, [h], None, [], 0, "CPU"))
  }

  function DropCopyDrop(dp: int, h: uint64, x: Chunk): seq<Act> {
    [Act(Evicted([[x]]), "cpu", Report(dp, BlockRemoved([h], "CPU"))), CopyToHost(dp, h, x),
     Act(Evicted([[x]]), "gpu", Report(dp, BlockRemoved([h], "GPU")))]
  }

  lemma TwoTierSteps(dp: int, h: uint64, x: Chunk)
    ensures var onGpu, onCpu := CacheBlock([x], dp, "gpu"), CacheBlock([x], dp, "cpu");
            var copy, acts := CopyToHost(dp, h, x), DropCopyDrop(dp, h, x);
            && onGpu != onCpu
            && CacheStep({onGpu}, copy) == {onGpu, onCpu} && Resolves({onGpu}, copy.op) && !Resolves({}, copy.op)
            && CacheStep({onGpu, onCpu}, acts[0]) == {onGpu} && CacheStep({onCpu}, acts[0]) == {}
            && CacheStep({onGpu, onCpu}, acts[2]) == {onCpu} && CacheStep({}, acts[2]) == {}
  {
    var onGpu := CacheBlock([x], dp, "gpu");
    assert "gpu"[0] != "cpu"[0];
    PlacedOne([x], dp, "gpu");
    PlacedOne([x], dp, "cpu");
    assert onGpu in {onGpu} && Cached({onGpu}, [x]);
    assert [x] in [[x]] && !Cached({}, [x]);
  }

  lemma ComputedAndCopied(scheme: Scheme, dp: int, h: uint64, x: Chunk)
    requires x != []
    ensures var w, acts := OneBlockWorld(scheme, h, x), TwoTierActs(dp, h, x);
            && Faithful(w, [acts[0], acts[1]])
            && CacheAfter([acts[0], acts[1]]) == {CacheBlock([x], dp, "gpu"), CacheBlock([x], dp, "cpu")}
  {
    var w, acts := OneBlockWorld(scheme, h, x), TwoTierActs(dp, h, x);
    Media();
    OneChunk(x);
    TwoTierSteps(dp, h, x);
    assert NamesOf(w, [[x]]) == [h];
    assert NewChains([], [x]) == [[x]] by {
      assert [] + UpTo([x], 0) == [x];
    }
    PlacedOne([x], dp, "gpu");
    FaithfulSnoc(w, [], acts[0]);
    assert [] + [acts[0]] == [acts[0]];
    FaithfulSnoc(w, [acts[0]], acts[1]);
    assert [acts[0]] + [acts[1]] == [acts[0], acts[1]];
  }

  lemma TwoTierActsAreFaithful(scheme: Scheme, dp: int, h: uint64, x: Chunk)
    requires x != []
    ensures var w := OneBlockWorld(scheme, h, x);
            CollisionFree(w) && Faithful(w, TwoTierActs(dp, h, x))
    ensures CacheAfter(TwoTierActs(dp, h, x)) == {CacheBlock([x], dp, "cpu")}
  {
    var w, acts, d := OneBlockWorld(scheme, h, x), TwoTierActs(dp, h, x), DropCopyDrop(dp, h, x);
    Media();
    ComputedAndCopied(scheme, dp, h, x);
    TwoTierSteps(dp, h, x);
    assert NamesOf(w, [[x]]) == [h];
    FaithfulThree(w, [acts[0], acts[1]], d[0], d[1], d[2]);
    assert [acts[0], acts[1]] + [d[0], d[1], d[2]] == acts;
  }

  /**
   * With two tiers a replay can lose a block. The engine computes a block on the device,
   * copies it to the host, drops that copy, makes another one and then evicts the block
   * from the device; it is left with the host copy. When the last three reports come
   * again, the first of them takes that copy, the second no longer resolves, and the
   * index ends up without the block. This is so for every hash function and block.
   */
  lemma TwoTiersCanLoseABlock(scheme: Scheme, e: string, dp: int, h: uint64, x: Chunk)
    requires x != []
    ensures var acts, rk := TwoTierActs(dp, h, x), scheme.hash(scheme.seed, x);
            var run, again := Deliveries(Redelivered(e, acts)), Deliveries(Redelivered(e, acts[2..]));
            && Faithful(OneBlockWorld(scheme, h, x), acts)
            && Resident(e, dp, "cpu") in Holders(IngestRun(scheme, run), rk)
            && !HasEngine(Holders(IngestRun(scheme, run + again), rk), e)
  {
    var w, acts, onCpu := OneBlockWorld(scheme, h, x), TwoTierActs(dp, h, x), CacheBlock([x], dp, "cpu");
    TwoTierActsAreFaithful(scheme, dp, h, x);
    TwoTierSteps(dp, h, x);
    var d := DropCopyDrop(dp, h, x);
    assert acts[2..] == [d[0], d[1], d[2]];
    Unrolled({onCpu}, d[0], d[1], d[2]);
    TwiceDelivered(e, acts, 2);
    RedeliveryLoses(w, Redelivered(e, acts), e, 2, onCpu);
    KeyOfOne(scheme, x);
  }

  lemma KeyOfOne(scheme: Scheme, x: Chunk)
    ensures Fold(scheme.hash, scheme.seed, [x]) == scheme.hash(scheme.seed, x)
  {
    assert Init([x]) == [];
  }

  /** A block `x` that an engine calls `hx` and its child `y`, called `hy`. */
  function TwoBlockWorld(scheme: Scheme, hx: uint64, hy: uint64, x: Chunk, y: Chunk): World {
    World(scheme, |x|, {[x], [x, y]}, (c: Chain) => if c == [x] then hx else hy)
  }

  /** Both computed; then the child evicted, computed again on its parent, and the parent evicted. */
  function UngentleActs(dp: int, hx: uint64, hy: uint64, x: Chunk, y: Chunk): seq<Act> {
    [Act(Computed([], [x, y]), "gpu", StoredReport(dp, [hx, hy], None, x + y, |x|, "GPU"))] +
    ChildThenParent(dp, hx, hy, x, y)
  }

  function ChildThenParent(dp: int, hx: uint64, hy: uint64, x: Chunk, y: Chunk): seq<Act> {
    [Act(Evicted([[x, y]]), "gpu", Report(dp, BlockRemoved([hy], "GPU"))),
     Act(Computed([x], [y]), "gpu", StoredReport(dp, [hy], Some(hx), y, |x|, "GPU")),
     Act(Evicted([[x]]), "gpu", Report(dp, BlockRemoved([hx], "GPU")))]
  }

  lemma UngentleSteps(dp: int, hx: uint64, hy: uint64, x: Chunk, y: Chunk)
    ensures var parent, child := CacheBlock([x], dp, "gpu"), CacheBlock([x, y], dp, "gpu");
            var acts := ChildThenParent(dp, hx, hy, x, y);
            && CacheStep({parent, child}, acts[0]) == {parent} && CacheStep({child}, acts[0]) == {}
            && CacheStep({parent}, acts[1]) == {parent, child}
            && Resolves({parent}, acts[1].op) && !Resolves({}, acts[1].op)
            && CacheStep({parent, child}, acts[2]) == {child} && CacheStep({}, acts[2]) == {}
  {
    var parent := CacheBlock([x], dp, "gpu");
    assert |[x]| != |[x, y]|;
    PlacedOne([x], dp, "gpu");
    PlacedOne([x, y], dp, "gpu");
    assert NewChains([x], [y]) == [[x, y]] by {
      assert [x] + UpTo([y], 0) == [x, y];
    }
    assert parent in {parent} && Cached({parent}, [x]);
    assert !Cached({}, [x]);
  }

  lemma ParentAndChild(x: Chunk, y: Chunk)
    ensures NewChains([], [x, y]) == [[x], [x, y]] && [x] != [x, y]
    ensures x != [] && |x| == |y| ==> Chunks(x + y, |x|) == [x, y]
  {
    assert [] + UpTo([x, y], 0) == [x] && [] + UpTo([x, y], 1) == [x, y];
    assert |[x]| != |[x, y]|;
    if x != [] && |x| == |y| {
      assert (x + y)[..|x|] == x && (x + y)[|x|..] == y;
      OneChunk(y);
    }
  }

  lemma PlacedBoth(a: Chain, b: Chain, dp: int, tier: string)
    ensures Placed([a, b], dp, tier) == {CacheBlock(a, dp, tier), CacheBlock(b, dp, tier)}
  {
    assert [a, b][0] in [a, b] && [a, b][1] in [a, b];
  }

  lemma BothComputed(scheme: Scheme, dp: int, hx: uint64, hy: uint64, x: Chunk, y: Chunk)
    requires x != [] && |x| == |y|
    ensures var w, a := TwoBlockWorld(scheme, hx, hy, x, y), UngentleActs(dp, hx, hy, x, y)[0];
            && Faithful(w, [a]) && CacheAfter([a]) == {CacheBlock([x], dp, "gpu"), CacheBlock([x, y], dp, "gpu")}
  {
    var w, a := TwoBlockWorld(scheme, hx, hy, x, y), UngentleActs(dp, hx, hy, x, y)[0];
    Media();
    ParentAndChild(x, y);
    assert NamesOf(w, NewChains([], [x, y])) == [hx, hy];
    PlacedBoth([x], [x, y], dp, "gpu");
    assert Reported(w, a);
    assert Possible(w, {}, a.op);
    FaithfulSnoc(w, [], a);
    assert [] + [a] == [a];
  }

  lemma UngentleActsAreFaithful(scheme: Scheme, dp: int, hx: uint64, hy: uint64, x: Chunk, y: Chunk)
    requires x != [] && |x| == |y|
    ensures Faithful(TwoBlockWorld(scheme, hx, hy, x, y), UngentleActs(dp, hx, hy, x, y))
    ensures CacheAfter(UngentleActs(dp, hx, hy, x, y)) == {CacheBlock([x, y], dp, "gpu")}
  {
    var w, acts := TwoBlockWorld(scheme, hx, hy, x, y), UngentleActs(dp, hx, hy, x, y);
    Media();
    BothComputed(scheme, dp, hx, hy, x, y);
    UngentleSteps(dp, hx, hy, x, y);
    assert |[x]| != |[x, y]|;
    assert NamesOf(w, [[x]]) == [hx] && NamesOf(w, [[x, y]]) == [hy];
    assert NewChains([x], [y]) == [[x, y]] by {
      assert [x] + UpTo([y], 0) == [x, y];
    }
    OneChunk(y);
    FaithfulThree(w, [acts[0]], acts[1], acts[2], acts[3]);
    assert [acts[0]] + [acts[1], acts[2], acts[3]] == acts;
  }

  /**
   * With a child left behind its parent a replay can lose the child. The engine evicts
   * the child, computes it again and then evicts the parent. When these three reports
   * come again, the child goes first and the report that would put it back is skipped,
   * because its parent is no longer known. This is so for every hash function that
   * tells the two blocks apart.
   */
  lemma UngentleEvictionCanLoseABlock(scheme: Scheme, e: string, dp: int, hx: uint64, hy: uint64, x: Chunk, y: Chunk)
    requires x != [] && |x| == |y| && hx != hy
    requires var kx := scheme.hash(scheme.seed, x); scheme.hash(kx, y) != kx
    ensures var acts, ky := UngentleActs(dp, hx, hy, x, y), scheme.hash(scheme.hash(scheme.seed, x), y);
            var run, again := Deliveries(Redelivered(e, acts)), Deliveries(Redelivered(e, acts[1..]));
            && Faithful(TwoBlockWorld(scheme, hx, hy, x, y), acts)
            && Resident(e, dp, "gpu") in Holders(IngestRun(scheme, run), ky)
            && !HasEngine(Holders(IngestRun(scheme, run + again), ky), e)
  {
    var w, acts, child := TwoBlockWorld(scheme, hx, hy, x, y), UngentleActs(dp, hx, hy, x, y), CacheBlock([x, y], dp, "gpu");
    KeyOfOne(scheme, x);
    assert Init([x, y]) == [x];
    assert |[x]| != |[x, y]|;
    assert CollisionFree(w);
    UngentleActsAreFaithful(scheme, dp, hx, hy, x, y);
    UngentleSteps(dp, hx, hy, x, y);
    var d := ChildThenParent(dp, hx, hy, x, y);
    assert acts[1..] == [d[0], d[1], d[2]];
    Unrolled({child}, d[0], d[1], d[2]);
    TwiceDelivered(e, acts, 1);
    RedeliveryLoses(w, Redelivered(e, acts), e, 1, child);
  }

  lemma PlacedOne(a: Chain, dp: int, tier: string)
    ensures Placed([a], dp, tier) == {CacheBlock(a, dp, tier)}
  {
    assert a in [a];
  }

  lemma Unrolled(c: Cache, x: Act, y: Act, z: Act)
    ensures CacheFrom(c, [x, y, z]) == CacheStep(CacheStep(CacheStep(c, x), y), z)
    ensures KnownFrom(c, [x, y, z]) == Effect(Effect(Effect(c, x), y), z)
    ensures PossibleFrom(c, [x, y, z]) <==>
            Resolves(c, x.op) && Resolves(CacheStep(c, x), y.op) && Resolves(CacheStep(CacheStep(c, x), y), z.op)
  {
    assert [x] == [] + [x] && [x, y] == [x] + [y] && [x, y, z] == [x, y] + [z];
    FromSnoc(c, [], x);
    FromSnoc(c, [x], y);
    FromSnoc(c, [x, y], z);
  }

  lemma FromSnoc(c: Cache, acts: seq<Act>, a: Act)
    ensures CacheFrom(c, acts + [a]) == CacheStep(CacheFrom(c, acts), a)
    ensures KnownFrom(c, acts + [a]) == Effect(KnownFrom(c, acts), a)
    ensures PossibleFrom(c, acts + [a]) <==> PossibleFrom(c, acts) && Resolves(CacheFrom(c, acts), a.op)
  {
    assert Init(acts + [a]) == acts;
  }
}
