/**
 * The index refines the engines' real caches.
 *
 * Each engine has a reference cache: the set of (token prefix, rank, tier) it holds.
 * It changes only by computing blocks, copying them to a tier, evicting them or
 * dropping everything, and reports each change as one event. After any interleaving
 * of such reports, querying the index for any prompt gives each engine exactly the
 * longest cached prefix of that prompt, with the right tier counts.
 */
module CacheRefinement {
  import opened Basics
  import opened ChainKeys
  import opened IndexState
  import opened EngineViews
  import opened Hits
  import opened Ingest

  datatype CacheBlock = CacheBlock(chain: Chain, dpRank: int, tier: string)

  type Cache = set<CacheBlock>

  datatype CacheOp =
    | Computed(parent: Chain, chunks: Chain)
    | Copied(chains: seq<Chain>)
    | Evicted(chains: seq<Chain>)
    | Dropped

  /** What an engine did to its cache, on which rank and tier, and the event it sent. */
  datatype Act = Act(op: CacheOp, tier: string, report: Report)

  /** The prefix that ends with block `i`. */
  function UpTo(chunks: Chain, i: nat): Chain
    requires i < |chunks|
  {
    chunks[..i + 1]
  }

  /** The chains of the blocks computed after `parent`. */
  function NewChains(parent: Chain, chunks: Chain): seq<Chain> {
    seq(|chunks|, i requires 0 <= i < |chunks| => parent + UpTo(chunks, i))
  }

  function Placed(chains: seq<Chain>, dp: int, tier: string): Cache {
    set c | c in chains :: CacheBlock(c, dp, tier)
  }

  function CacheStep(c: Cache, a: Act): Cache {
    match a.op
    case Computed(parent, chunks) => c + Placed(NewChains(parent, chunks), a.report.dpRank, a.tier)
    case Copied(chains) => c + Placed(chains, a.report.dpRank, a.tier)
    case Evicted(chains) => c - Placed(chains, a.report.dpRank, a.tier)
    case Dropped => {}
  }

  function CacheAfter(acts: seq<Act>): Cache {
    if acts == [] then {} else CacheStep(CacheAfter(Init(acts)), Last(acts))
  }

  ghost predicate Cached(c: Cache, chain: Chain) {
    exists dp, tier :: CacheBlock(chain, dp, tier) in c
  }

  // ------------------------------------------------------------- assumptions

  /** The setting: one block size, a finite set of prefixes in play, one engine's names for them. */
  datatype World = World(scheme: Scheme, blockSize: int, universe: set<Chain>, name: Chain -> uint64)

  function KeyOf(w: World, chain: Chain): uint64 {
    Fold(w.scheme.hash, w.scheme.seed, chain)
  }

  ghost predicate CollisionFree(w: World) {
    && (forall a, b :: a in w.universe && b in w.universe && KeyOf(w, a) == KeyOf(w, b) ==> a == b)
    && (forall a, b :: a in w.universe && b in w.universe && w.name(a) == w.name(b) ==> a == b)
  }

  function NamesOf(w: World, chains: seq<Chain>): seq<uint64> {
    seq(|chains|, i requires 0 <= i < |chains| => w.name(chains[i]))
  }

  /** All chains an act talks about are in play. */
  ghost predicate InUniverse(w: World, op: CacheOp) {
    match op
    case Computed(parent, chunks) =>
      && chunks != []
      && (parent == [] || parent in w.universe)
      && (forall x :: x in NewChains(parent, chunks) ==> x in w.universe)
    case Copied(chains) => chains != [] && forall x :: x in chains ==> x in w.universe
    case Evicted(chains) => forall x :: x in chains ==> x in w.universe
    case Dropped => true
  }

  /** The parent, or every block to copy, is present. */
  ghost predicate Resolves(c: Cache, op: CacheOp) {
    match op
    case Computed(parent, _) => parent == [] || Cached(c, parent)
    case Copied(chains) => forall x :: x in chains ==> Cached(c, x)
    case _ => true
  }

  /** What a real engine can do. */
  ghost predicate Possible(w: World, c: Cache, op: CacheOp) {
    InUniverse(w, op) && Resolves(c, op)
  }

  /** What the report of an act does to an index that knows the blocks `c`: nothing when unresolved. */
  ghost function Effect(c: Cache, a: Act): Cache {
    if Resolves(c, a.op) then CacheStep(c, a) else c
  }

  /** The event says what was done, in the engine's own block names. */
  ghost predicate Reported(w: World, a: Act) {
    var ev := a.report.event;
    match a.op
    case Computed(parent, chunks) =>
      && ev.BlockStored? && TextOnly(ev)
      && EffectiveBlockSize(w.scheme, ev) == w.blockSize
      && Chunks(ev.tokenIds, w.blockSize) == chunks
      && ev.blockHashes == NamesOf(w, NewChains(parent, chunks))
      && ev.parent == (if parent == [] then None else Some(w.name(parent)))
      && MediumToTier(ev.medium) == a.tier
    case Copied(chains) =>
      && ev.BlockStored? && TextOnly(ev) && ev.tokenIds == []
      && ev.blockHashes == NamesOf(w, chains)
      && MediumToTier(ev.medium) == a.tier
    case Evicted(chains) =>
      && ev.BlockRemoved? && ev.blockHashes == NamesOf(w, chains) && MediumToTier(ev.medium) == a.tier
    case Dropped => ev.AllBlocksCleared?
  }

  ghost predicate Faithful(w: World, acts: seq<Act>) {
    acts == [] ||
    (Faithful(w, Init(acts)) && Possible(w, CacheAfter(Init(acts)), Last(acts).op) && Reported(w, Last(acts)))
  }

  function ReportsIn(acts: seq<Act>): seq<Report> {
    seq(|acts|, i requires 0 <= i < |acts| => acts[i].report)
  }

  // ------------------------------------------------- the refinement relation

  /** The engine's names, each with the request key of the prefix it stands for. */
  function Dictionary(w: World): (k: map<uint64, uint64>)
    requires CollisionFree(w)
    ensures forall p :: p in w.universe ==> w.name(p) in k && k[w.name(p)] == KeyOf(w, p)
    ensures Injective(k)
  {
    var k := map p | p in w.universe :: w.name(p) := KeyOf(w, p);
    assert Injective(k) by {
      forall a, b | a in k && b in k && k[a] == k[b] ensures a == b {
        var p :| p in w.universe && w.name(p) == a;
        var q :| q in w.universe && w.name(q) == b;
        assert KeyOf(w, p) == KeyOf(w, q);
      }
    }
    k
  }

  ghost predicate SameBlocks(w: World, c: Cache, v: View) {
    && (forall b :: b in c ==> b.chain in w.universe)
    && (forall h :: h in v.holds ==> exists p :: p in w.universe && KeyOf(w, p) == h.requestKey)
    && (forall p, dp, tier {:trigger CacheBlock(p, dp, tier)} :: p in w.universe ==>
          (Hold(KeyOf(w, p), dp, tier) in v.holds <==> CacheBlock(p, dp, tier) in c))
  }

  ghost predicate Refines(w: World, c: Cache, v: View)
    requires CollisionFree(w)
  {
    SameBlocks(w, c, v) && Tracks(Dictionary(w), v)
  }

  lemma CachedIsHeld(w: World, c: Cache, v: View, p: Chain)
    requires SameBlocks(w, c, v) && p in w.universe
    ensures Cached(c, p) <==> Held(v, KeyOf(w, p))
  {
    if dp, tier :| CacheBlock(p, dp, tier) in c {
      assert Hold(KeyOf(w, p), dp, tier) in v.holds;
    }
    if h :| h in v.holds && h.requestKey == KeyOf(w, p) {
      assert h == Hold(KeyOf(w, p), h.dpRank, h.tier);
      assert CacheBlock(p, h.dpRank, h.tier) in c;
    }
  }

  lemma CachedIsBridged(w: World, c: Cache, v: View, p: Chain)
    requires CollisionFree(w) && Refines(w, c, v) && p in w.universe
    ensures w.name(p) in v.bridge <==> Cached(c, p)
    ensures Cached(c, p) ==> v.bridge[w.name(p)] == KeyOf(w, p)
  {
    CachedIsHeld(w, c, v, p);
    assert w.name(p) in Dictionary(w);
  }

  function KeysOfChains(w: World, chains: seq<Chain>): seq<uint64> {
    seq(|chains|, i requires 0 <= i < |chains| => KeyOf(w, chains[i]))
  }

  /** The index operation a report amounts to. */
  function OpOf(w: World, a: Act): Op {
    var dp := a.report.dpRank;
    match a.op
    case Computed(parent, chunks) =>
      var chains := NewChains(parent, chunks);
      StoreOp(dp, a.tier, NamesOf(w, chains), KeysOfChains(w, chains))
    case Copied(chains) => CopyOp(dp, a.tier, NamesOf(w, chains))
    case Evicted(chains) => RemoveOp(dp, a.tier, NamesOf(w, chains))
    case Dropped => ClearOp("")
  }

  /** Continuing from the parent's key gives each new block the key of its whole prefix. */
  lemma ContinuationKeys(w: World, parent: Chain, chunks: Chain)
    ensures KeyChain(w.scheme.hash, KeyOf(w, parent), chunks) == KeysOfChains(w, NewChains(parent, chunks))
  {
    forall i | 0 <= i < |chunks|
      ensures Fold(w.scheme.hash, KeyOf(w, parent), UpTo(chunks, i)) == KeyOf(w, parent + UpTo(chunks, i))
    {
      FoldAppend(w.scheme.hash, w.scheme.seed, parent, UpTo(chunks, i));
    }
  }

  lemma ComputedReportIsOp(w: World, c: Cache, v: View, a: Act)
    requires CollisionFree(w) && Refines(w, c, v) && InUniverse(w, a.op) && Reported(w, a) && a.op.Computed?
    ensures var treated := Classify(w.scheme, v.bridge, a.report.dpRank, a.report.event);
            if Resolves(c, a.op) then treated == Applied(OpOf(w, a)) else treated.Skipped?
  {
    ContinuationKeys(w, a.op.parent, a.op.chunks);
    if a.op.parent != [] {
      CachedIsBridged(w, c, v, a.op.parent);
    }
    assert |a.report.event.tokenIds| != 0;
  }

  lemma CopiedReportIsOp(w: World, c: Cache, v: View, a: Act)
    requires CollisionFree(w) && Refines(w, c, v) && InUniverse(w, a.op) && Reported(w, a) && a.op.Copied?
    ensures var treated := Classify(w.scheme, v.bridge, a.report.dpRank, a.report.event);
            if Resolves(c, a.op) then treated == Applied(OpOf(w, a)) else treated.Skipped?
  {
    var chains, hashes := a.op.chains, a.report.event.blockHashes;
    forall i | 0 <= i < |chains| ensures hashes[i] in v.bridge <==> Cached(c, chains[i]) {
      assert chains[i] in chains;
      CachedIsBridged(w, c, v, chains[i]);
    }
    if !Resolves(c, a.op) {
      var x :| x in chains && !Cached(c, x);
      var i :| 0 <= i < |chains| && chains[i] == x;
      assert hashes[i] in hashes;
    }
  }

  /** A report is applied as its operation when it resolves, and skipped when it does not. */
  lemma ReportIsOp(w: World, c: Cache, v: View, a: Act)
    requires CollisionFree(w) && Refines(w, c, v) && InUniverse(w, a.op) && Reported(w, a)
    ensures var treated := Classify(w.scheme, v.bridge, a.report.dpRank, a.report.event);
            if Resolves(c, a.op) then treated == Applied(OpOf(w, a)) else treated.Skipped?
    ensures EqualCountsOp(Dictionary(w), OpOf(w, a))
  {
    if a.op.Computed? {
      ComputedReportIsOp(w, c, v, a);
    } else if a.op.Copied? {
      CopiedReportIsOp(w, c, v, a);
    }
  }

  lemma StoredChainsRefine(w: World, c: Cache, v: View, chains: seq<Chain>, dp: int, tier: string)
    requires CollisionFree(w) && SameBlocks(w, c, v)
    requires forall x :: x in chains ==> x in w.universe
    ensures SameBlocks(w, c + Placed(chains, dp, tier), StoredView(v, dp, tier, KeysOfChains(w, chains)))
  {
    var c', rks := c + Placed(chains, dp, tier), KeysOfChains(w, chains);
    var v' := StoredView(v, dp, tier, rks);
    forall p, dp', tier' | p in w.universe
      ensures Hold(KeyOf(w, p), dp', tier') in v'.holds <==> CacheBlock(p, dp', tier') in c'
    {
      if p in chains {
        var i :| 0 <= i < |chains| && chains[i] == p;
        assert rks[i] == KeyOf(w, p);
        assert KeyOf(w, p) in rks;
      }
      if KeyOf(w, p) in rks {
        var i :| 0 <= i < |rks| && rks[i] == KeyOf(w, p);
        assert chains[i] in chains && chains[i] in w.universe;
        assert chains[i] == p;
      }
      assert CacheBlock(p, dp', tier') in c <==> Hold(KeyOf(w, p), dp', tier') in v.holds;
    }
  }

  lemma DroppedHoldRefines(w: World, c: Cache, v: View, v': View, x: Chain, dp: int, tier: string)
    requires CollisionFree(w) && SameBlocks(w, c, v) && x in w.universe
    requires v'.holds == v.holds - {Hold(KeyOf(w, x), dp, tier)}
    ensures SameBlocks(w, c - {CacheBlock(x, dp, tier)}, v')
  {
    forall p, dp', tier' | p in w.universe
      ensures Hold(KeyOf(w, p), dp', tier') in v'.holds <==> CacheBlock(p, dp', tier') in c - {CacheBlock(x, dp, tier)}
    {
      assert CacheBlock(p, dp', tier') in c <==> Hold(KeyOf(w, p), dp', tier') in v.holds;
    }
  }

  lemma EvictedOneRefines(w: World, c: Cache, v: View, x: Chain, dp: int, tier: string)
    requires CollisionFree(w) && Refines(w, c, v) && x in w.universe
    ensures SameBlocks(w, c - {CacheBlock(x, dp, tier)}, RemoveOneOf(v, dp, tier, w.name(x)))
  {
    CachedIsHeld(w, c, v, x);
    CachedIsBridged(w, c, v, x);
    assert Hold(KeyOf(w, x), dp, tier) in v.holds ==> Held(v, KeyOf(w, x));
    DroppedHoldRefines(w, c, v, RemoveOneOf(v, dp, tier, w.name(x)), x, dp, tier);
  }

  lemma {:induction false} EvictedChainsRefine(w: World, c: Cache, v: View, chains: seq<Chain>, dp: int, tier: string)
    requires CollisionFree(w) && Refines(w, c, v)
    requires forall x :: x in chains ==> x in w.universe
    ensures Refines(w, c - Placed(chains, dp, tier), RemoveOf(v, dp, tier, NamesOf(w, chains)))
    decreases |chains|
  {
    if chains == [] {
      assert c - Placed(chains, dp, tier) == c;
    } else {
      var front, x := Init(chains), Last(chains);
      assert chains == front + [x];
      EvictedChainsRefine(w, c, v, front, dp, tier);
      assert Init(NamesOf(w, chains)) == NamesOf(w, front);
      var c1, v1 := c - Placed(front, dp, tier), RemoveOf(v, dp, tier, NamesOf(w, front));
      assert x in chains;
      EvictedOneRefines(w, c1, v1, x, dp, tier);
      RemoveOneOfTracks(Dictionary(w), v1, dp, tier, w.name(x));
      PlacedSnoc(chains, dp, tier);
      assert c1 - {CacheBlock(x, dp, tier)} == c - Placed(chains, dp, tier);
    }
  }

  lemma PlacedSnoc(chains: seq<Chain>, dp: int, tier: string)
    requires chains != []
    ensures Placed(chains, dp, tier) == Placed(Init(chains), dp, tier) + {CacheBlock(Last(chains), dp, tier)}
  {
    assert chains == Init(chains) + [Last(chains)];
  }

  /** Any report in play keeps the index in step with the blocks it knows of. */
  lemma ReportKeepsRefinement(w: World, c: Cache, v: View, a: Act)
    requires CollisionFree(w) && Refines(w, c, v) && InUniverse(w, a.op) && Reported(w, a)
    ensures Refines(w, Effect(c, a), IngestView(w.scheme, v, a.report))
  {
    ReportIsOp(w, c, v, a);
    if Resolves(c, a.op) {
      ViewStepTracks(Dictionary(w), v, OpOf(w, a));
      var dp := a.report.dpRank;
      match a.op
      case Computed(parent, chunks) =>
        StoredChainsRefine(w, c, v, NewChains(parent, chunks), dp, a.tier);
      case Copied(chains) =>
        CopyResolves(w, c, v, chains);
        StoredChainsRefine(w, c, v, chains, dp, a.tier);
      case Evicted(chains) =>
        EvictedChainsRefine(w, c, v, chains, dp, a.tier);
      case Dropped =>
    }
  }

  lemma CopyResolves(w: World, c: Cache, v: View, chains: seq<Chain>)
    requires CollisionFree(w) && Refines(w, c, v) && chains != []
    requires forall x :: x in chains ==> Cached(c, x) && x in w.universe
    ensures ResolvableIn(v, NamesOf(w, chains))
    ensures ResolvedIn(v, NamesOf(w, chains)) == KeysOfChains(w, chains)
  {
    var names := NamesOf(w, chains);
    forall i | 0 <= i < |chains| ensures names[i] in v.bridge && v.bridge[names[i]] == KeyOf(w, chains[i]) {
      CachedIsBridged(w, c, v, chains[i]);
    }
  }

  /** Reports in play, whether or not what they refer to is there. */
  ghost predicate AllReported(w: World, acts: seq<Act>) {
    forall a :: a in acts ==> InUniverse(w, a.op) && Reported(w, a)
  }

  /** What the index knows after the reports of `acts`, skipping the unresolved ones. */
  ghost function KnownAfter(acts: seq<Act>): Cache {
    if acts == [] then {} else Effect(KnownAfter(Init(acts)), Last(acts))
  }

  lemma {:induction false} FaithfulIsKnown(w: World, acts: seq<Act>)
    requires Faithful(w, acts)
    ensures AllReported(w, acts) && KnownAfter(acts) == CacheAfter(acts)
    decreases |acts|
  {
    if acts != [] {
      var front, last := Init(acts), Last(acts);
      FaithfulIsKnown(w, front);
      forall a | a in acts ensures InUniverse(w, a.op) && Reported(w, a) {
        assert a in front || a == last;
      }
    }
  }

  lemma {:induction false} StreamRefinesKnown(w: World, acts: seq<Act>)
    requires CollisionFree(w) && AllReported(w, acts)
    ensures Refines(w, KnownAfter(acts), RunReports(w.scheme, ReportsIn(acts)))
    ensures OneToOneReports(w.scheme, Dictionary(w), ReportsIn(acts))
    decreases |acts|
  {
    if acts != [] {
      var front, a := Init(acts), Last(acts);
      assert acts == front + [a];
      StreamRefinesKnown(w, front);
      assert Init(ReportsIn(acts)) == ReportsIn(front) && Last(ReportsIn(acts)) == a.report;
      ReportKeepsRefinement(w, KnownAfter(front), RunReports(w.scheme, ReportsIn(front)), a);
      OneMoreOneToOne(w, acts);
    }
  }

  lemma OneMoreOneToOne(w: World, acts: seq<Act>)
    requires acts != [] && CollisionFree(w) && AllReported(w, acts)
    requires Refines(w, KnownAfter(Init(acts)), RunReports(w.scheme, ReportsIn(Init(acts))))
    requires OneToOneReports(w.scheme, Dictionary(w), ReportsIn(Init(acts)))
    ensures OneToOneReports(w.scheme, Dictionary(w), ReportsIn(acts))
  {
    var front, a, reports := Init(acts), Last(acts), ReportsIn(acts);
    var v := RunReports(w.scheme, ReportsIn(front));
    assert Init(reports) == ReportsIn(front) && Last(reports) == a.report;
    ReportIsOp(w, KnownAfter(front), v, a);
    ViewStepTracks(Dictionary(w), v, OpOf(w, a));
    OneToOneSnoc(w.scheme, Dictionary(w), reports);
  }

  // --------------------------------------------------------- the main theorem

  /** One act of one engine. */
  datatype Happening = Happening(engineId: string, act: Act)

  function ActsOf(history: seq<Happening>, e: string): seq<Act> {
    if history == [] then []
    else
      var front := ActsOf(Init(history), e);
      if Last(history).engineId == e then front + [Last(history).act] else front
  }

  function Deliveries(history: seq<Happening>): seq<Delivery> {
    seq(|history|, i requires 0 <= i < |history| => Delivery(history[i].engineId, history[i].act.report))
  }

  lemma {:induction false} ReportsOfHistory(history: seq<Happening>, e: string)
    ensures ReportsOf(Deliveries(history), e) == ReportsIn(ActsOf(history, e))
    decreases |history|
  {
    if history != [] {
      ReportsOfHistory(Init(history), e);
      assert Init(Deliveries(history)) == Deliveries(Init(history));
    }
  }

  ghost predicate CachedIn(c: Cache, chain: Chain, tiers: set<string>) {
    exists dp, tier :: tier in tiers && CacheBlock(chain, dp, tier) in c
  }

  /** The blocks among the first `k` that the cache holds in one of `tiers`. */
  ghost function CachedBlocks(c: Cache, chunks: Chain, k: nat, tiers: set<string>): set<int>
    requires k <= |chunks|
  {
    set i | 0 <= i < k && CachedIn(c, UpTo(chunks, i), tiers)
  }

  /** The holds of one rank on the first `k` blocks, each with its block's position. */
  ghost function CachedHolds(c: Cache, chunks: Chain, k: nat, rank: int): set<(int, Spot)>
    requires k <= |chunks|
  {
    set i, b | 0 <= i < k && b in c && b.chain == UpTo(chunks, i) && b.dpRank == rank :: (i, Spot(b.dpRank, b.tier))
  }

  /** `hit` is exactly the longest cached prefix of `chunks` and its tier and rank counts. */
  ghost predicate IsLongestCachedPrefix(c: Cache, chunks: Chain, blockSize: int, hit: InstanceHit) {
    exists k: nat :: k <= |chunks| && IsCachedPrefix(c, chunks, blockSize, hit, k)
  }

  /** The first `k` blocks are cached, the next one is not, and `hit` counts the holds of those `k`. */
  ghost predicate IsCachedPrefix(c: Cache, chunks: Chain, blockSize: int, hit: InstanceHit, k: nat)
    requires k <= |chunks|
  {
    && (forall i :: 0 <= i < k ==> Cached(c, UpTo(chunks, i)))
    && (k < |chunks| ==> !Cached(c, UpTo(chunks, k)))
    && hit.longestMatched == hit.disk == blockSize * k
    && hit.gpu == blockSize * |CachedBlocks(c, chunks, k, {"gpu"})|
    && hit.cpu == blockSize * |CachedBlocks(c, chunks, k, {"gpu", "cpu"})|
    && RanksMatch(c, chunks, blockSize, k, hit.dp)
  }

  /** A rank is listed iff it has a hold among the first `k` blocks, with their number. */
  ghost predicate RanksMatch(c: Cache, chunks: Chain, blockSize: int, k: nat, dp: map<int, int>)
    requires k <= |chunks|
  {
    forall d :: (d in dp <==> CachedHolds(c, chunks, k, d) != {}) &&
                (d in dp ==> dp[d] == blockSize * |CachedHolds(c, chunks, k, d)|)
  }

  lemma HeldIsCached(w: World, s: State, e: string, c: Cache, p: Chain, tiers: set<string>)
    requires SameBlocks(w, c, ViewOf(s, e)) && p in w.universe
    ensures HasEngine(Holders(s, KeyOf(w, p)), e) <==> Cached(c, p)
    ensures HoldsIn(s, e, KeyOf(w, p), tiers) <==> CachedIn(c, p, tiers)
  {
    ViewMembers(s, e);
    CachedIsHeld(w, c, ViewOf(s, e), p);
    var rk := KeyOf(w, p);
    if dp, tier :| tier in tiers && Resident(e, dp, tier) in Holders(s, rk) {
      assert Hold(rk, dp, tier) in ViewOf(s, e).holds;
      assert CacheBlock(p, dp, tier) in c;
    }
    if dp, tier :| tier in tiers && CacheBlock(p, dp, tier) in c {
      assert Hold(rk, dp, tier) in ViewOf(s, e).holds;
      assert Resident(e, dp, tier) in Holders(s, rk);
    }
  }

  /** Every prefix of `chunks` is in the universe. */
  ghost predicate InPlay(w: World, chunks: Chain) {
    forall i :: 0 <= i < |chunks| ==> UpTo(chunks, i) in w.universe
  }

  lemma KeysMatchCache(w: World, s: State, e: string, c: Cache, chunks: Chain)
    requires SameBlocks(w, c, ViewOf(s, e)) && InPlay(w, chunks)
    ensures var keys := KeyChain(w.scheme.hash, w.scheme.seed, chunks);
            forall i :: 0 <= i < |chunks| ==> (HasEngine(Holders(s, keys[i]), e) <==> Cached(c, UpTo(chunks, i)))
  {
    forall i | 0 <= i < |chunks|
      ensures HasEngine(Holders(s, KeyOf(w, UpTo(chunks, i))), e) <==> Cached(c, UpTo(chunks, i))
    {
      HeldIsCached(w, s, e, c, UpTo(chunks, i), {"gpu"});
    }
  }

  lemma HeldBlocksAreCached(w: World, s: State, e: string, c: Cache, chunks: Chain, k: nat)
    requires SameBlocks(w, c, ViewOf(s, e)) && InPlay(w, chunks) && k <= |chunks|
    ensures var keys := KeyChain(w.scheme.hash, w.scheme.seed, chunks);
            && HeldIn(s, e, keys, k, {"gpu"}) == CachedBlocks(c, chunks, k, {"gpu"})
            && HeldIn(s, e, keys, k, {"gpu", "cpu"}) == CachedBlocks(c, chunks, k, {"gpu", "cpu"})
  {
    var keys := KeyChain(w.scheme.hash, w.scheme.seed, chunks);
    forall i | 0 <= i < k
      ensures HoldsIn(s, e, keys[i], {"gpu"}) <==> CachedIn(c, UpTo(chunks, i), {"gpu"})
      ensures HoldsIn(s, e, keys[i], {"gpu", "cpu"}) <==> CachedIn(c, UpTo(chunks, i), {"gpu", "cpu"})
    {
      assert keys[i] == KeyOf(w, UpTo(chunks, i));
      HeldIsCached(w, s, e, c, UpTo(chunks, i), {"gpu"});
      HeldIsCached(w, s, e, c, UpTo(chunks, i), {"gpu", "cpu"});
    }
  }

  lemma HeldRanksAreCached(w: World, s: State, e: string, c: Cache, chunks: Chain, k: nat, pairs: set<(int, Spot)>, rank: int)
    requires SameBlocks(w, c, ViewOf(s, e)) && InPlay(w, chunks) && k <= |chunks|
    requires var keys := KeyChain(w.scheme.hash, w.scheme.seed, chunks);
             forall i, x :: (i, x) in pairs <==>
               0 <= i < k && x.dpRank == rank && Resident(e, rank, x.tier) in Holders(s, keys[i])
    ensures pairs == CachedHolds(c, chunks, k, rank)
  {
    var keys := KeyChain(w.scheme.hash, w.scheme.seed, chunks);
    ViewMembers(s, e);
    forall y: (int, Spot) ensures y in pairs <==> y in CachedHolds(c, chunks, k, rank) {
      var (i, x) := y;
      assert y == (i, x);
      if 0 <= i < k && x.dpRank == rank {
        assert keys[i] == KeyOf(w, UpTo(chunks, i));
        RankHoldIsCached(w, s, e, c, UpTo(chunks, i), x);
        var b := CacheBlock(UpTo(chunks, i), rank, x.tier);
        if b in c {
          assert b.chain == UpTo(chunks, i) && (i, Spot(b.dpRank, b.tier)) == y;
        }
      }
    }
  }

  lemma RankHoldIsCached(w: World, s: State, e: string, c: Cache, p: Chain, x: Spot)
    requires SameBlocks(w, c, ViewOf(s, e)) && p in w.universe
    ensures Resident(e, x.dpRank, x.tier) in Holders(s, KeyOf(w, p)) <==> CacheBlock(p, x.dpRank, x.tier) in c
  {
    ViewMembers(s, e);
    assert Hold(KeyOf(w, p), x.dpRank, x.tier) in ViewOf(s, e).holds <==> CacheBlock(p, x.dpRank, x.tier) in c;
  }

  lemma RanksOfQueryMatch(w: World, s: State, e: string, c: Cache, chunks: Chain, blockSize: int)
    requires SameBlocks(w, c, ViewOf(s, e)) && InPlay(w, chunks)
    requires e in QueryResult(s, KeyChain(w.scheme.hash, w.scheme.seed, chunks), blockSize)
    ensures var keys := KeyChain(w.scheme.hash, w.scheme.seed, chunks);
            RanksMatch(c, chunks, blockSize, Run(BlocksOf(s, e, keys)), QueryResult(s, keys, blockSize)[e].dp)
  {
    var keys := KeyChain(w.scheme.hash, w.scheme.seed, chunks);
    var k := Run(BlocksOf(s, e, keys));
    forall d: int
      ensures var dp := QueryResult(s, keys, blockSize)[e].dp;
              (d in dp <==> CachedHolds(c, chunks, k, d) != {}) &&
              (d in dp ==> dp[d] == blockSize * |CachedHolds(c, chunks, k, d)|)
    {
      RankTokensCountHolds(s, keys, blockSize, e, d);
      HeldRanksAreCached(w, s, e, c, chunks, k, HoldPairs(BlocksOf(s, e, keys)[..k], d), d);
    }
  }

  /** A query over an index that matches the cache answers with the cache's longest prefix. */
  lemma QueryMatchesCache(w: World, s: State, e: string, c: Cache, tokens: seq<Token>)
    requires SameBlocks(w, c, ViewOf(s, e))
    requires InPlay(w, Chunks(tokens, w.blockSize))
    ensures Answers(w, s, e, c, tokens)
  {
    var chunks := Chunks(tokens, w.blockSize);
    var keys := RequestKeys(w.scheme.hash, w.scheme.seed, tokens, w.blockSize);
    var k := Run(BlocksOf(s, e, keys));
    QueryIsLongestPrefix(s, keys, w.blockSize, e);
    KeysMatchCache(w, s, e, c, chunks);
    HeldBlocksAreCached(w, s, e, c, chunks, k);
    if e in QueryResult(s, keys, w.blockSize) {
      RanksOfQueryMatch(w, s, e, c, chunks, w.blockSize);
      assert IsCachedPrefix(c, chunks, w.blockSize, QueryResult(s, keys, w.blockSize)[e], k);
    }
  }

  /**
   * The general form, for a stream that may repeat itself: whatever run reached the index,
   * if the reports of `e` in it are those of `acts`, the query answers for `e` with the
   * blocks known after `acts`.
   */
  lemma StreamAnswers(w: World, run: seq<Delivery>, e: string, acts: seq<Act>, tokens: seq<Token>)
    requires CollisionFree(w) && AllReported(w, acts) && ReportsOf(run, e) == ReportsIn(acts)
    requires InPlay(w, Chunks(tokens, w.blockSize))
    ensures Answers(w, IngestRun(w.scheme, run), e, KnownAfter(acts), tokens)
  {
    StreamRefinesKnown(w, acts);
    StreamsAreIsolated(w.scheme, Dictionary(w), run, e);
    QueryMatchesCache(w, IngestRun(w.scheme, run), e, KnownAfter(acts), tokens);
  }

  /** The query for a prompt answers for `e` with exactly what cache `c` holds of it. */
  ghost predicate Answers(w: World, s: State, e: string, c: Cache, tokens: seq<Token>) {
    var chunks := Chunks(tokens, w.blockSize);
    var q := QueryResult(s, RequestKeys(w.scheme.hash, w.scheme.seed, tokens, w.blockSize), w.blockSize);
    && (e in q <==> chunks != [] && Cached(c, UpTo(chunks, 0)))
    && (e in q ==> IsLongestCachedPrefix(c, chunks, w.blockSize, q[e]))
  }

  /**
   * The index refines the engine's cache. Take any interleaving of any engines'
   * reports in which engine `e` reports faithfully; the other engines may report
   * anything. Then a query for any prompt answers for `e` with exactly the longest
   * prefix of the prompt in its reference cache, the counts of its blocks that are on
   * the device, and on device or host, and each rank's count of holds.
   */
  lemma IndexRefinesCache(w: World, history: seq<Happening>, e: string, tokens: seq<Token>)
    requires CollisionFree(w) && Faithful(w, ActsOf(history, e))
    requires InPlay(w, Chunks(tokens, w.blockSize))
    ensures Answers(w, IngestRun(w.scheme, Deliveries(history)), e, CacheAfter(ActsOf(history, e)), tokens)
  {
    FaithfulIsKnown(w, ActsOf(history, e));
    ReportsOfHistory(history, e);
    StreamAnswers(w, Deliveries(history), e, ActsOf(history, e), tokens);
  }
}
