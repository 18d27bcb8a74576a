/**
 * The admission pipeline: freshness of the event streams, the per-namespace index,
 * request keys, the residency query and the rules (internal/httpapi/route.go and
 * service.go), and the gateway's token-only variant. Tokenization is an input.
 */
module Route {
  import opened Basics
  import opened ChainKeys
  import opened IndexState
  import opened Hits
  import opened ResidencyIndex
  import opened RuleOrder
  import opened Admission
  import opened ModelProfiles
  import opened Ingest
  import opened Listener
  import opened CacheRefinement
  import EngineViews
  import ConfigStore

  datatype Request = Request(model: string, tenantId: string, hasMultimodalContent: bool)

  datatype Tokens = Tokens(ids: seq<Token>, count: int)

  /** The hash library: the block hash, and the seed of a namespace string. */
  datatype Hashing = Hashing(block: BlockHash, seedOf: string -> uint64)

  // ------------------------------------------------------ index per namespace

  class Manager {
    var indexes: map<string, Index>

    constructor ()
      ensures indexes == map[]
    {
      indexes := map[];
    }

    /** Manager.Index: the namespace's index, created empty on first use. */
    method IndexFor(namespace: string) returns (ix: Index)
      modifies this
      ensures namespace in indexes && indexes[namespace] == ix
      ensures namespace in old(indexes) ==> indexes == old(indexes)
      ensures namespace !in old(indexes) ==>
                indexes == old(indexes)[namespace := ix] && fresh(ix) && ix.Value() == EMPTY
    {
      if namespace in indexes {
        return indexes[namespace];
      }
      ix := new Index();
      indexes := indexes[namespace := ix];
    }

    /** ResolveIngest, once the model's profile has been looked up. */
    method ResolveIngest(profile: Option<ModelProfile>, hashing: Hashing)
      returns (ix: Option<Index>, scheme: Option<Scheme>)
      modifies this
      ensures ix.Some? <==> profile.Some?
      ensures scheme == if profile.Some? then Some(SchemeOf(profile.value, hashing)) else None
    ensures profile.Some? ==>
              && scheme.value.hash == hashing.block && scheme.value.blockSize == profile.value.blockSize
              && scheme.value.seed == hashing.seedOf(profile.value.hashSeed + "|" + Namespace(profile.value))
      ensures profile.Some? ==> Namespace(profile.value) in indexes && indexes[Namespace(profile.value)] == ix.value
      ensures forall ns :: ns in old(indexes) ==> ns in indexes && indexes[ns] == old(indexes)[ns]
    {
      if profile.None? {
        return None, None;
      }
      var found := IndexFor(Namespace(profile.value));
      return Some(found), Some(SchemeOf(profile.value, hashing));
    }
  }

  function SeedOf(p: ModelProfile, hashing: Hashing): uint64 {
    hashing.seedOf(p.hashSeed + "|" + Namespace(p))
  }

  function SchemeOf(p: ModelProfile, hashing: Hashing): Scheme {
    Scheme(hashing.block, SeedOf(p, hashing), p.blockSize)
  }

  /**
   * What ingest hashes with is fixed by the namespace: over any run of upserts for a
   * model without a stale one, profiles with equal namespaces resolve to the same
   * scheme, hence to the same seed and block size.
   */
  lemma NamespaceFixesScheme(upserts: seq<ModelProfile>, hashing: Hashing, i: nat, j: nat)
    requires i <= j < |upserts|
    requires forall k, l :: 0 <= k < |upserts| && 0 <= l < |upserts| ==> upserts[k].modelId == upserts[l].modelId
    requires NeverStale(upserts)
    requires Namespace(History(upserts)[i]) == Namespace(History(upserts)[j])
    ensures SchemeOf(History(upserts)[i], hashing) == SchemeOf(History(upserts)[j], hashing)
  {
    NamespacePinsHashSemantics(upserts, i, j);
  }

  /**
   * One scheme per index. Over any run of the configuration store, take any two profiles
   * it ever stored, for any two models that are never removed or upserted with a stale
   * version and whose hash profiles contain no slash. If their namespaces, and so their
   * indexes, are the same, they are of the same model and resolve to the same scheme.
   */
  lemma OneSchemePerNamespace(ops: seq<ConfigStore.ConfigOp>, hashing: Hashing, m: string, n: string, i: nat, j: nat)
    requires i <= |ops| && j <= |ops| && ConfigStore.Steady(ops, m) && ConfigStore.Steady(ops, n)
    requires m in ConfigStore.LongLived(ops[..i]).profiles && n in ConfigStore.LongLived(ops[..j]).profiles
    requires var p, q := ConfigStore.LongLived(ops[..i]).profiles[m], ConfigStore.LongLived(ops[..j]).profiles[n];
             Namespace(p) == Namespace(q) && '/' !in p.hashProfile && '/' !in q.hashProfile
    ensures m == n
    ensures SchemeOf(ConfigStore.LongLived(ops[..i]).profiles[m], hashing) ==
            SchemeOf(ConfigStore.LongLived(ops[..j]).profiles[n], hashing)
  {
    ConfigStore.LongLivedIsSane(ops[..i]);
    ConfigStore.LongLivedIsSane(ops[..j]);
    NamespaceInjectiveAcrossModels(ConfigStore.LongLived(ops[..i]).profiles[m], ConfigStore.LongLived(ops[..j]).profiles[n]);
    ConfigStore.RunsPinHashSemantics(ops, m, i, j);
  }

  // --------------------------------------------------------------- freshness

  predicate Trustworthy(l: StreamListener)
    reads l
  {
    l.connected && l.gaps == 0
  }

  /** StreamFreshForEngines */
  method StreamFreshForEngines(engines: seq<ConfigStore.Engine>, listeners: map<string, StreamListener>)
    returns (isFresh: bool)
    ensures isFresh <==> exists e :: e in engines && e.engineId in listeners &&
                                     listeners[e.engineId].connected && listeners[e.engineId].gaps == 0
  {
    for i := 0 to |engines|
      invariant forall j :: 0 <= j < i && engines[j].engineId in listeners ==>
                  !(listeners[engines[j].engineId].connected && listeners[engines[j].engineId].gaps == 0)
    {
      var e := engines[i];
      if e.engineId !in listeners {
        continue;
      }
      var l := listeners[e.engineId];
      if l.connected && l.gaps == 0 {
        return true;
      }
    }
    return false;
  }

  // ---------------------------------------------------------------- pipeline

  function TokenizerEndpoint(p: ModelProfile, engines: seq<ConfigStore.Engine>): string {
    if p.tokenizerEndpoint != "" then p.tokenizerEndpoint else FirstEndpoint(engines)
  }

  function FirstEndpoint(engines: seq<ConfigStore.Engine>): string {
    if engines == [] then ""
    else if engines[0].tokenizerEndpoint != "" then engines[0].tokenizerEndpoint
    else FirstEndpoint(engines[1..])
  }

  function BlockSizeOrDefault(p: ModelProfile): int {
    if p.blockSize <= 0 then 16 else p.blockSize
  }

  /** Tokenization is attempted only with an endpoint, and counts only if it yields tokens. */
  function Usable(p: ModelProfile, engines: seq<ConfigStore.Engine>, tokens: Option<Tokens>): Option<Tokens> {
    if TokenizerEndpoint(p, engines) != "" && tokens.Some? && |tokens.value.ids| > 0 then tokens else None
  }

  function KeysOf(p: ModelProfile, hashing: Hashing, t: Tokens): seq<uint64> {
    RequestKeys(hashing.block, SeedOf(p, hashing), t.ids, BlockSizeOrDefault(p))
  }

  /**
   * Query and ingest of one profile agree on the hashing, for every prompt, exactly when
   * the profile has a positive block size.
   */
  lemma QueryHashesLikeIngestExactly(p: ModelProfile, hashing: Hashing)
    ensures p.blockSize > 0 <==>
            forall t: Tokens :: KeysOf(p, hashing, t) ==
              RequestKeys(SchemeOf(p, hashing).hash, SchemeOf(p, hashing).seed, t.ids, SchemeOf(p, hashing).blockSize)
  {
    if p.blockSize <= 0 {
      var ids := seq(16, i => 0 as Token);
      var t := Tokens(ids, 16);
      assert Chunks(ids, 16) != [] && Chunks(ids, p.blockSize) == [];
      assert |KeysOf(p, hashing, t)| == |Chunks(ids, 16)|;
      assert KeysOf(p, hashing, t) !=
             RequestKeys(SchemeOf(p, hashing).hash, SchemeOf(p, hashing).seed, t.ids, SchemeOf(p, hashing).blockSize);
    }
  }

  /**
   * Without one, a stream whose events bring no block size of their own indexes nothing,
   * whatever it reports: the index stays empty, while queries are made in blocks of 16.
   */
  lemma {:induction false} UnsizedStreamsIndexNothing(p: ModelProfile, hashing: Hashing, run: seq<Delivery>)
    requires p.blockSize <= 0
    requires forall d :: d in run && d.report.event.BlockStored? ==> d.report.event.blockSize <= 0
    ensures IngestRun(SchemeOf(p, hashing), run) == EMPTY
    decreases |run|
  {
    if run != [] {
      var d, front := Last(run), Init(run);
      assert run == front + [d];
      UnsizedStreamsIndexNothing(p, hashing, front);
      UnsizedEventIsInert(SchemeOf(p, hashing), d.engineId, d.report.dpRank, d.report.event);
    }
  }

  lemma UnsizedStoreIsNotApplied(scheme: Scheme, dpRank: int, ev: Event)
    requires scheme.blockSize <= 0 && ev.BlockStored? && ev.blockSize <= 0
    ensures !Classify(scheme, map[], dpRank, ev).Applied?
  {
    if ev.blockHashes != [] {
      assert ev.blockHashes[0] in ev.blockHashes;
    }
  }

  lemma UnsizedEventIsInert(scheme: Scheme, e: string, dpRank: int, ev: Event)
    requires scheme.blockSize <= 0 && (ev.BlockStored? ==> ev.blockSize <= 0)
    ensures IngestEvent(scheme, EMPTY, e, dpRank, ev) == EMPTY
  {
    assert EngineViews.ViewOf(EMPTY, e).bridge == map[];
    match ev
    case BlockStored(_, _, _, _, _, _, _, _, _, _) => UnsizedStoreIsNotApplied(scheme, dpRank, ev);
    case BlockRemoved(hashes, medium) => NothingToRemove(Resident(e, dpRank, MediumToTier(medium)), hashes);
    case AllBlocksCleared =>
  }

  lemma {:induction false} NothingToRemove(r: Resident, eks: seq<uint64>)
    ensures Remove(EMPTY, r, eks) == EMPTY
    decreases |eks|
  {
    if eks != [] {
      NothingToRemove(r, Init(eks));
    }
  }

  /** What evaluate hands to the rules, given the index of the profile's namespace. */
  function InputOf(req: Request, profile: Option<ModelProfile>, engines: seq<ConfigStore.Engine>, rules: seq<Policy>,
                   hashing: Hashing, tokens: Option<Tokens>, isFresh: bool, s: State): Input
  {
    var tenant := if req.tenantId == "" then "default" else req.tenantId;
    var clusterId := if |engines| > 0 then engines[0].clusterId else "";
    match profile
    case None => Input(clusterId, req.model, tenant, 0, rules, None, None, false, false, true, |engines| > 0)
    case Some(p) =>
      var usable := Usable(p, engines, tokens);
      Input(clusterId, req.model, tenant, if usable.Some? then usable.value.count else 0, rules,
            if usable.Some? then Some(QueryResult(s, KeysOf(p, hashing, usable.value), BlockSizeOrDefault(p))) else None,
            None, isFresh, usable.Some?, p.supportsMultimodal || !req.hasMultimodalContent, |engines| > 0)
  }

  /**
   * The rules' input, read off request, profile, engines and tokens. Tokens count only with
   * a tokenizer endpoint of the profile or of some engine, and only if there are any;
   * multimodal content is supported only by profiles that say so; the tenant defaults.
   */
  lemma InputIsReadOff(req: Request, profile: Option<ModelProfile>, engines: seq<ConfigStore.Engine>, rules: seq<Policy>,
                       hashing: Hashing, tokens: Option<Tokens>, isFresh: bool, s: State)
    ensures var i := InputOf(req, profile, engines, rules, hashing, tokens, isFresh, s);
            && i.modelId == req.model && i.rules == rules && i.hitOverride.None?
            && i.tenantId == (if req.tenantId != "" then req.tenantId else "default")
            && i.clusterId == (if engines == [] then "" else engines[0].clusterId)
            && (i.hasCandidates <==> engines != [])
            && (i.isFresh <==> profile.Some? && isFresh)
            && (i.hashSupported <==> profile.None? || profile.value.supportsMultimodal || !req.hasMultimodalContent)
            && (i.tokenized <==>
                  && profile.Some? && tokens.Some? && tokens.value.ids != []
                  && (profile.value.tokenizerEndpoint != "" || exists e :: e in engines && e.tokenizerEndpoint != ""))
            && i.inputTokens == (if i.tokenized then tokens.value.count else 0)
            && (i.tokenized ==>
                  var p := profile.value;
                  var size := if p.blockSize > 0 then p.blockSize else 16;
                  var seed := hashing.seedOf(p.hashSeed + "|" + Namespace(p));
                  i.query == Some(QueryResult(s, RequestKeys(hashing.block, seed, tokens.value.ids, size), size)))
            && (!i.tokenized ==> i.query.None?)
  {
    AnyEndpoint(engines);
  }

  lemma {:induction false} AnyEndpoint(engines: seq<ConfigStore.Engine>)
    ensures FirstEndpoint(engines) != "" <==> exists e :: e in engines && e.tokenizerEndpoint != ""
    decreases |engines|
  {
    if engines != [] {
      AnyEndpoint(engines[1..]);
      assert engines == [engines[0]] + engines[1..];
    }
  }

  /** The index the pipeline queries for a namespace. */
  function StateFor(indexes: map<string, Index>, ns: string): State
    reads set k | k in indexes :: indexes[k]
  {
    if ns in indexes then indexes[ns].Value() else EMPTY
  }

  method QueryNamespace(mgr: Manager, p: ModelProfile, hashing: Hashing, tokens: Tokens, blockSize: int)
    returns (query: map<string, InstanceHit>)
    requires blockSize == BlockSizeOrDefault(p)
    modifies mgr
    ensures query == QueryResult(old(StateFor(mgr.indexes, Namespace(p))), KeysOf(p, hashing, tokens), blockSize)
    ensures forall ns :: ns in old(mgr.indexes) ==> ns in mgr.indexes && mgr.indexes[ns] == old(mgr.indexes)[ns]
  {
    var reqKeys := RequestKeysFromTokens(hashing.block, SeedOf(p, hashing), tokens.ids, blockSize);
    var ix := mgr.IndexFor(Namespace(p));
    query := ix.Query(reqKeys, blockSize);
  }

  /** evaluate, up to the admission result. */
  method Evaluate(m: Matcher, mgr: Manager, hashing: Hashing, req: Request, profile: Option<ModelProfile>,
                  engines: seq<ConfigStore.Engine>, rules: seq<Policy>, listeners: map<string, StreamListener>,
                  tokens: Option<Tokens>)
    returns (res: Result, isFresh: bool, ghost input: Input, ghost order: seq<Policy>)
    modifies mgr
    ensures input == InputOf(req, profile, engines, rules, hashing, tokens, isFresh,
                             old(if profile.Some? then StateFor(mgr.indexes, Namespace(profile.value)) else EMPTY))
    ensures Sorting(rules, order) && IsBestHit(input, res.hit) && res == Verdict(m, input, res.hit, order)
    ensures res.reason == CacheHitTooLow ==>
              exists e :: e in engines && e.engineId in listeners &&
                          listeners[e.engineId].connected && listeners[e.engineId].gaps == 0
    ensures (forall e :: e in engines && e.engineId in listeners ==>
               !listeners[e.engineId].connected || listeners[e.engineId].gaps > 0) ==>
              res.reason != CacheHitTooLow && FallsBackByDefault(m, input, res, order)
    ensures forall ns :: ns in old(mgr.indexes) ==> ns in mgr.indexes && mgr.indexes[ns] == old(mgr.indexes)[ns]
  {
    isFresh := false;
    if profile.Some? {
      isFresh := StreamFreshForEngines(engines, listeners);
    }
    var in' := BuildInput(mgr, hashing, req, profile, engines, rules, isFresh, tokens);
    input := in';
    res, order := Admission.Evaluate(m, in');
    LowHitMeansCertain(m, in', res.hit, order);
    if !isFresh {
      UnfreshRequestsFallBack(m, in', res.hit, order);
    }
  }

  /** A deciding rule that requires a cache hit and says nothing about uncertainty accepts. */
  ghost predicate FallsBackByDefault(m: Matcher, input: Input, res: Result, order: seq<Policy>) {
    var n := FirstSelected(m, input, res.hit, order);
    n < |order| && order[n].action.kind == "require_cache_hit" && order[n].action.onUncertain == "" ==>
      res.decision == Accept && res.fallback
  }

  lemma UnfreshRequestsFallBack(m: Matcher, input: Input, hit: HitInfo, order: seq<Policy>)
    requires !input.isFresh
    ensures var v := Verdict(m, input, hit, order);
            v.hit == hit && v.reason != CacheHitTooLow && FallsBackByDefault(m, input, v, order)
  {
    UncertainRequests(m, input, hit, order);
    DecidingRuleIsNamed(m, input, hit, order);
    var n := FirstSelected(m, input, hit, order);
    if n < |order| && order[n].action.kind == "require_cache_hit" {
      UncertainCacheRuleDecides(m, input, hit, order);
    }
  }

  method BuildInput(mgr: Manager, hashing: Hashing, req: Request, profile: Option<ModelProfile>,
                    engines: seq<ConfigStore.Engine>, rules: seq<Policy>, isFresh: bool, tokens: Option<Tokens>)
    returns (input: Input)
    modifies mgr
    ensures input == InputOf(req, profile, engines, rules, hashing, tokens, isFresh,
                             old(if profile.Some? then StateFor(mgr.indexes, Namespace(profile.value)) else EMPTY))
    ensures forall ns :: ns in old(mgr.indexes) ==> ns in mgr.indexes && mgr.indexes[ns] == old(mgr.indexes)[ns]
  {
    var tenant := req.tenantId;
    if tenant == "" {
      tenant := "default";
    }
    var clusterId := "";
    if |engines| > 0 {
      clusterId := engines[0].clusterId;
    }
    if profile.None? {
      return Input(clusterId, req.model, tenant, 0, rules, None, None, false, false, true, |engines| > 0);
    }
    var p := profile.value;
    var hashSupported := p.supportsMultimodal || !req.hasMultimodalContent;
    var blockSize := p.blockSize;
    if blockSize <= 0 {
      blockSize := 16;
    }
    var tokenized, inputTokens, query := false, 0, None;
    if TokenizerEndpoint(p, engines) != "" && tokens.Some? && |tokens.value.ids| > 0 {
      tokenized := true;
      inputTokens := tokens.value.count;
      var q := QueryNamespace(mgr, p, hashing, tokens.value, blockSize);
      query := Some(q);
    }
    input := Input(clusterId, req.model, tenant, inputTokens, rules, query, None, isFresh, tokenized, hashSupported,
                   |engines| > 0);
  }

  lemma LowHitMeansCertain(m: Matcher, input: Input, hit: HitInfo, order: seq<Policy>)
    ensures var v := Verdict(m, input, hit, order);
            v.reason == CacheHitTooLow ==> Uncertainty(input).None? && hit.hitRatio < v.minRequiredHitRatio
  {
    ActionHits(input);
  }

  lemma ActionHits(input: Input)
    ensures forall r: Result, a: Action {:trigger ApplyAction(input, r, a)} ::
              ApplyAction(input, r, a).reason == CacheHitTooLow ==>
                Uncertainty(input).None? && r.hit.hitRatio < ApplyAction(input, r, a).minRequiredHitRatio
  {
  }

  /**
   * A low-hit rejection rests on a trusted signal only: the profile exists, the prompt
   * was tokenized, its features are supported, an engine serves the model, the streams
   * were fresh, and every instance's credited share of the prompt is below the threshold.
   */
  lemma LowHitOnlyOnTrustedSignal(m: Matcher, req: Request, profile: Option<ModelProfile>,
                                  engines: seq<ConfigStore.Engine>, rules: seq<Policy>, hashing: Hashing,
                                  tokens: Option<Tokens>, isFresh: bool, s: State, hit: HitInfo, order: seq<Policy>)
    requires var input := InputOf(req, profile, engines, rules, hashing, tokens, isFresh, s);
             IsBestHit(input, hit) && Verdict(m, input, hit, order).reason == CacheHitTooLow
    ensures profile.Some? && tokens.Some? && tokens.value.ids != [] && engines != [] && isFresh
    ensures profile.value.supportsMultimodal || !req.hasMultimodalContent
    ensures var input := InputOf(req, profile, engines, rules, hashing, tokens, isFresh, s);
            var q := QueryResult(s, KeysOf(profile.value, hashing, tokens.value), BlockSizeOrDefault(profile.value));
            forall e :: e in q ==>
              RatioOf(Quarters(q[e]) / 4, tokens.value.count) < Verdict(m, input, hit, order).minRequiredHitRatio
    ensures var input := InputOf(req, profile, engines, rules, hashing, tokens, isFresh, s);
            Verdict(m, input, hit, order).minRequiredHitRatio > 0.0
  {
    var input := InputOf(req, profile, engines, rules, hashing, tokens, isFresh, s);
    LowHitMeansCertain(m, input, hit, order);
    var keys, bs := KeysOf(profile.value, hashing, tokens.value), BlockSizeOrDefault(profile.value);
    HitCreditIsWellDefined(s, keys, bs, input, hit);
    var q := QueryResult(s, keys, bs);
    forall e | e in q ensures RatioOf(Quarters(q[e]) / 4, tokens.value.count) <= hit.hitRatio {
      RatioGrows(Quarters(q[e]) / 4, hit.effectiveCachedTokens, tokens.value.count);
    }
  }

  /** And a trustworthy listener has missed nothing since its first message. */
  lemma TrustedStreamMissedNothing(l: StreamListener, n: nat)
    requires l.Valid() && Trustworthy(l) && n <= |l.history|
    ensures Complete(l.history[..n])
  {
    ZeroGapsIffNothingMissed(l.history);
  }

  // ------------------------------------------- the pipeline and the real caches

  /**
   * End to end: with a positive block size and an index that ingested the history, what
   * the rules get to see of an engine that reported faithfully is the longest prefix of
   * the prompt in its real cache, with the right tier counts.
   */
  lemma PipelineSeesTheCache(w: World, history: seq<Happening>, e: string, req: Request, p: ModelProfile,
                             engines: seq<ConfigStore.Engine>, rules: seq<Policy>, hashing: Hashing, tokens: Tokens,
                             isFresh: bool)
    requires p.blockSize > 0 && w.scheme == SchemeOf(p, hashing) && w.blockSize == p.blockSize
    requires CollisionFree(w) && Faithful(w, ActsOf(history, e)) && InPlay(w, Chunks(tokens.ids, p.blockSize))
    requires Usable(p, engines, Some(tokens)).Some?
    ensures var s := IngestRun(w.scheme, Deliveries(history));
            var query := InputOf(req, Some(p), engines, rules, hashing, Some(tokens), isFresh, s).query;
            var c, chunks := CacheAfter(ActsOf(history, e)), Chunks(tokens.ids, p.blockSize);
            && query.Some?
            && (e in query.value <==> chunks != [] && Cached(c, UpTo(chunks, 0)))
            && (e in query.value ==> IsLongestCachedPrefix(c, chunks, p.blockSize, query.value[e]))
  {
    IndexRefinesCache(w, history, e, tokens.ids);
  }

  /** The credit of a cache is well defined: two descriptions of its longest prefix are the same. */
  lemma LongestCachedPrefixIsUnique(c: Cache, chunks: Chain, blockSize: int, a: InstanceHit, b: InstanceHit)
    requires IsLongestCachedPrefix(c, chunks, blockSize, a) && IsLongestCachedPrefix(c, chunks, blockSize, b)
    ensures a == b
  {
    var k: nat :| k <= |chunks| && IsCachedPrefix(c, chunks, blockSize, a, k);
    var l: nat :| l <= |chunks| && IsCachedPrefix(c, chunks, blockSize, b, l);
    assert k == l;
    RanksAreUnique(c, chunks, blockSize, k, a.dp, b.dp);
  }

  lemma RanksAreUnique(c: Cache, chunks: Chain, blockSize: int, k: nat, x: map<int, int>, y: map<int, int>)
    requires k <= |chunks| && RanksMatch(c, chunks, blockSize, k, x) && RanksMatch(c, chunks, blockSize, k, y)
    ensures x == y
  {
    forall d ensures (d in x <==> d in y) && (d in x ==> x[d] == y[d]) {
      assert d in x <==> CachedHolds(c, chunks, k, d) != {};
      assert d in y <==> CachedHolds(c, chunks, k, d) != {};
    }
  }

  lemma NothingCachedIsNoCredit(c: Cache, chunks: Chain, blockSize: int, hit: InstanceHit)
    requires IsLongestCachedPrefix(c, chunks, blockSize, hit)
    requires chunks == [] || !Cached(c, UpTo(chunks, 0))
    ensures Quarters(hit) == 0
  {
    assert CachedBlocks(c, chunks, 0, {"gpu"}) == {} && CachedBlocks(c, chunks, 0, {"gpu", "cpu"}) == {};
    var none := InstanceHit(0, 0, 0, 0, map[]);
    assert forall d :: CachedHolds(c, chunks, 0, d) == {};
    assert IsCachedPrefix(c, chunks, blockSize, none, 0);
    LongestCachedPrefixIsUnique(c, chunks, blockSize, hit, none);
  }

  lemma CachedCreditBelow(q: map<string, InstanceHit>, e: string, c: Cache, chunks: Chain, blockSize: int,
                          cached: InstanceHit, count: int, threshold: real)
    requires e in q <==> chunks != [] && Cached(c, UpTo(chunks, 0))
    requires e in q ==> IsLongestCachedPrefix(c, chunks, blockSize, q[e])
    requires threshold > 0.0 && forall f :: f in q ==> RatioOf(Quarters(q[f]) / 4, count) < threshold
    requires IsLongestCachedPrefix(c, chunks, blockSize, cached)
    ensures RatioOf(Quarters(cached) / 4, count) < threshold
  {
    if e in q {
      LongestCachedPrefixIsUnique(c, chunks, blockSize, cached, q[e]);
    } else {
      NothingCachedIsNoCredit(c, chunks, blockSize, cached);
    }
  }

  /** Over an index that answers for `e` as its cache would. */
  lemma LowHitOverCache(m: Matcher, w: World, s: State, e: string, c: Cache, req: Request, p: ModelProfile,
                        engines: seq<ConfigStore.Engine>, rules: seq<Policy>, hashing: Hashing, tokens: Tokens,
                        isFresh: bool, hit: HitInfo, order: seq<Policy>, cached: InstanceHit)
    requires p.blockSize > 0 && w.scheme == SchemeOf(p, hashing) && w.blockSize == p.blockSize
    requires Answers(w, s, e, c, tokens.ids)
    requires var input := InputOf(req, Some(p), engines, rules, hashing, Some(tokens), isFresh, s);
             IsBestHit(input, hit) && Verdict(m, input, hit, order).reason == CacheHitTooLow
    requires IsLongestCachedPrefix(c, Chunks(tokens.ids, p.blockSize), p.blockSize, cached)
    ensures var input := InputOf(req, Some(p), engines, rules, hashing, Some(tokens), isFresh, s);
            RatioOf(Quarters(cached) / 4, tokens.count) < Verdict(m, input, hit, order).minRequiredHitRatio
  {
    var input := InputOf(req, Some(p), engines, rules, hashing, Some(tokens), isFresh, s);
    LowHitOnlyOnTrustedSignal(m, req, Some(p), engines, rules, hashing, Some(tokens), isFresh, s, hit, order);
    CachedCreditBelow(QueryResult(s, KeysOf(p, hashing, tokens), p.blockSize), e, c, Chunks(tokens.ids, p.blockSize),
                      p.blockSize, cached, tokens.count, Verdict(m, input, hit, order).minRequiredHitRatio);
  }

  /**
   * So a low-hit rejection is a statement about the engines themselves: what a faithfully
   * reporting engine really has cached of the prompt is worth less than the threshold.
   */
  lemma LowHitMeansLittleCached(m: Matcher, w: World, history: seq<Happening>, e: string, req: Request, p: ModelProfile,
                                engines: seq<ConfigStore.Engine>, rules: seq<Policy>, hashing: Hashing, tokens: Tokens,
                                isFresh: bool, hit: HitInfo, order: seq<Policy>, cached: InstanceHit)
    requires p.blockSize > 0 && w.scheme == SchemeOf(p, hashing) && w.blockSize == p.blockSize
    requires CollisionFree(w) && Faithful(w, ActsOf(history, e)) && InPlay(w, Chunks(tokens.ids, p.blockSize))
    requires var s := IngestRun(w.scheme, Deliveries(history));
             var input := InputOf(req, Some(p), engines, rules, hashing, Some(tokens), isFresh, s);
             IsBestHit(input, hit) && Verdict(m, input, hit, order).reason == CacheHitTooLow
    requires IsLongestCachedPrefix(CacheAfter(ActsOf(history, e)), Chunks(tokens.ids, p.blockSize), p.blockSize, cached)
    ensures var s := IngestRun(w.scheme, Deliveries(history));
            var input := InputOf(req, Some(p), engines, rules, hashing, Some(tokens), isFresh, s);
            RatioOf(Quarters(cached) / 4, tokens.count) < Verdict(m, input, hit, order).minRequiredHitRatio
  {
    IndexRefinesCache(w, history, e, tokens.ids);
    LowHitOverCache(m, w, IngestRun(w.scheme, Deliveries(history)), e, CacheAfter(ActsOf(history, e)), req, p, engines,
                    rules, hashing, tokens, isFresh, hit, order, cached);
  }

  /** A listener that heard the engine's batches from number 0 on, none twice, and trusts its stream. */
  ghost predicate HeardFromTheStart(l: StreamListener, batches: seq<Batch>)
    reads l
  {
    && l.Valid() && Trustworthy(l) && l.hasSeq
    && Published(batches) && Carries(batches, l.history) && NoNumberTwice(l.history)
    && FirstOnTheWire(l.history) == Some(0)
  }

  /** What the engine had reported when it published the last batch heard. */
  function ReportsUpTo(l: StreamListener, batches: seq<Batch>): seq<Report>
    reads l
  {
    var n := l.lastSeq as int + 1;
    ReportsOf(BatchesDelivered(l.engineId, if 0 <= n <= |batches| then batches[..n] else batches), l.engineId)
  }

  lemma TrustedReports(l: StreamListener, batches: seq<Batch>)
    requires HeardFromTheStart(l, batches)
    ensures ReportsOf(FrameDeliveries(l.engineId, l.history), l.engineId) == ReportsUpTo(l, batches)
  {
    var n := l.lastSeq as int + 1;
    assert BatchesIn(l.history) == batches[..n] && 0 <= n <= |batches| by {
      NothingMissedExactly(batches, l.history);
    }
    FramesDeliverBatches(l.engineId, l.history);
  }

  /**
   * Where trust and the real cache meet. If the engine's listener is trustworthy and heard
   * the stream from its start, and the index ingested what the listener heard, interleaved
   * with anything from other engines, then the index answers for the engine with its real
   * cache as of the last batch heard.
   */
  lemma TrustedAnswersAreRight(w: World, l: StreamListener, batches: seq<Batch>, run: seq<Delivery>, acts: seq<Act>,
                               tokens: seq<Token>)
    requires HeardFromTheStart(l, batches) && CollisionFree(w) && Faithful(w, acts)
    requires InPlay(w, Chunks(tokens, w.blockSize))
    requires ReportsOf(run, l.engineId) == ReportsOf(FrameDeliveries(l.engineId, l.history), l.engineId)
    requires ReportsIn(acts) == ReportsUpTo(l, batches)
    ensures Answers(w, IngestRun(w.scheme, run), l.engineId, CacheAfter(acts), tokens)
  {
    TrustedReports(l, batches);
    FaithfulIsKnown(w, acts);
    StreamAnswers(w, run, l.engineId, acts, tokens);
  }

  /** And then a low-hit rejection is about what that engine has really cached. */
  lemma TrustedLowHitMeansLittleCached(m: Matcher, w: World, l: StreamListener, batches: seq<Batch>, run: seq<Delivery>,
                                       acts: seq<Act>, req: Request, p: ModelProfile, engines: seq<ConfigStore.Engine>,
                                       rules: seq<Policy>, hashing: Hashing, tokens: Tokens, isFresh: bool, hit: HitInfo,
                                       order: seq<Policy>, cached: InstanceHit)
    requires p.blockSize > 0 && w.scheme == SchemeOf(p, hashing) && w.blockSize == p.blockSize
    requires HeardFromTheStart(l, batches) && CollisionFree(w) && Faithful(w, acts)
    requires InPlay(w, Chunks(tokens.ids, p.blockSize))
    requires ReportsOf(run, l.engineId) == ReportsOf(FrameDeliveries(l.engineId, l.history), l.engineId)
    requires ReportsIn(acts) == ReportsUpTo(l, batches)
    requires var input := InputOf(req, Some(p), engines, rules, hashing, Some(tokens), isFresh, IngestRun(w.scheme, run));
             IsBestHit(input, hit) && Verdict(m, input, hit, order).reason == CacheHitTooLow
    requires IsLongestCachedPrefix(CacheAfter(acts), Chunks(tokens.ids, p.blockSize), p.blockSize, cached)
    ensures var input := InputOf(req, Some(p), engines, rules, hashing, Some(tokens), isFresh, IngestRun(w.scheme, run));
            RatioOf(Quarters(cached) / 4, tokens.count) < Verdict(m, input, hit, order).minRequiredHitRatio
  {
    TrustedAnswersAreRight(w, l, batches, run, acts, tokens.ids);
    LowHitOverCache(m, w, IngestRun(w.scheme, run), l.engineId, CacheAfter(acts), req, p, engines, rules, hashing, tokens,
                    isFresh, hit, order, cached);
  }

  /**
   * Trust alone is not enough. A connected listener that has heard only the engine's
   * batches from `k` on, or nothing at all, is trustworthy, and what reaches the index
   * through it are those batches only: of the `k` earlier ones, whatever they
   * reported, nothing.
   */
  lemma LateListenerIsTrusted(l: StreamListener, batches: seq<Batch>, k: nat)
    requires l.Valid() && l.connected && Published(batches) && k <= |batches| && l.history == Sent(batches[k..])
    ensures Trustworthy(l) && l.gaps == 0
    ensures FrameDeliveries(l.engineId, l.history) == BatchesDelivered(l.engineId, batches[k..])
  {
    LateListenerCountsNoGap(batches, k);
    FramesDeliverBatches(l.engineId, l.history);
  }

  /** An idle one leaves its engine without a hit for any prompt, whatever the engine holds. */
  lemma IdleListenerHidesTheCache(l: StreamListener, scheme: Scheme, run: seq<Delivery>, keys: seq<uint64>, blockSize: int)
    requires l.Valid() && l.connected && l.history == []
    requires ReportsOf(run, l.engineId) == ReportsOf(FrameDeliveries(l.engineId, l.history), l.engineId)
    ensures Trustworthy(l) && l.engineId !in QueryResult(IngestRun(scheme, run), keys, blockSize)
  {
    assert ReportsOf(run, l.engineId) == [];
    UnheardEngineHasNothing(scheme, run, l.engineId);
    EmptyViewHasNoHit(IngestRun(scheme, run), l.engineId, keys, blockSize);
  }

  lemma UnheardEngineHasNothing(scheme: Scheme, run: seq<Delivery>, e: string)
    requires ReportsOf(run, e) == []
    ensures EngineViews.ViewOf(IngestRun(scheme, run), e) == EngineViews.EMPTY_VIEW
  {
    StreamsAreIsolated(scheme, map[], run, e);
  }

  lemma EmptyViewHasNoHit(s: State, e: string, keys: seq<uint64>, blockSize: int)
    requires EngineViews.ViewOf(s, e) == EngineViews.EMPTY_VIEW
    ensures e !in QueryResult(s, keys, blockSize)
  {
    EngineViews.ViewMembers(s, e);
    QueryIsLongestPrefix(s, keys, blockSize, e);
    assert keys != [] ==> !EngineViews.Held(EngineViews.EMPTY_VIEW, keys[0]);
  }

  // ------------------------------------ more residency never causes a rejection

  /** `t` has all the holds of `s`. */
  ghost predicate HoldsMore(s: State, t: State) {
    forall rk :: Holders(s, rk) <= Holders(t, rk)
  }

  lemma StoresHoldMore(s: State, e: string, op: Op)
    requires op.StoreOp? || op.CopyOp?
    ensures HoldsMore(s, Step(s, e, op))
  {
  }

  lemma {:induction false} CountGrows(a: seq<Block>, b: seq<Block>, p: Block -> bool)
    requires |a| <= |b| && forall i :: 0 <= i < |a| && p(a[i]) ==> p(b[i])
    ensures Count(a, p) <= Count(b, p)
    decreases |b|
  {
    if |a| < |b| {
      CountGrows(a, Init(b), p);
    } else if a != [] {
      CountGrows(Init(a), Init(b), p);
    }
  }

  lemma BlocksGrow(s: State, t: State, keys: seq<uint64>, e: string)
    requires HoldsMore(s, t)
    ensures forall i :: 0 <= i < |keys| ==> BlocksOf(s, e, keys)[i] <= BlocksOf(t, e, keys)[i]
  {
    forall i | 0 <= i < |keys| ensures BlocksOf(s, e, keys)[i] <= BlocksOf(t, e, keys)[i] {
      assert Holders(s, keys[i]) <= Holders(t, keys[i]);
    }
  }

  /** With more holds every instance is still there, with counts at least as large, rank by rank too. */
  lemma HitsGrow(s: State, t: State, keys: seq<uint64>, blockSize: int, e: string)
    requires HoldsMore(s, t) && blockSize >= 0 && e in QueryResult(s, keys, blockSize)
    ensures var q, r := QueryResult(s, keys, blockSize), QueryResult(t, keys, blockSize);
            e in r && HitGrows(q[e], r[e])
  {
    var a, b := BlocksOf(s, e, keys), BlocksOf(t, e, keys);
    BlocksGrow(s, t, keys, e);
    RunIsLongest(a);
    RunIsLongest(b);
    assert Run(a) <= Run(b);
    RunHitGrows(a[..Run(a)], b[..Run(b)], blockSize);
    assert Holders(s, keys[0]) <= Holders(t, keys[0]);
  }

  predicate HitGrows(x: InstanceHit, y: InstanceHit) {
    && x.longestMatched <= y.longestMatched && x.gpu <= y.gpu && x.cpu <= y.cpu && x.disk <= y.disk
    && forall d :: d in x.dp ==> d in y.dp && x.dp[d] <= y.dp[d]
  }

  lemma {:induction false} RankHoldsGrow(a: seq<Block>, b: seq<Block>, d: int)
    requires |a| <= |b| && forall i :: 0 <= i < |a| ==> a[i] <= b[i]
    ensures RankHolds(a, d) <= RankHolds(b, d)
    ensures d in Ranks(a) ==> d in Ranks(b)
    decreases |b|
  {
    if |a| < |b| {
      RankHoldsGrow(a, Init(b), d);
    } else if a != [] {
      RankHoldsGrow(Init(a), Init(b), d);
      RankSpotsGrow(Last(a), Last(b), d);
    }
  }

  lemma RankSpotsGrow(a: Block, b: Block, d: int)
    requires a <= b
    ensures |RankSpots(a, d)| <= |RankSpots(b, d)|
    ensures d in RanksIn(a) ==> d in RanksIn(b)
  {
    var more := RankSpots(b, d) - RankSpots(a, d);
    assert RankSpots(b, d) == RankSpots(a, d) + more;
  }

  lemma RunHitGrows(a: seq<Block>, b: seq<Block>, blockSize: int)
    requires |a| <= |b| && blockSize >= 0 && forall i :: 0 <= i < |a| ==> a[i] <= b[i]
    ensures HitGrows(HitOfRun(a, blockSize), HitOfRun(b, blockSize))
  {
    CountGrows(a, b, OnGpu);
    CountGrows(a, b, OnGpuOrCpu);
    TokensMonotone(|a|, |b|, blockSize);
    TokensMonotone(Count(a, OnGpu), Count(b, OnGpu), blockSize);
    TokensMonotone(Count(a, OnGpuOrCpu), Count(b, OnGpuOrCpu), blockSize);
    forall d | d in Ranks(a) ensures d in Ranks(b) && RankTokens(a, blockSize)[d] <= RankTokens(b, blockSize)[d] {
      RankHoldsGrow(a, b, d);
      TokensMonotone(RankHolds(a, d), RankHolds(b, d), blockSize);
    }
  }

  lemma RatioGrows(a: int, b: int, inputTokens: int)
    requires a <= b
    ensures RatioOf(a, inputTokens) <= RatioOf(b, inputTokens)
  {
    if inputTokens > 0 {
      DivideMonotone((if a > inputTokens then inputTokens else a) as real,
                     (if b > inputTokens then inputTokens else b) as real, inputTokens as real);
    }
  }

  lemma CreditGrows(s: State, t: State, keys: seq<uint64>, blockSize: int, a: Input, b: Input, hitS: HitInfo, hitT: HitInfo)
    requires HoldsMore(s, t) && blockSize >= 0
    requires a.hitOverride.None? && a.query == Some(QueryResult(s, keys, blockSize)) && IsBestHit(a, hitS)
    requires b == a.(query := Some(QueryResult(t, keys, blockSize))) && IsBestHit(b, hitT)
    ensures hitS.effectiveCachedTokens <= hitT.effectiveCachedTokens && hitS.hitRatio <= hitT.hitRatio
  {
    var q, r := QueryResult(s, keys, blockSize), QueryResult(t, keys, blockSize);
    HitCreditIsWellDefined(s, keys, blockSize, a, hitS);
    HitCreditIsWellDefined(t, keys, blockSize, b, hitT);
    if id :| id in q && hitS.effectiveCachedTokens == Quarters(q[id]) / 4 {
      HitsGrow(s, t, keys, blockSize, id);
    } else if other :| other in r {
      CreditIsNotNegative(t, keys, blockSize, other);
    }
    RatioGrows(hitS.effectiveCachedTokens, hitT.effectiveCachedTokens, a.inputTokens);
  }

  lemma CreditIsNotNegative(s: State, keys: seq<uint64>, blockSize: int, e: string)
    requires blockSize >= 0 && e in QueryResult(s, keys, blockSize)
    ensures 0 <= Quarters(QueryResult(s, keys, blockSize)[e])
  {
    QueryIsLongestPrefix(s, keys, blockSize, e);
  }

  /**
   * More residency never causes a rejection. With rules that do not look at the hit
   * itself, any BlockStored, with tokens or a tier copy, arriving before a request
   * leaves it accepted if it would have been accepted without.
   */
  lemma MoreResidencyNeverRejects(m: Matcher, req: Request, profile: Option<ModelProfile>,
                                  engines: seq<ConfigStore.Engine>, rules: seq<Policy>, hashing: Hashing,
                                  tokens: Option<Tokens>, isFresh: bool, s: State, e: string, op: Op,
                                  hit: HitInfo, hit': HitInfo, order: seq<Policy>)
    requires op.StoreOp? || op.CopyOp?
    requires forall p :: p in order ==> IgnoresHit(p)
    requires IsBestHit(InputOf(req, profile, engines, rules, hashing, tokens, isFresh, s), hit)
    requires IsBestHit(InputOf(req, profile, engines, rules, hashing, tokens, isFresh, Step(s, e, op)), hit')
    requires Verdict(m, InputOf(req, profile, engines, rules, hashing, tokens, isFresh, s), hit, order).decision == Accept
    ensures Verdict(m, InputOf(req, profile, engines, rules, hashing, tokens, isFresh, Step(s, e, op)), hit', order).decision == Accept
  {
    var t := Step(s, e, op);
    var a := InputOf(req, profile, engines, rules, hashing, tokens, isFresh, s);
    var b := InputOf(req, profile, engines, rules, hashing, tokens, isFresh, t);
    StoresHoldMore(s, e, op);
    if profile.Some? && Usable(profile.value, engines, tokens).Some? {
      CreditGrows(s, t, KeysOf(profile.value, hashing, tokens.value), BlockSizeOrDefault(profile.value), a, b, hit, hit');
    }
    BetterHitNeverRejects(m, a, b, hit, hit', order);
  }

  // ------------------------------------------------- the gateway's variant

  /** What the gateway knows about a request: the tokens and the connection, nothing of the cache. */
  function LocalInput(req: Request, rules: seq<Policy>, engines: seq<ConfigStore.Engine>, inputTokens: int,
                      fallbackCluster: string): Input {
    Input(if engines != [] && engines[0].clusterId != "" then engines[0].clusterId else fallbackCluster,
          req.model, if req.tenantId == "" then "default" else req.tenantId, inputTokens, TokenOnly(rules),
          None, None, true, true, true, engines != [])
  }

  lemma LocalInputMeans(req: Request, rules: seq<Policy>, engines: seq<ConfigStore.Engine>, inputTokens: int,
                        fallbackCluster: string)
    ensures var i := LocalInput(req, rules, engines, inputTokens, fallbackCluster);
            && i.modelId == req.model && i.inputTokens == inputTokens
            && i.tenantId == (if req.tenantId != "" then req.tenantId else "default")
            && (engines == [] || engines[0].clusterId == "" ==> i.clusterId == fallbackCluster)
            && (engines != [] && engines[0].clusterId != "" ==> i.clusterId == engines[0].clusterId)
            && (i.hasCandidates <==> engines != []) && i.isFresh && i.tokenized && i.hashSupported
            && i.query.None? && i.hitOverride.None?
  {
  }

  /**
   * evaluateLocal on the filtered rules. The claimed freshness and the missing query are
   * immaterial: any other knowledge about the cache gives the same verdict.
   */
  method EvaluateLocal(m: Matcher, req: Request, rules: seq<Policy>, engines: seq<ConfigStore.Engine>,
                       inputTokens: int, fallbackCluster: string)
    returns (res: Result)
    ensures exists order :: Sorting(TokenOnly(rules), order) &&
              forall other: Input, hit: HitInfo ::
                SameButCache(LocalInput(req, rules, engines, inputTokens, fallbackCluster), other) ==>
                  Verdict(m, other, hit, order) == res.(hit := hit)
  {
    var tenant := if req.tenantId == "" then "default" else req.tenantId;
    var clusterId := fallbackCluster;
    if |engines| > 0 && engines[0].clusterId != "" {
      clusterId := engines[0].clusterId;
    }
    var kept := TokenOnlyPolicies(rules);
    var input := Input(clusterId, req.model, tenant, inputTokens, kept, None, None, true, true, true, |engines| > 0);
    assert input == LocalInput(req, rules, engines, inputTokens, fallbackCluster);
    ghost var order;
    res, order := Admission.Evaluate(m, input);
    assert forall p :: p in order <==> p in multiset(order);
    forall other: Input, hit: HitInfo | SameButCache(input, other)
      ensures Verdict(m, other, hit, order) == res.(hit := hit)
    {
      TokenOnlyIgnoresCache(m, input, other, res.hit, hit, order);
    }
  }
}
