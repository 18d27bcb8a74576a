/**
 * What Index.Query has to answer, defined block by block: for each instance, the
 * longest contiguous resident prefix and its per-tier and per-rank token counts.
 */
module Hits {
  import opened Basics
  import opened IndexState

  const GPU: string := "gpu"
  const CPU: string := "cpu"

  /** One hold of a block by the instance in question. */
  datatype Spot = Spot(dpRank: int, tier: string)

  /** How one instance holds one block; empty when it does not. */
  type Block = set<Spot>

  datatype InstanceHit = InstanceHit(longestMatched: int, gpu: int, cpu: int, disk: int, dp: map<int, int>)

  function SpotsOf(holders: set<Resident>, e: string): Block {
    set r | r in holders && r.engineId == e :: Spot(r.dpRank, r.tier)
  }

  function BlockOf(s: State, e: string, rk: uint64): Block {
    SpotsOf(Holders(s, rk), e)
  }

  function BlocksOf(s: State, e: string, keys: seq<uint64>): seq<Block> {
    seq(|keys|, i requires 0 <= i < |keys| => BlockOf(s, e, keys[i]))
  }

  lemma BlockMembers(s: State, e: string, rk: uint64)
    ensures forall dp, tier {:trigger Spot(dp, tier)} ::
              Spot(dp, tier) in BlockOf(s, e, rk) <==> Resident(e, dp, tier) in Holders(s, rk)
    ensures BlockOf(s, e, rk) != {} <==> HasEngine(Holders(s, rk), e)
  {
    forall dp, tier
      ensures Spot(dp, tier) in BlockOf(s, e, rk) <==> Resident(e, dp, tier) in Holders(s, rk)
    {
      if Resident(e, dp, tier) in Holders(s, rk) {
        var r := Resident(e, dp, tier);
        assert r in Holders(s, rk) && r.engineId == e && Spot(r.dpRank, r.tier) == Spot(dp, tier);
      }
    }
    if HasEngine(Holders(s, rk), e) {
      var r :| r in Holders(s, rk) && r.engineId == e;
      assert Spot(r.dpRank, r.tier) in BlockOf(s, e, rk);
    }
    if b :| b in BlockOf(s, e, rk) {
      assert b == Spot(b.dpRank, b.tier);
    }
  }

  // ------------------------------------------------------------ definitions

  /** How many blocks from the start are held without a gap. */
  function Run(blocks: seq<Block>): (k: nat)
    ensures k <= |blocks|
  {
    if blocks == [] then 0
    else
      var k := Run(Init(blocks));
      if k == |blocks| - 1 && Last(blocks) != {} then k + 1 else k
  }

  predicate OnGpu(b: Block) {
    exists x :: x in b && x.tier == GPU
  }

  predicate OnGpuOrCpu(b: Block) {
    exists x :: x in b && (x.tier == GPU || x.tier == CPU)
  }

  function Count(blocks: seq<Block>, p: Block -> bool): nat {
    if blocks == [] then 0 else Count(Init(blocks), p) + (if p(Last(blocks)) then 1 else 0)
  }

  function RankSpots(b: Block, rank: int): set<Spot> {
    set x | x in b && x.dpRank == rank
  }

  /** Holds of one rank over all blocks; a rank in two tiers counts twice. */
  function RankHolds(blocks: seq<Block>, rank: int): nat {
    if blocks == [] then 0 else RankHolds(Init(blocks), rank) + |RankSpots(Last(blocks), rank)|
  }

  function RanksIn(b: Block): set<int> {
    set x | x in b :: x.dpRank
  }

  function Ranks(blocks: seq<Block>): set<int> {
    if blocks == [] then {} else Ranks(Init(blocks)) + RanksIn(Last(blocks))
  }

  /** The tokens of `n` blocks, added up block by block. */
  function Tokens(n: nat, blockSize: int): int {
    if n == 0 then 0 else Tokens(n - 1, blockSize) + blockSize
  }

  lemma {:induction false} TokensIsProduct(n: nat, blockSize: int)
    ensures Tokens(n, blockSize) == blockSize * n
    decreases n
  {
    if n > 0 {
      TokensIsProduct(n - 1, blockSize);
      assert blockSize * n == blockSize * (n - 1) + blockSize;
    }
  }

  lemma {:induction false} TokensAdd(m: nat, n: nat, blockSize: int)
    ensures Tokens(m + n, blockSize) == Tokens(m, blockSize) + Tokens(n, blockSize)
    decreases n
  {
    if n > 0 {
      TokensAdd(m, n - 1, blockSize);
    }
  }

  lemma {:induction false} TokensMonotone(m: nat, n: nat, blockSize: int)
    requires m <= n && blockSize >= 0
    ensures 0 <= Tokens(m, blockSize) <= Tokens(n, blockSize)
    decreases n
  {
    if m < n {
      TokensMonotone(m, n - 1, blockSize);
    } else if n > 0 {
      TokensMonotone(m - 1, n - 1, blockSize);
    }
  }

  function HitOf(blocks: seq<Block>, blockSize: int): InstanceHit {
    HitOfRun(blocks[..Run(blocks)], blockSize)
  }

  function HitOfRun(m: seq<Block>, blockSize: int): InstanceHit {
    InstanceHit(Tokens(|m|, blockSize),
                Tokens(Count(m, OnGpu), blockSize),
                Tokens(Count(m, OnGpuOrCpu), blockSize),
                Tokens(|m|, blockSize),
                RankTokens(m, blockSize))
  }

  function RankTokens(m: seq<Block>, blockSize: int): map<int, int> {
    map d | d in Ranks(m) :: Tokens(RankHolds(m, d), blockSize)
  }

  function Engines(holders: set<Resident>): set<string> {
    set r | r in holders :: r.engineId
  }

  function QueryResult(s: State, keys: seq<uint64>, blockSize: int): map<string, InstanceHit> {
    if keys == [] then map[]
    else map e | e in Engines(Holders(s, keys[0])) :: HitOf(BlocksOf(s, e, keys), blockSize)
  }

  // ------------------------------------------------- meaning of the answer

  lemma {:induction false} RunIsLongest(blocks: seq<Block>)
    ensures forall i :: 0 <= i < Run(blocks) ==> blocks[i] != {}
    ensures Run(blocks) < |blocks| ==> blocks[Run(blocks)] == {}
    decreases |blocks|
  {
    if blocks != [] {
      RunIsLongest(Init(blocks));
    }
  }

  lemma RunIsUnique(blocks: seq<Block>, k: nat)
    requires k <= |blocks|
    requires forall i :: 0 <= i < k ==> blocks[i] != {}
    requires k < |blocks| ==> blocks[k] == {}
    ensures Run(blocks) == k
  {
    RunIsLongest(blocks);
  }

  lemma {:induction false} CountIsCardinality(blocks: seq<Block>, p: Block -> bool, hits: set<int>)
    requires forall i :: i in hits <==> 0 <= i < |blocks| && p(blocks[i])
    ensures Count(blocks, p) == |hits|
    decreases |blocks|
  {
    if blocks == [] {
      assert forall i :: i in hits ==> false;
      assert hits == {};
    } else {
      var n := |blocks| - 1;
      CountIsCardinality(Init(blocks), p, hits - {n});
      assert hits == (hits - {n}) + (if p(Last(blocks)) then {n} else {});
    }
  }

  ghost function HoldPairs(blocks: seq<Block>, rank: int): set<(int, Spot)> {
    set i, x | 0 <= i < |blocks| && x in RankSpots(blocks[i], rank) :: (i, x)
  }

  lemma {:induction false} RankHoldsIsCardinality(blocks: seq<Block>, rank: int)
    ensures RankHolds(blocks, rank) == |HoldPairs(blocks, rank)|
    ensures rank in Ranks(blocks) <==> HoldPairs(blocks, rank) != {}
    decreases |blocks|
  {
    if blocks != [] {
      RankHoldsIsCardinality(Init(blocks), rank);
      var n, spots := |blocks| - 1, RankSpots(Last(blocks), rank);
      var last := set x | x in spots :: (n, x);
      TaggedCardinality(n, spots);
      assert HoldPairs(blocks, rank) == HoldPairs(Init(blocks), rank) + last;
      assert rank in RanksIn(Last(blocks)) <==> last != {} by {
        if x :| x in Last(blocks) && x.dpRank == rank {
          assert (n, x) in last;
        }
      }
    }
  }

  lemma {:induction false} TaggedCardinality(n: int, spots: set<Spot>)
    ensures |set x | x in spots :: (n, x)| == |spots|
    decreases |spots|
  {
    if spots != {} {
      var y :| y in spots;
      TaggedCardinality(n, spots - {y});
      assert (set x | x in spots :: (n, x)) == (set x | x in spots - {y} :: (n, x)) + {(n, y)};
    }
  }

  ghost predicate HoldsIn(s: State, e: string, rk: uint64, tiers: set<string>) {
    exists dp, tier :: tier in tiers && Resident(e, dp, tier) in Holders(s, rk)
  }

  lemma HoldsInTiers(s: State, e: string, rk: uint64)
    ensures OnGpu(BlockOf(s, e, rk)) <==> HoldsIn(s, e, rk, {"gpu"})
    ensures OnGpuOrCpu(BlockOf(s, e, rk)) <==> HoldsIn(s, e, rk, {"gpu", "cpu"})
  {
    BlockMembers(s, e, rk);
    var b := BlockOf(s, e, rk);
    if x :| x in b && x.tier == GPU {
      assert Spot(x.dpRank, x.tier) in b;
    }
    if x :| x in b && (x.tier == GPU || x.tier == CPU) {
      assert Spot(x.dpRank, x.tier) in b;
    }
    if dp, tier :| tier in {"gpu"} && Resident(e, dp, tier) in Holders(s, rk) {
      assert Spot(dp, tier) in b;
    }
    if dp, tier :| tier in {"gpu", "cpu"} && Resident(e, dp, tier) in Holders(s, rk) {
      assert Spot(dp, tier) in b;
    }
  }

  lemma RunMeansHeld(s: State, keys: seq<uint64>, e: string)
    ensures var k := Run(BlocksOf(s, e, keys));
            && (forall i :: 0 <= i < k ==> HasEngine(Holders(s, keys[i]), e))
            && (k < |keys| ==> !HasEngine(Holders(s, keys[k]), e))
  {
    var blocks := BlocksOf(s, e, keys);
    RunIsLongest(blocks);
    forall i | 0 <= i < |keys| ensures blocks[i] != {} <==> HasEngine(Holders(s, keys[i]), e) {
      BlockMembers(s, e, keys[i]);
    }
  }

  ghost function HeldIn(s: State, e: string, keys: seq<uint64>, k: nat, tiers: set<string>): set<int>
    requires k <= |keys|
  {
    set i | 0 <= i < k && HoldsIn(s, e, keys[i], tiers)
  }

  lemma CountMeansHeldIn(s: State, keys: seq<uint64>, e: string, k: nat)
    requires k <= |keys|
    ensures Count(BlocksOf(s, e, keys)[..k], OnGpu) == |HeldIn(s, e, keys, k, {"gpu"})|
    ensures Count(BlocksOf(s, e, keys)[..k], OnGpuOrCpu) == |HeldIn(s, e, keys, k, {"gpu", "cpu"})|
  {
    var m := BlocksOf(s, e, keys)[..k];
    forall i | 0 <= i < k
      ensures OnGpu(m[i]) <==> HoldsIn(s, e, keys[i], {"gpu"})
      ensures OnGpuOrCpu(m[i]) <==> HoldsIn(s, e, keys[i], {"gpu", "cpu"})
    {
      HoldsInTiers(s, e, keys[i]);
    }
    CountIsCardinality(m, OnGpu, HeldIn(s, e, keys, k, {"gpu"}));
    CountIsCardinality(m, OnGpuOrCpu, HeldIn(s, e, keys, k, {"gpu", "cpu"}));
  }

  /**
   * The answer is the plain definition. An engine appears iff it holds the first
   * block. Its match is the `k` blocks before its first gap; GPU and CPU count the
   * blocks among those that are on the device, and on device or host.
   */
  lemma QueryIsLongestPrefix(s: State, keys: seq<uint64>, blockSize: int, e: string)
    ensures var q, k := QueryResult(s, keys, blockSize), Run(BlocksOf(s, e, keys));
            && (e in q <==> keys != [] && HasEngine(Holders(s, keys[0]), e))
            && (forall i :: 0 <= i < k ==> HasEngine(Holders(s, keys[i]), e))
            && (k < |keys| ==> !HasEngine(Holders(s, keys[k]), e))
            && (e in q ==>
                  && q[e].longestMatched == q[e].disk == blockSize * k
                  && q[e].gpu == blockSize * |HeldIn(s, e, keys, k, {"gpu"})|
                  && q[e].cpu == blockSize * |HeldIn(s, e, keys, k, {"gpu", "cpu"})|
                  && (blockSize >= 0 ==> 0 <= q[e].gpu <= q[e].cpu <= q[e].disk))
  {
    var k := Run(BlocksOf(s, e, keys));
    RunMeansHeld(s, keys, e);
    CountMeansHeldIn(s, keys, e, k);
    EngineListed(s, keys, e);
    var m := BlocksOf(s, e, keys)[..k];
    TokensIsProduct(k, blockSize);
    TokensIsProduct(Count(m, OnGpu), blockSize);
    TokensIsProduct(Count(m, OnGpuOrCpu), blockSize);
    TierCountsAreOrdered(m, blockSize);
  }

  lemma EngineListed(s: State, keys: seq<uint64>, e: string)
    ensures keys != [] ==> (e in Engines(Holders(s, keys[0])) <==> HasEngine(Holders(s, keys[0]), e))
  {
  }

  /** Gpu blocks are among the gpu-or-cpu blocks, which are among all blocks. */
  lemma {:induction false} TierCountsAreOrdered(m: seq<Block>, blockSize: int)
    ensures Count(m, OnGpu) <= Count(m, OnGpuOrCpu) <= |m|
    ensures blockSize >= 0 ==>
              0 <= Tokens(Count(m, OnGpu), blockSize) <= Tokens(Count(m, OnGpuOrCpu), blockSize) <= Tokens(|m|, blockSize)
    decreases |m|
  {
    if m != [] {
      TierCountsAreOrdered(Init(m), blockSize);
    }
    if blockSize >= 0 {
      TokensMonotone(Count(m, OnGpu), Count(m, OnGpuOrCpu), blockSize);
      TokensMonotone(Count(m, OnGpuOrCpu), |m|, blockSize);
    }
  }

  /** Per rank, the answer counts (block, tier) holds, so a rank can exceed the match. */
  lemma RankTokensCountHolds(s: State, keys: seq<uint64>, blockSize: int, e: string, rank: int)
    requires e in QueryResult(s, keys, blockSize)
    ensures var h := QueryResult(s, keys, blockSize)[e];
            var k := Run(BlocksOf(s, e, keys));
            var pairs := HoldPairs(BlocksOf(s, e, keys)[..k], rank);
            && (forall i, x :: (i, x) in pairs <==>
                  0 <= i < k && x.dpRank == rank && Resident(e, rank, x.tier) in Holders(s, keys[i]))
            && (rank in h.dp <==> pairs != {})
            && (rank in h.dp ==> h.dp[rank] == blockSize * |pairs|)
  {
    var k := Run(BlocksOf(s, e, keys));
    var m := BlocksOf(s, e, keys)[..k];
    RankHoldsIsCardinality(m, rank);
    TokensIsProduct(RankHolds(m, rank), blockSize);
    forall i, x ensures (i, x) in HoldPairs(m, rank) <==>
                        0 <= i < k && x.dpRank == rank && Resident(e, rank, x.tier) in Holders(s, keys[i]) {
      if 0 <= i < k {
        BlockMembers(s, e, keys[i]);
        assert x == Spot(x.dpRank, x.tier);
        assert m[i] == BlockOf(s, e, keys[i]);
        assert (i, x) in HoldPairs(m, rank) <==> x in RankSpots(m[i], rank);
      }
    }
  }

  lemma {:induction false} RunOfPrefix(blocks: seq<Block>, n: nat)
    requires n <= |blocks|
    ensures Run(blocks[..n]) == if n < Run(blocks) then n else Run(blocks)
    decreases |blocks|
  {
    RunIsLongest(blocks);
    RunIsUnique(blocks[..n], if n < Run(blocks) then n else Run(blocks));
  }

  lemma TokensCutAt(k: nat, n: nat, blockSize: int)
    requires blockSize >= 0
    ensures Tokens(if n < k then n else k, blockSize) ==
            if n * blockSize < Tokens(k, blockSize) then n * blockSize else Tokens(k, blockSize)
  {
    TokensIsProduct(n, blockSize);
    if n < k {
      TokensMonotone(n, k, blockSize);
    } else {
      TokensMonotone(k, n, blockSize);
    }
  }

  lemma MatchedOf(blocks: seq<Block>, blockSize: int)
    ensures HitOf(blocks, blockSize).longestMatched == Tokens(Run(blocks), blockSize)
  {
  }

  /** Asking about the first `n` keys cuts every instance's match at `n` blocks. */
  lemma QueryOfKeyPrefix(s: State, keys: seq<uint64>, blockSize: int, n: nat, e: string)
    requires 0 < n <= |keys| && blockSize >= 0
    ensures e in QueryResult(s, keys[..n], blockSize) <==> e in QueryResult(s, keys, blockSize)
    ensures e in QueryResult(s, keys, blockSize) ==>
              var whole := QueryResult(s, keys, blockSize)[e].longestMatched;
              QueryResult(s, keys[..n], blockSize)[e].longestMatched ==
              if n * blockSize < whole then n * blockSize else whole
  {
    var blocks := BlocksOf(s, e, keys);
    assert BlocksOf(s, e, keys[..n]) == blocks[..n];
    RunOfPrefix(blocks, n);
    MatchedOf(blocks, blockSize);
    MatchedOf(blocks[..n], blockSize);
    TokensCutAt(Run(blocks), n, blockSize);
  }

  // ------------------------------------------------- one more block at a time

  /** The per-instance record Query builds while scanning one block's holders. */
  datatype BlockInfo = BlockInfo(tiers: set<string>, dp: map<int, int>)

  function InfoOf(b: Block, blockSize: int): BlockInfo {
    BlockInfo(set x | x in b :: x.tier, BlockTokens(b, blockSize))
  }

  function BlockTokens(b: Block, blockSize: int): map<int, int> {
    map d | d in RanksIn(b) :: Tokens(|RankSpots(b, d)|, blockSize)
  }

  function At(m: map<int, int>, d: int): int {
    if d in m then m[d] else 0
  }

  function AddTokens(a: map<int, int>, b: map<int, int>): map<int, int> {
    map d | d in a.Keys + b.Keys :: At(a, d) + At(b, d)
  }

  /** What Query adds to an instance that also holds the next block. */
  function Extend(h: InstanceHit, info: BlockInfo, blockSize: int): InstanceHit {
    InstanceHit(h.longestMatched + blockSize,
                h.gpu + (if GPU in info.tiers then blockSize else 0),
                h.cpu + (if GPU in info.tiers || CPU in info.tiers then blockSize else 0),
                h.disk + blockSize,
                AddTokens(h.dp, info.dp))
  }

  lemma {:induction false} RankHoldsOutside(blocks: seq<Block>, d: int)
    ensures d !in Ranks(blocks) ==> RankHolds(blocks, d) == 0
    decreases |blocks|
  {
    if blocks != [] && d !in Ranks(blocks) {
      RankHoldsOutside(Init(blocks), d);
      assert RankSpots(Last(blocks), d) == {};
    }
  }

  lemma RankSpotsOutside(b: Block, d: int)
    ensures d !in RanksIn(b) ==> |RankSpots(b, d)| == 0
  {
    if d !in RanksIn(b) {
      assert RankSpots(b, d) == {};
    }
  }

  lemma RankTokensSnoc(blocks: seq<Block>, b: Block, blockSize: int, d: int)
    ensures d in Ranks(blocks + [b]) <==> d in Ranks(blocks) || d in RanksIn(b)
    ensures Tokens(RankHolds(blocks + [b], d), blockSize) ==
            (if d in Ranks(blocks) then Tokens(RankHolds(blocks, d), blockSize) else 0) +
            (if d in RanksIn(b) then Tokens(|RankSpots(b, d)|, blockSize) else 0)
  {
    var more := blocks + [b];
    assert Init(more) == blocks && Last(more) == b;
    RankHoldsOutside(blocks, d);
    RankSpotsOutside(b, d);
    TokensAdd(RankHolds(blocks, d), |RankSpots(b, d)|, blockSize);
  }

  lemma TierTokensSnoc(blocks: seq<Block>, b: Block, p: Block -> bool, blockSize: int)
    ensures Tokens(Count(blocks + [b], p), blockSize) ==
            Tokens(Count(blocks, p), blockSize) + (if p(b) then blockSize else 0)
  {
    var more := blocks + [b];
    assert Init(more) == blocks && Last(more) == b;
  }

  lemma TiersOfInfo(b: Block, blockSize: int)
    ensures OnGpu(b) <==> GPU in InfoOf(b, blockSize).tiers
    ensures OnGpuOrCpu(b) <==> GPU in InfoOf(b, blockSize).tiers || CPU in InfoOf(b, blockSize).tiers
  {
  }

  lemma HitOfOneMore(blocks: seq<Block>, b: Block, blockSize: int)
    ensures HitOfRun(blocks + [b], blockSize) == Extend(HitOfRun(blocks, blockSize), InfoOf(b, blockSize), blockSize)
  {
    RankTokensExtend(blocks, b, blockSize);
    TiersOfInfo(b, blockSize);
    TierTokensSnoc(blocks, b, OnGpu, blockSize);
    TierTokensSnoc(blocks, b, OnGpuOrCpu, blockSize);
    assert Tokens(|blocks| + 1, blockSize) == Tokens(|blocks|, blockSize) + blockSize;
  }

  lemma RunOfSnoc(blocks: seq<Block>, b: Block)
    ensures Run(blocks + [b]) == if Run(blocks) == |blocks| && b != {} then |blocks| + 1 else Run(blocks)
    ensures (blocks + [b])[..|blocks|] == blocks[..|blocks|] == blocks
  {
    assert Init(blocks + [b]) == blocks;
  }

  lemma HitOfWhole(blocks: seq<Block>, blockSize: int)
    requires Run(blocks) == |blocks|
    ensures HitOf(blocks, blockSize) == HitOfRun(blocks, blockSize)
  {
    assert blocks[..|blocks|] == blocks;
  }

  lemma HitOfLongerRun(blocks: seq<Block>, b: Block, blockSize: int)
    requires Run(blocks) == |blocks| && b != {}
    ensures Run(blocks + [b]) == |blocks| + 1
    ensures HitOf(blocks + [b], blockSize) == Extend(HitOf(blocks, blockSize), InfoOf(b, blockSize), blockSize)
  {
    RunOfSnoc(blocks, b);
    HitOfWhole(blocks, blockSize);
    HitOfWhole(blocks + [b], blockSize);
    HitOfOneMore(blocks, b, blockSize);
  }

  lemma RankTokensExtend(blocks: seq<Block>, b: Block, blockSize: int)
    ensures RankTokens(blocks + [b], blockSize) ==
            AddTokens(RankTokens(blocks, blockSize), BlockTokens(b, blockSize))
  {
    var left := RankTokens(blocks + [b], blockSize);
    var right := AddTokens(RankTokens(blocks, blockSize), BlockTokens(b, blockSize));
    forall d: int ensures (d in left <==> d in right) && (d in left ==> left[d] == right[d]) {
      RankTokensSnoc(blocks, b, blockSize, d);
    }
    assert left == right;
  }

  lemma HitOfBrokenRun(blocks: seq<Block>, more: seq<Block>, blockSize: int)
    requires Run(blocks) < |blocks|
    ensures Run(blocks + more) == Run(blocks)
    ensures HitOf(blocks + more, blockSize) == HitOf(blocks, blockSize)
  {
    RunIsLongest(blocks);
    RunIsUnique(blocks + more, Run(blocks));
    assert (blocks + more)[..Run(blocks)] == blocks[..Run(blocks)];
  }
}
