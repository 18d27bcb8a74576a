/**
 * The chained request keys of internal/residency/index.go.
 *
 * The block hash itself (FNV-64a over the parent key and the token ids) is an
 * arbitrary function `hash`; no property here depends on what it computes.
 */
module ChainKeys {
  import opened Basics

  type Token = int32
  type Chunk = seq<Token>
  type Chain = seq<Chunk>
  type BlockHash = (uint64, Chunk) -> uint64

  // ---------------------------------------------------------------- chunking

  /** The full blocks at the front of `tokens`; a partial trailing block is dropped. */
  function Chunks(tokens: seq<Token>, blockSize: int): (chunks: Chain)
    decreases |tokens|
  {
    if blockSize <= 0 || |tokens| < blockSize then []
    else [tokens[..blockSize]] + Chunks(tokens[blockSize..], blockSize)
  }

  /** Chunking cuts `len / blockSize` blocks, and block i is tokens[i*bs..(i+1)*bs]. */
  lemma {:induction false} ChunksAreSlices(tokens: seq<Token>, blockSize: int, i: nat)
    requires blockSize > 0
    ensures |Chunks(tokens, blockSize)| == |tokens| / blockSize
    ensures i < |tokens| / blockSize ==>
              0 <= i * blockSize <= (i + 1) * blockSize <= |tokens| &&
              Chunks(tokens, blockSize)[i] == tokens[i * blockSize..(i + 1) * blockSize]
    decreases |tokens|
  {
    if |tokens| >= blockSize {
      var rest := tokens[blockSize..];
      QuotientStep(|tokens|, blockSize);
      if i == 0 {
        ChunksAreSlices(rest, blockSize, 0);
      } else {
        ChunksAreSlices(rest, blockSize, i - 1);
        if i < |tokens| / blockSize {
          assert (i - 1) * blockSize + blockSize == i * blockSize;
          assert i * blockSize + blockSize == (i + 1) * blockSize;
          assert rest[(i - 1) * blockSize..i * blockSize] == tokens[i * blockSize..(i + 1) * blockSize];
        }
      }
    } else {
      SmallQuotient(|tokens|, blockSize);
    }
  }

  lemma QuotientStep(n: int, d: int)
    requires 0 < d <= n
    ensures n / d == (n - d) / d + 1 && (n - d) % d == n % d
  {
    var q, r := n / d, n % d;
    var q', r' := (n - d) / d, (n - d) % d;
    var gap := q - q' - 1;
    assert gap * d == r' - r by {
      assert q * d + r == n && q' * d + r' == n - d;
      assert gap * d == q * d - q' * d - d;
    }
    MultipleOutsideBlock(gap, d);
  }

  lemma MultipleOutsideBlock(gap: int, d: int)
    requires d > 0
    ensures gap >= 1 ==> gap * d >= d
    ensures gap <= -1 ==> gap * d <= -d
  {
  }

  lemma SmallQuotient(n: int, d: int)
    requires 0 <= n < d
    ensures n / d == 0
  {
  }

  /** Cutting at a block boundary cuts the chunk list at the same place. */
  lemma {:induction false} ChunksAppend(a: seq<Token>, b: seq<Token>, blockSize: int)
    requires blockSize > 0 && |a| % blockSize == 0
    ensures Chunks(a + b, blockSize) == Chunks(a, blockSize) + Chunks(b, blockSize)
    decreases |a|
  {
    if a == [] {
      assert a + b == b;
    } else {
      assert |a| >= blockSize;
      QuotientStep(|a|, blockSize);
      var rest := a[blockSize..];
      ChunksAppend(rest, b, blockSize);
      assert (a + b)[..blockSize] == a[..blockSize];
      assert (a + b)[blockSize..] == rest + b;
    }
  }

  /** ChunkTokens: the loop of the source, slicing by index. */
  method ChunkTokens(tokens: seq<Token>, blockSize: int) returns (out: Chain)
    ensures out == Chunks(tokens, blockSize)
  {
    out := [];
    if blockSize <= 0 {
      return;
    }
    var n := |tokens| / blockSize;
    ChunksAreSlices(tokens, blockSize, 0);
    for i := 0 to n
      invariant out == Chunks(tokens, blockSize)[..i]
    {
      ChunksAreSlices(tokens, blockSize, i);
      out := out + [tokens[i * blockSize..(i + 1) * blockSize]];
    }
  }

  // ---------------------------------------------------------------- chaining

  /** The key at the end of `chain`, starting from `parent`. */
  function Fold(hash: BlockHash, parent: uint64, chain: Chain): uint64 {
    if chain == [] then parent
    else hash(Fold(hash, parent, Init(chain)), Last(chain))
  }

  /** One key per block of `chain`: the key of every non-empty prefix. */
  function KeyChain(hash: BlockHash, parent: uint64, chain: Chain): (keys: seq<uint64>)
    ensures |keys| == |chain|
  {
    seq(|chain|, i requires 0 <= i < |chain| => Fold(hash, parent, chain[..i + 1]))
  }

  function RequestKeys(hash: BlockHash, seed: uint64, tokens: seq<Token>, blockSize: int): seq<uint64> {
    KeyChain(hash, seed, Chunks(tokens, blockSize))
  }

  lemma {:induction false} FoldAppend(hash: BlockHash, parent: uint64, a: Chain, b: Chain)
    ensures Fold(hash, parent, a + b) == Fold(hash, Fold(hash, parent, a), b)
    decreases |b|
  {
    if b == [] {
      assert a + b == a;
    } else {
      FoldAppend(hash, parent, a, Init(b));
      assert Init(a + b) == a + Init(b);
    }
  }

  lemma KeyChainAppend(hash: BlockHash, parent: uint64, a: Chain, b: Chain)
    ensures KeyChain(hash, parent, a + b) ==
            KeyChain(hash, parent, a) + KeyChain(hash, Fold(hash, parent, a), b)
  {
    forall i | 0 <= i < |a| + |b|
      ensures KeyChain(hash, parent, a + b)[i] ==
              (KeyChain(hash, parent, a) + KeyChain(hash, Fold(hash, parent, a), b))[i]
    {
      if i < |a| {
        assert (a + b)[..i + 1] == a[..i + 1];
      } else {
        assert (a + b)[..i + 1] == a + b[..i - |a| + 1];
        FoldAppend(hash, parent, a, b[..i - |a| + 1]);
      }
    }
  }

  /**
   * Chained keys compose: hashing a whole prompt is hashing its first blocks and
   * then continuing from the last key obtained. This is what lets ingest continue
   * from a parent block's key while a query hashes from the namespace seed.
   */
  lemma ChainedKeysCompose(hash: BlockHash, seed: uint64, a: seq<Token>, b: seq<Token>, blockSize: int)
    requires blockSize > 0 && |a| % blockSize == 0
    ensures var ka := RequestKeys(hash, seed, a, blockSize);
            var next := if ka == [] then seed else Last(ka);
            && |RequestKeys(hash, seed, a + b, blockSize)| == |a + b| / blockSize
            && RequestKeys(hash, seed, a + b, blockSize) == ka + RequestKeys(hash, next, b, blockSize)
  {
    ChunksAppend(a, b, blockSize);
    ChunksAreSlices(a + b, blockSize, 0);
    var ca := Chunks(a, blockSize);
    KeyChainAppend(hash, seed, ca, Chunks(b, blockSize));
    assert ca != [] ==> ca[..|ca|] == ca;
  }

  /** Any prefix of the tokens, cut anywhere, has a prefix of the keys. */
  lemma {:induction false} TokenPrefixKeyPrefix(hash: BlockHash, seed: uint64, p: seq<Token>, t: seq<Token>, blockSize: int)
    requires p <= t
    ensures RequestKeys(hash, seed, p, blockSize) <= RequestKeys(hash, seed, t, blockSize)
  {
    ChunksPrefix(p, t, blockSize);
    var cp, ct := Chunks(p, blockSize), Chunks(t, blockSize);
    assert cp == ct[..|cp|];
    KeyChainAppend(hash, seed, cp, ct[|cp|..]);
    assert ct == cp + ct[|cp|..];
  }

  lemma {:induction false} ChunksPrefix(p: seq<Token>, t: seq<Token>, blockSize: int)
    requires p <= t
    ensures Chunks(p, blockSize) <= Chunks(t, blockSize)
    decreases |p|
  {
    if 0 < blockSize <= |p| {
      ChunksPrefix(p[blockSize..], t[blockSize..], blockSize);
      assert p[..blockSize] == t[..blockSize];
    }
  }

  /** RequestKeysFromTokens: the loop of the source, with its running parent. */
  method RequestKeysFromTokens(hash: BlockHash, seed: uint64, tokens: seq<Token>, blockSize: int)
    returns (keys: seq<uint64>)
    ensures keys == RequestKeys(hash, seed, tokens, blockSize)
  {
    var chunks := ChunkTokens(tokens, blockSize);
    keys := [];
    var parent := seed;
    for i := 0 to |chunks|
      invariant parent == Fold(hash, seed, chunks[..i])
      invariant keys == KeyChain(hash, seed, chunks)[..i]
    {
      InitPrefix(chunks, i);
      parent := hash(parent, chunks[i]);
      keys := keys + [parent];
    }
  }
}
