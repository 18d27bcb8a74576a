/**
 * Model profiles and the namespace that isolates their request keys
 * (internal/config/model.go, and the profile upsert of internal/config/store.go).
 */
module ModelProfiles {
  import opened Basics

  datatype ModelProfile = ModelProfile(
    modelId: string, aliases: seq<string>, framework: string, version: int,
    tokenizerEndpoint: string, tokenizerMode: string, chatTemplateSha256: string,
    hashProfile: string, blockSize: int, hashSeed: string,
    supportsLoRA: bool, supportsMultimodal: bool, supportsCacheSalt: bool)

  // -------------------------------------------------------------------- itoa

  const MIN_INT64: int := -0x8000_0000_0000_0000

  function Digit(d: int): char
    requires 0 <= d < 10
  {
    ('0' as int + d) as char
  }

  /** The decimal digits of a positive number; none for zero. */
  function Digits(n: nat): string {
    if n == 0 then "" else Digits(n / 10) + [Digit(n % 10)]
  }

  /**
   * The text itoa produces. The least int64 negates to itself, so its loop writes no
   * digit and only the sign is left.
   */
  function ItoaText(i: int): string {
    if i == 0 then "0"
    else if i == MIN_INT64 then "-"
    else if i < 0 then "-" + Digits(-i)
    else Digits(i)
  }

  function Pow10(n: nat): nat {
    if n == 0 then 1 else 10 * Pow10(n - 1)
  }

  /** itoa: fills a 20-byte buffer from the back. */
  method Itoa(i: int64) returns (s: string)
    ensures s == ItoaText(i as int)
  {
    if i == 0 {
      return "0";
    }
    var neg := i < 0;
    var n := i as int;
    if neg && n != MIN_INT64 {
      n := -n;
    }
    ghost var whole := if n > 0 then n else 0;
    var b := new char[20];
    var p := 20;
    Int64Fits(whole);
    assert Digits(whole) + b[p..] == Digits(whole);
    while n > 0
      invariant 1 <= p <= 20
      invariant n >= 0 || (n == MIN_INT64 && p == 20)
      invariant Digits(if n > 0 then n else 0) + b[p..] == Digits(whole)
    {
      ghost var tail := b[p..];
      LastDigitOff(n, tail);
      p := p - 1;
      b[p] := Digit(n % 10);
      assert b[p..] == [Digit(n % 10)] + tail;
      n := n / 10;
    }
    assert b[p..] == Digits(whole);
    if neg {
      ghost var tail := b[p..];
      p := p - 1;
      b[p] := '-';
      assert b[p..] == ['-'] + tail;
    }
    SignedText(i as int, whole);
    s := b[p..];
  }

  lemma SignedText(i: int, whole: nat)
    requires i != 0 && whole == if i == MIN_INT64 then 0 else if i < 0 then -i else i
    ensures ItoaText(i) == if i < 0 then ['-'] + Digits(whole) else Digits(whole)
  {
  }

  lemma LastDigitOff(n: nat, tail: string)
    requires n > 0
    ensures Digits(n / 10) + ([Digit(n % 10)] + tail) == Digits(n) + tail
    ensures |Digits(n)| > 0
  {
    assert Digits(n / 10) + ([Digit(n % 10)] + tail) == Digits(n / 10) + [Digit(n % 10)] + tail;
  }

  lemma Pow10Of19()
    ensures Pow10(19) == 10_000_000_000_000_000_000
  {
    assert Pow10(4) == 10_000;
    assert Pow10(8) == 100_000_000;
    assert Pow10(12) == 1_000_000_000_000;
    assert Pow10(16) == 10_000_000_000_000_000;
  }

  lemma {:induction false} DigitsFit(n: nat, room: nat)
    requires n < Pow10(room)
    ensures |Digits(n)| <= room
    decreases room
  {
    if n > 0 {
      DigitsFit(n / 10, room - 1);
    }
  }

  /** No int64 has more than 19 digits, so a sign and the digits fit the buffer. */
  lemma Int64Fits(n: nat)
    requires n <= 0x8000_0000_0000_0000
    ensures |Digits(n)| <= 19
  {
    Pow10Of19();
    DigitsFit(n, 19);
  }

  lemma {:induction false} DigitsAreDigits(n: nat)
    ensures forall c :: c in Digits(n) ==> '0' <= c <= '9'
    ensures n > 0 ==> Digits(n) != ""
    decreases n
  {
    if n > 0 {
      DigitsAreDigits(n / 10);
    }
  }

  /** The number a decimal text reads as. */
  function Decimal(s: string): int {
    if s == [] then 0 else 10 * Decimal(Init(s)) + (Last(s) as int - '0' as int)
  }

  /** What is written reads back as the number. */
  lemma {:induction false} DigitsReadBack(n: nat)
    ensures Decimal(Digits(n)) == n
    decreases n
  {
    if n > 0 {
      DigitsReadBack(n / 10);
      assert Init(Digits(n)) == Digits(n / 10) && Last(Digits(n)) == Digit(n % 10);
    }
  }

  lemma ItoaReadsBack(n: int)
    ensures n >= 0 ==> Decimal(ItoaText(n)) == n
    ensures n < 0 && n != MIN_INT64 ==> ItoaText(n)[0] == '-' && Decimal(ItoaText(n)[1..]) == -n
  {
    if n > 0 {
      DigitsReadBack(n);
    } else if n < 0 {
      DigitsReadBack(-n);
      assert n != MIN_INT64 ==> ("-" + Digits(-n))[1..] == Digits(-n);
    } else {
      assert Init("0") == [];
    }
  }

  lemma {:induction false} DigitsInjective(m: nat, n: nat)
    requires Digits(m) == Digits(n)
    ensures m == n
    decreases m
  {
    DigitsAreDigits(m);
    DigitsAreDigits(n);
    if m > 0 && n > 0 {
      var dm, dn := Digits(m), Digits(n);
      assert Init(dm) == Digits(m / 10) && Init(dn) == Digits(n / 10);
      assert Last(dm) == Digit(m % 10) && Last(dn) == Digit(n % 10);
      DigitsInjective(m / 10, n / 10);
    }
  }

  /** The first character tells zero, the signed numbers and the others apart. */
  lemma ItoaHead(a: int)
    ensures ItoaText(a) != "" && '/' !in ItoaText(a)
    ensures ItoaText(a)[0] == '-' <==> a < 0
    ensures ItoaText(a)[0] == '0' <==> a == 0
    ensures a < 0 ==> (ItoaText(a)[1..] == if a == MIN_INT64 then "" else Digits(-a))
  {
    if a < 0 && a != MIN_INT64 {
      DigitsAreDigits(-a);
      assert ("-" + Digits(-a))[1..] == Digits(-a);
    } else if a > 0 {
      DigitsAreDigits(a);
      ZeroIsNoDigits(a);
    }
  }

  /** itoa is injective, on every integer, and never writes a slash. */
  lemma ItoaInjective(a: int, b: int)
    ensures ItoaText(a) == ItoaText(b) <==> a == b
    ensures '/' !in ItoaText(a)
  {
    ItoaHead(a);
    ItoaHead(b);
    if ItoaText(a) == ItoaText(b) {
      if a > 0 {
        DigitsInjective(a, b);
      } else if a < 0 {
        SignedInjective(a, b);
      }
    }
  }

  lemma SignedInjective(a: int, b: int)
    requires a < 0 && b < 0 && ItoaText(a) == ItoaText(b)
    ensures a == b
  {
    ItoaHead(a);
    ItoaHead(b);
    DigitsAreDigits(-a);
    DigitsAreDigits(-b);
    if a != MIN_INT64 && b != MIN_INT64 {
      DigitsInjective(-a, -b);
    }
  }

  /** The digits of a positive number never start with a zero or a sign. */
  lemma {:induction false} ZeroIsNoDigits(n: nat)
    ensures n > 0 ==> Digits(n) != "" && '1' <= Digits(n)[0] <= '9'
    decreases n
  {
    if n > 0 {
      ZeroIsNoDigits(n / 10);
    }
  }

  // --------------------------------------------------------------- namespace

  function Namespace(p: ModelProfile): string {
    p.modelId + "/v" + ItoaText(p.version) + "/" + p.hashProfile + "/" + ItoaText(p.blockSize)
  }

  lemma SlashInside(a: string, x: string, b: string, y: string)
    requires a + "/" + x == b + "/" + y && |a| < |b|
    ensures '/' in b && '/' in x
  {
    var s, t := a + "/" + x, b + "/" + y;
    assert s[|a|] == '/' && t[|a|] == b[|a|];
    assert t[|b|] == '/' && s[|b|] == x[|b| - |a| - 1];
  }

  lemma SplitAtFirstSlash(a: string, x: string, b: string, y: string)
    requires '/' !in a && '/' !in b && a + "/" + x == b + "/" + y
    ensures a == b && x == y
  {
    if |a| < |b| {
      SlashInside(a, x, b, y);
    } else if |b| < |a| {
      SlashInside(b, y, a, x);
    }
    SplitThere(a, x, b, y);
  }

  lemma SplitAtLastSlash(x: string, a: string, y: string, b: string)
    requires '/' !in a && '/' !in b && x + "/" + a == y + "/" + b
    ensures a == b && x == y
  {
    if |x| < |y| {
      SlashInside(x, a, y, b);
    } else if |y| < |x| {
      SlashInside(y, b, x, a);
    }
    SplitThere(x, a, y, b);
  }

  lemma SplitThere(a: string, x: string, b: string, y: string)
    requires a + "/" + x == b + "/" + y && |a| == |b|
    ensures a == b && x == y
  {
    var s, t := a + "/" + x, b + "/" + y;
    assert a == s[..|a|] && b == t[..|b|];
    assert x == s[|a| + 1..] && y == t[|b| + 1..];
  }

  /** For one model, the namespace determines version, hash profile and block size. */
  lemma NamespaceInjective(p: ModelProfile, q: ModelProfile)
    requires p.modelId == q.modelId && Namespace(p) == Namespace(q)
    ensures p.version == q.version && p.hashProfile == q.hashProfile && p.blockSize == q.blockSize
  {
    var head := p.modelId + "/v";
    var vp, vq, bp, bq := ItoaText(p.version), ItoaText(q.version), ItoaText(p.blockSize), ItoaText(q.blockSize);
    var tp, tq := p.hashProfile + "/" + bp, q.hashProfile + "/" + bq;
    assert Namespace(p) == head + (vp + "/" + tp) && Namespace(q) == head + (vq + "/" + tq);
    assert vp + "/" + tp == Namespace(p)[|head|..] && vq + "/" + tq == Namespace(q)[|head|..];
    ItoaInjective(p.version, q.version);
    ItoaInjective(q.version, p.version);
    ItoaInjective(p.blockSize, q.blockSize);
    ItoaInjective(q.blockSize, p.blockSize);
    SplitAtFirstSlash(vp, tp, vq, tq);
    SplitAtLastSlash(p.hashProfile, bp, q.hashProfile, bq);
  }

  /** Across models too, as long as no hash profile contains a slash. */
  lemma NamespaceInjectiveAcrossModels(p: ModelProfile, q: ModelProfile)
    requires '/' !in p.hashProfile && '/' !in q.hashProfile
    ensures Namespace(p) == Namespace(q) <==>
            p.modelId == q.modelId && p.version == q.version && p.hashProfile == q.hashProfile && p.blockSize == q.blockSize
  {
    if Namespace(p) == Namespace(q) {
      SameTail(p, q);
      var vp, vq := "v" + ItoaText(p.version), "v" + ItoaText(q.version);
      assert Stem(p) == p.modelId + "/" + vp + "/" + p.hashProfile;
      assert Stem(q) == q.modelId + "/" + vq + "/" + q.hashProfile;
      SplitAtLastSlash(p.modelId + "/" + vp, p.hashProfile, q.modelId + "/" + vq, q.hashProfile);
      ItoaInjective(p.version, q.version);
      ItoaInjective(q.version, p.version);
      SplitAtLastSlash(p.modelId, vp, q.modelId, vq);
      assert ItoaText(p.version) == vp[1..] && ItoaText(q.version) == vq[1..];
    }
  }

  /** The namespace up to its block size. */
  function Stem(p: ModelProfile): string {
    p.modelId + Mark(p.version) + p.hashProfile
  }

  /** What separates model id and hash profile. */
  function Mark(version: int): string {
    "/v" + ItoaText(version) + "/"
  }

  lemma SameTail(p: ModelProfile, q: ModelProfile)
    ensures Namespace(p) == Namespace(q) <==> Stem(p) == Stem(q) && p.blockSize == q.blockSize
  {
    var bp, bq := ItoaText(p.blockSize), ItoaText(q.blockSize);
    assert Namespace(p) == Stem(p) + "/" + bp && Namespace(q) == Stem(q) + "/" + bq;
    if Namespace(p) == Namespace(q) {
      ItoaInjective(p.blockSize, q.blockSize);
      ItoaInjective(q.blockSize, p.blockSize);
      SplitAtLastSlash(Stem(p), bp, Stem(q), bq);
    }
  }

  predicate OccursAt(sub: string, s: string, i: nat) {
    i + |sub| <= |s| && s[i..i + |sub|] == sub
  }

  predicate Occurs(sub: string, s: string) {
    exists i: nat {:trigger OccursAt(sub, s, i)} :: i <= |s| && OccursAt(sub, s, i)
  }

  /** A version the source can store. */
  predicate IsInt64(n: int) {
    MIN_INT64 <= n < 0x8000_0000_0000_0000
  }

  /** The namespace of `p` could be read with another model id. */
  ghost predicate Ambiguous(p: ModelProfile) {
    exists n: int {:trigger Mark(n)} :: IsInt64(n) && (Occurs(Mark(n), p.modelId + "/") || Occurs(Mark(n), "/" + p.hashProfile))
  }

  /** A slash at either end and none inside. */
  predicate MarkLike(mark: string) {
    |mark| >= 2 && mark[0] == '/' && Last(mark) == '/' && forall j :: 0 < j < |mark| - 1 ==> mark[j] != '/'
  }

  lemma MarksAreMarkLike(n: int)
    ensures MarkLike(Mark(n))
  {
    ItoaHead(n);
    forall j | 0 < j < |Mark(n)| - 1 ensures Mark(n)[j] != '/' {
      assert Mark(n)[j] == if j == 1 then 'v' else ItoaText(n)[j - 2];
    }
  }

  lemma OccursInPrefix(sub: string, t: string, b: nat, i: nat)
    requires b <= |t|
    ensures OccursAt(sub, t[..b], i) <==> i + |sub| <= b && OccursAt(sub, t, i)
  {
    if i + |sub| <= b {
      assert t[..b][i..i + |sub|] == t[i..i + |sub|];
    }
  }

  lemma OccursInSuffix(sub: string, t: string, a: nat, i: nat)
    requires a <= |t|
    ensures OccursAt(sub, t[a..], i) <==> OccursAt(sub, t, a + i)
  {
    if a + i + |sub| <= |t| {
      assert t[a..][i..i + |sub|] == t[a + i..a + i + |sub|];
    }
  }

  /** Two marks overlap in a slash at most. */
  lemma MarksApart(t: string, mark: string, other: string, i: nat, j: nat)
    requires MarkLike(mark) && MarkLike(other) && i < j
    requires OccursAt(mark, t, i) && OccursAt(other, t, j)
    ensures i + |mark| - 1 <= j
  {
    assert t[j] == t[j..j + |other|][0] == '/';
    forall k | i < k < i + |mark| - 1 ensures t[k] != '/' {
      assert t[k] == t[i..i + |mark|][k - i] == mark[k - i];
    }
  }

  /** Where the parts of a stem `id + mark + hash` are. */
  lemma StemParts(t: string, id: string, mark: string, hash: string)
    requires t == id + mark + hash && MarkLike(mark)
    ensures |t| == |id| + |mark| + |hash| && OccursAt(mark, t, |id|)
    ensures t[..|id|] == id && t[|id| + |mark|..] == hash
    ensures t[..|id| + 1] == id + "/" && t[|id| + |mark| - 1..] == "/" + hash
  {
    assert t[|id|] == mark[0] && t[|id| + |mark| - 1] == Last(mark);
  }

  /** Of two readings of one stem, the shorter model id leaves its mark in the longer one. */
  lemma TwoReadings(t: string, id: string, mark: string, hash: string, id': string, mark': string, hash': string)
    requires t == id + mark + hash && t == id' + mark' + hash'
    requires MarkLike(mark) && MarkLike(mark') && |id'| < |id|
    ensures Occurs(mark', id + "/") && Occurs(mark, "/" + hash')
  {
    var i, j, k := |id'|, |id|, |id'| + |mark'| - 1;
    StemParts(t, id, mark, hash);
    StemParts(t, id', mark', hash');
    MarksApart(t, mark', mark, i, j);
    OccursInPrefix(mark', t, j + 1, i);
    OccursInSuffix(mark, t, k, j - k);
    assert OccursAt(mark', id + "/", i);
    assert OccursAt(mark, "/" + hash', j - k);
  }

  lemma ShorterLeavesItsMark(p: ModelProfile, q: ModelProfile)
    requires Stem(p) == Stem(q) && |q.modelId| < |p.modelId|
    ensures Occurs(Mark(q.version), p.modelId + "/") && Occurs(Mark(p.version), "/" + q.hashProfile)
  {
    MarksAreMarkLike(p.version);
    MarksAreMarkLike(q.version);
    TwoReadings(Stem(p), p.modelId, Mark(p.version), p.hashProfile, q.modelId, Mark(q.version), q.hashProfile);
  }

  /** A mark next to the boundaries of a stem is a mark somewhere else in it. */
  lemma AnotherMark(t: string, id: string, mark: string, hash: string, other: string) returns (i: nat)
    requires t == id + mark + hash && MarkLike(mark) && MarkLike(other)
    requires Occurs(other, id + "/") || Occurs(other, "/" + hash)
    ensures OccursAt(other, t, i) && i != |id|
  {
    StemParts(t, id, mark, hash);
    if h: nat :| h <= |id + "/"| && OccursAt(other, id + "/", h) {
      OccursInPrefix(other, t, |id| + 1, h);
      i := h;
    } else {
      var h: nat :| h <= |"/" + hash| && OccursAt(other, "/" + hash, h);
      OccursInSuffix(other, t, |id| + |mark| - 1, h);
      i := |id| + |mark| - 1 + h;
    }
  }

  /** Any other mark in the stem gives another reading of it. */
  lemma ReadAt(p: ModelProfile, n: int, i: nat) returns (q: ModelProfile)
    requires OccursAt(Mark(n), Stem(p), i) && i != |p.modelId|
    ensures q.version == n && q.modelId != p.modelId && Namespace(q) == Namespace(p)
  {
    var t, k := Stem(p), i + |Mark(n)|;
    q := p.(modelId := t[..i], version := n, hashProfile := t[k..]);
    CutInThree(t, i, k);
    SameTail(p, q);
  }

  lemma CutInThree(t: string, i: nat, k: nat)
    requires i <= k <= |t|
    ensures t == t[..i] + t[i..k] + t[k..]
  {
  }

  lemma ReadAnother(p: ModelProfile) returns (q: ModelProfile)
    requires Ambiguous(p)
    ensures IsInt64(q.version) && q.modelId != p.modelId && Namespace(q) == Namespace(p)
  {
    var n: int :| IsInt64(n) && (Occurs(Mark(n), p.modelId + "/") || Occurs(Mark(n), "/" + p.hashProfile));
    MarksAreMarkLike(n);
    MarksAreMarkLike(p.version);
    var i := AnotherMark(Stem(p), p.modelId, Mark(p.version), p.hashProfile, Mark(n));
    q := ReadAt(p, n, i);
  }

  lemma StemStart(p: ModelProfile)
    ensures |p.modelId| <= |Stem(p)| && Stem(p)[..|p.modelId|] == p.modelId
  {
  }

  lemma SharedMeansAmbiguous(p: ModelProfile, q: ModelProfile)
    requires q.modelId != p.modelId && Namespace(q) == Namespace(p) && IsInt64(p.version) && IsInt64(q.version)
    ensures Ambiguous(p)
  {
    SameTail(p, q);
    if |q.modelId| < |p.modelId| {
      ShorterLeavesItsMark(p, q);
    } else if |p.modelId| < |q.modelId| {
      ShorterLeavesItsMark(q, p);
    } else {
      StemStart(p);
      StemStart(q);
    }
  }

  /**
   * Exactly when a namespace belongs to one model only: a profile of some other model
   * can have the namespace of `p` if and only if a mark "/v<number>/" occurs in the
   * model id followed by a slash, or in the hash profile preceded by one. The versions
   * of both, and the number in the mark, are 64-bit.
   */
  lemma NamespaceSharedExactlyWhenAmbiguous(p: ModelProfile)
    requires IsInt64(p.version)
    ensures Ambiguous(p) <==>
            exists q: ModelProfile :: IsInt64(q.version) && q.modelId != p.modelId && Namespace(q) == Namespace(p)
  {
    if Ambiguous(p) {
      var q := ReadAnother(p);
    }
    if q: ModelProfile :| IsInt64(q.version) && q.modelId != p.modelId && Namespace(q) == Namespace(p) {
      SharedMeansAmbiguous(p, q);
    }
  }

  /** The smallest collision: a hash profile that reads like a version. */
  lemma NamespaceCollidesAcrossModels(p: ModelProfile, q: ModelProfile)
    requires p.modelId == "a" && p.version == 1 && p.hashProfile == "x/v1/y" && p.blockSize == 1
    requires q.modelId == "a/v1/x" && q.version == 1 && q.hashProfile == "y" && q.blockSize == 1
    ensures Namespace(p) == Namespace(q)
  {
    assert ItoaText(1) == "1" by {
      assert Digits(0) == "";
      assert Digits(1) == Digits(0) + [Digit(1)];
    }
    assert Namespace(p) == "a/v1/x/v1/y/1";
    assert Namespace(q) == "a/v1/x/v1/y/1";
  }

  // ------------------------------------------------------------ versioning

  function Normalize(p: ModelProfile): ModelProfile {
    if p.tokenizerMode == "local" then p.(tokenizerEndpoint := "")
    else p.(tokenizerMode := "remote", chatTemplateSha256 := "")
  }

  predicate AffectsHashNamespace(old': ModelProfile, neu: ModelProfile) {
    || old'.framework != neu.framework
    || old'.tokenizerEndpoint != neu.tokenizerEndpoint
    || old'.tokenizerMode != neu.tokenizerMode
    || old'.chatTemplateSha256 != neu.chatTemplateSha256
    || old'.hashProfile != neu.hashProfile
    || old'.blockSize != neu.blockSize
    || old'.hashSeed != neu.hashSeed
    || old'.supportsLoRA != neu.supportsLoRA
    || old'.supportsMultimodal != neu.supportsMultimodal
    || old'.supportsCacheSalt != neu.supportsCacheSalt
  }

  /** The profile an upsert stores over `old'`, and whether it counts as a version bump. */
  function Upserted(old': Option<ModelProfile>, q: ModelProfile): (ModelProfile, bool) {
    var p := Normalize(q);
    match old'
    case Some(o) =>
      if AffectsHashNamespace(o, p) then (p.(version := o.version + 1), true)
      else if p.version == 0 then (p.(version := o.version), false)
      else (p, false)
    case None => if p.version == 0 then (p.(version := 1), false) else (p, false)
  }

  /** Hash-affecting is every field but the names and the version. */
  lemma HashFieldsExactly(a: ModelProfile, b: ModelProfile)
    ensures !AffectsHashNamespace(a, b) <==> a.(modelId := b.modelId, aliases := b.aliases, version := b.version) == b
  {
  }

  /** What is stored for `q`: its fields, those of one tokenizer mode only, under the next fitting version. */
  ghost predicate StoredFor(old': Option<ModelProfile>, q: ModelProfile, stored: ModelProfile) {
    && stored.modelId == q.modelId && stored.aliases == q.aliases && stored.framework == q.framework
    && stored.hashProfile == q.hashProfile && stored.blockSize == q.blockSize && stored.hashSeed == q.hashSeed
    && stored.supportsLoRA == q.supportsLoRA && stored.supportsMultimodal == q.supportsMultimodal
    && stored.supportsCacheSalt == q.supportsCacheSalt
    && (if q.tokenizerMode == "local"
        then stored.tokenizerMode == "local" && stored.tokenizerEndpoint == "" &&
             stored.chatTemplateSha256 == q.chatTemplateSha256
        else stored.tokenizerMode == "remote" && stored.tokenizerEndpoint == q.tokenizerEndpoint &&
             stored.chatTemplateSha256 == "")
    && stored.version ==
         if old'.Some? && Rehashes(old'.value, stored) then old'.value.version + 1
         else if q.version != 0 then q.version
         else if old'.Some? then old'.value.version
         else 1
  }

  /** The two differ in more than names and version. */
  predicate Rehashes(a: ModelProfile, b: ModelProfile) {
    a.(modelId := b.modelId, aliases := b.aliases, version := b.version) != b
  }

  lemma UpsertedMeans(old': Option<ModelProfile>, q: ModelProfile)
    ensures var (stored, flagged) := Upserted(old', q);
            StoredFor(old', q, stored) && (flagged <==> old'.Some? && Rehashes(old'.value, stored))
  {
    if old'.Some? {
      HashFieldsExactly(old'.value, Upserted(old', q).0);
    }
  }

  /** The profile stored after each of a run of upserts for one model. */
  function History(upserts: seq<ModelProfile>): (h: seq<ModelProfile>)
    ensures |h| == |upserts|
  {
    if upserts == [] then []
    else
      var front := History(Init(upserts));
      front + [Upserted(if front == [] then None else Some(Last(front)), Last(upserts)).0]
  }

  /** The i-th upsert names a version below the stored one and changes no hash-affecting field. */
  predicate Stale(upserts: seq<ModelProfile>, i: nat)
    requires i < |upserts|
  {
    i > 0 &&
    var stored, p := History(upserts)[i - 1], Normalize(upserts[i]);
    !AffectsHashNamespace(stored, p) && p.version != 0 && p.version < stored.version
  }

  predicate NeverStale(upserts: seq<ModelProfile>) {
    forall i :: 0 <= i < |upserts| ==> !Stale(upserts, i)
  }

  lemma {:induction false} HistoryAt(upserts: seq<ModelProfile>, i: nat)
    requires i < |upserts|
    ensures var h := History(upserts);
            h[i] == Upserted(if i == 0 then None else Some(h[i - 1]), upserts[i]).0
    decreases |upserts|
  {
    if i < |upserts| - 1 {
      HistoryAt(Init(upserts), i);
    }
  }

  /** One upsert lowers the version only when stale, and raises it when the hash changes. */
  lemma UpsertedVersion(o: ModelProfile, q: ModelProfile)
    ensures var p, stored := Normalize(q), Upserted(Some(o), q).0;
            && (stored.version < o.version <==>
                !AffectsHashNamespace(o, p) && p.version != 0 && p.version < o.version)
            && (AffectsHashNamespace(o, stored) ==> stored.version == o.version + 1)
  {
  }

  lemma HistoryStep(upserts: seq<ModelProfile>, i: nat)
    requires 0 < i < |upserts|
    ensures var h := History(upserts);
            && (h[i].version < h[i - 1].version <==> Stale(upserts, i))
            && (AffectsHashNamespace(h[i - 1], h[i]) ==> h[i].version > h[i - 1].version)
  {
    HistoryAt(upserts, i);
    UpsertedVersion(History(upserts)[i - 1], upserts[i]);
  }

  ghost predicate VersionsNeverDecrease(h: seq<ModelProfile>) {
    forall i, j :: 0 <= i <= j < |h| ==> h[i].version <= h[j].version
  }

  /** Versions never decrease exactly when no upsert is stale. */
  lemma VersionsDecreaseOnlyByStaleUpserts(upserts: seq<ModelProfile>)
    ensures VersionsNeverDecrease(History(upserts)) <==> NeverStale(upserts)
  {
    if NeverStale(upserts) {
      NeverStaleNeverDecreases(upserts);
    } else {
      var i :| 0 <= i < |upserts| && Stale(upserts, i);
      StaleDecreases(upserts, i);
    }
  }

  lemma NeverStaleNeverDecreases(upserts: seq<ModelProfile>)
    requires NeverStale(upserts)
    ensures VersionsNeverDecrease(History(upserts))
  {
    var h := History(upserts);
    forall i, j | 0 <= i <= j < |h| ensures h[i].version <= h[j].version {
      NotStaleSpan(upserts, i, j);
    }
  }

  lemma StaleDecreases(upserts: seq<ModelProfile>, i: nat)
    requires i < |upserts| && Stale(upserts, i)
    ensures !VersionsNeverDecrease(History(upserts))
  {
    HistoryStep(upserts, i);
    assert 0 <= i - 1 <= i < |History(upserts)|;
  }

  /** Without stale upserts, an unchanged version means unchanged hash semantics. */
  lemma {:induction false} NotStaleSpan(upserts: seq<ModelProfile>, i: nat, j: nat)
    requires i <= j < |upserts| && NeverStale(upserts)
    ensures var h := History(upserts);
            h[i].version <= h[j].version &&
            (h[i].version == h[j].version ==> !AffectsHashNamespace(h[i], h[j]))
    decreases j - i
  {
    if i < j {
      NotStaleSpan(upserts, i, j - 1);
      HistoryStep(upserts, j);
    }
  }

  /**
   * The namespace pins the hash semantics. Over any run of upserts for one model in
   * which none is stale (version 0 and the stored version never are), two stored
   * profiles with the same namespace agree on every hash-affecting field. So an index,
   * which is found by namespace, sees one seed and one block size of this model.
   */
  lemma NamespacePinsHashSemantics(upserts: seq<ModelProfile>, i: nat, j: nat)
    requires i <= j < |upserts|
    requires forall k, l :: 0 <= k < |upserts| && 0 <= l < |upserts| ==> upserts[k].modelId == upserts[l].modelId
    requires NeverStale(upserts)
    requires Namespace(History(upserts)[i]) == Namespace(History(upserts)[j])
    ensures !AffectsHashNamespace(History(upserts)[i], History(upserts)[j])
    ensures History(upserts)[i].hashSeed == History(upserts)[j].hashSeed
    ensures History(upserts)[i].blockSize == History(upserts)[j].blockSize
  {
    NotStaleSpan(upserts, i, j);
    ModelIdKept(upserts, i);
    ModelIdKept(upserts, j);
    NamespaceInjective(History(upserts)[i], History(upserts)[j]);
  }

  lemma ModelIdKept(upserts: seq<ModelProfile>, i: nat)
    requires i < |upserts|
    ensures History(upserts)[i].modelId == upserts[i].modelId
  {
    var before := if i == 0 then None else Some(History(upserts)[i - 1]);
    calc {
      History(upserts)[i].modelId;
      { HistoryAt(upserts, i); }
      Upserted(before, upserts[i]).0.modelId;
      { UpsertedKeepsModel(before, upserts[i]); }
      upserts[i].modelId;
    }
  }

  lemma UpsertedKeepsModel(before: Option<ModelProfile>, q: ModelProfile)
    ensures Upserted(before, q).0.modelId == q.modelId
  {
  }

  /**
   * A stale upsert does break the pinning: after a seed change bumped the version to 2,
   * re-sending the new profile with version 1 puts the new seed under the old namespace.
   */
  lemma StaleUpsertReusesNamespace(p: ModelProfile, q: ModelProfile)
    requires Normalize(p) == p && p.version == 1
    requires q == p.(hashSeed := p.hashSeed + "'")
    ensures var h := History([p, q.(version := 0), q]);
            && Namespace(h[0]) == Namespace(h[2])
            && h[0].hashSeed != h[2].hashSeed
            && Stale([p, q.(version := 0), q], 2)
  {
    var ups := [p, q.(version := 0), q];
    assert |p.hashSeed + "'"| == |p.hashSeed| + 1;
    assert Init(ups) == [p, q.(version := 0)] && Init([p, q.(version := 0)]) == [p] && Init([p]) == [];
    assert History([p]) == [p];
    assert History([p, q.(version := 0)]) == [p, q.(version := 2)];
    assert History(ups) == [p, q.(version := 2), q];
  }
}
