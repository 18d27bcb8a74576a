/**
 * The stream side of internal/kvevents/listener.go: sequence tracking over live
 * and replayed messages, and the ingest loop that applies batches to the index.
 * A message is what the decoder made of it; sockets are not modelled.
 */
module Listener {
  import opened Basics
  import opened ChainKeys
  import opened IndexState
  import opened EngineViews
  import opened ResidencyIndex
  import opened Ingest

  /** A message as the listener gets to see it. */
  datatype Frame =
    | Undecodable             // wrong frame count or undecodable payload
    | Decoded(batch: Batch)

  /** One reply on the replay channel. */
  datatype Reply = EndOfReplay | Message(frame: Frame)

  function Int64Of(u: uint64): int64 {
    if u < 0x8000_0000_0000_0000 then u as int64
    else (u as int - 0x1_0000_0000_0000_0000) as int64
  }

  // -------------------------------------------------------- sequence tracking

  datatype SeqState = SeqState(hasSeq: bool, lastSeq: int64, gaps: nat)

  function Track(st: SeqState, seqNo: int64): SeqState {
    if st.hasSeq && seqNo <= st.lastSeq then st
    else
      SeqState(true, seqNo,
               st.gaps + if st.hasSeq && seqNo as int > st.lastSeq as int + 1 then 1 else 0)
  }

  function RunSeq(frames: seq<Frame>): SeqState {
    if frames == [] then SeqState(false, 0, 0)
    else
      var st := RunSeq(Init(frames));
      match Last(frames)
      case Undecodable => st
      case Decoded(b) => Track(st, Int64Of(b.seqNo))
  }

  /** The numbers of the messages that were decoded and handed to ingest. */
  function Passed(frames: seq<Frame>): set<int64> {
    set f | f in frames && f.Decoded? :: Int64Of(f.batch.seqNo)
  }

  function FirstSeq(frames: seq<Frame>): Option<int64> {
    if frames == [] then None
    else
      match FirstSeq(Init(frames))
      case Some(n) => Some(n)
      case None => if Last(frames).Decoded? then Some(Int64Of(Last(frames).batch.seqNo)) else None
  }

  /** Every number from the first one tracked to the last one has been ingested. */
  ghost predicate Complete(frames: seq<Frame>) {
    FirstSeq(frames).Some? ==>
      forall n: int64 :: FirstSeq(frames).value <= n <= RunSeq(frames).lastSeq ==> n in Passed(frames)
  }

  lemma PassedSnoc(frames: seq<Frame>)
    requires frames != []
    ensures Passed(frames) ==
            Passed(Init(frames)) + (if Last(frames).Decoded? then {Int64Of(Last(frames).batch.seqNo)} else {})
  {
    assert frames == Init(frames) + [Last(frames)];
  }

  /** LastSeq is the greatest number ever passed to ingest, and the first one is among them. */
  lemma {:induction false} LastSeqIsMaximum(frames: seq<Frame>)
    ensures RunSeq(frames).hasSeq <==> Passed(frames) != {}
    ensures RunSeq(frames).hasSeq <==> FirstSeq(frames).Some?
    ensures RunSeq(frames).hasSeq ==> RunSeq(frames).lastSeq in Passed(frames)
    ensures FirstSeq(frames).Some? ==> FirstSeq(frames).value in Passed(frames)
    ensures forall n :: n in Passed(frames) ==> n <= RunSeq(frames).lastSeq
    decreases |frames|
  {
    if frames != [] {
      LastSeqIsMaximum(Init(frames));
      PassedSnoc(frames);
    }
  }

  lemma {:induction false} GapsNeverDecrease(frames: seq<Frame>, n: nat)
    requires n <= |frames|
    ensures RunSeq(frames[..n]).gaps <= RunSeq(frames).gaps
    decreases |frames|
  {
    if n == |frames| {
      assert frames[..n] == frames;
    } else {
      GapsNeverDecrease(Init(frames), n);
      assert Init(frames)[..n] == frames[..n];
    }
  }

  lemma JumpLeavesHole(frames: seq<Frame>)
    requires frames != [] && RunSeq(frames).gaps != RunSeq(Init(frames)).gaps
    ensures !Complete(frames)
  {
    var front := Init(frames);
    var missing := RunSeq(front).lastSeq + 1;
    LastSeqIsMaximum(front);
    PassedSnoc(frames);
    assert FirstSeq(frames) == FirstSeq(front);
    assert FirstSeq(frames).value <= missing <= RunSeq(frames).lastSeq && missing !in Passed(frames);
  }

  lemma NoJumpKeepsComplete(frames: seq<Frame>)
    requires frames != [] && Complete(Init(frames)) && RunSeq(frames).gaps == RunSeq(Init(frames)).gaps
    ensures Complete(frames)
  {
    var front := Init(frames);
    LastSeqIsMaximum(front);
    PassedSnoc(frames);
    if FirstSeq(frames).Some? {
      var last := RunSeq(frames).lastSeq;
      forall n: int64 | FirstSeq(frames).value <= n <= last ensures n in Passed(frames) {
        if FirstSeq(front).Some? && n <= RunSeq(front).lastSeq {
          assert n in Passed(front);
        } else {
          assert n == last;
        }
      }
    }
  }

  /**
   * Zero gaps means nothing was missed, and only that: GapsTotal is zero if and only
   * if, at every moment of the stream, each number from the first tracked one to
   * LastSeq had already been decoded and passed to ingest. Replayed, duplicate,
   * reordered and undecodable messages are all allowed.
   */
  lemma {:induction false} ZeroGapsIffNothingMissed(frames: seq<Frame>)
    ensures RunSeq(frames).gaps == 0 <==> forall n: nat :: n <= |frames| ==> Complete(frames[..n])
    decreases |frames|
  {
    if frames == [] {
      assert frames[..0] == [];
    } else {
      var front := Init(frames);
      ZeroGapsIffNothingMissed(front);
      GapsNeverDecrease(frames, |front|);
      assert frames[..|front|] == front;
      assert frames[..|frames|] == frames;
      forall n: nat | n <= |front| ensures front[..n] == frames[..n] {
      }
      if Complete(front) {
        if RunSeq(frames).gaps == RunSeq(front).gaps {
          NoJumpKeepsComplete(frames);
        } else {
          JumpLeavesHole(frames);
        }
      }
      if RunSeq(frames).gaps == 0 {
        assert Complete(front[..|front|]) && front[..|front|] == front;
        forall n: nat | n <= |frames| ensures Complete(frames[..n]) {
          if n <= |front| {
            assert Complete(front[..n]);
          }
        }
      }
      if forall n: nat :: n <= |frames| ==> Complete(frames[..n]) {
        forall n: nat | n <= |front| ensures Complete(front[..n]) {
          assert Complete(frames[..n]);
        }
        assert Complete(frames[..|front|]) && Complete(frames[..|frames|]);
      }
    }
  }

  /** The sequence number of the first decoded message, as it is on the wire. */
  function FirstOnTheWire(frames: seq<Frame>): Option<uint64> {
    if frames == [] then None
    else
      match FirstOnTheWire(Init(frames))
      case Some(n) => Some(n)
      case None => if Last(frames).Decoded? then Some(Last(frames).batch.seqNo) else None
  }

  ghost predicate OnTheWire(frames: seq<Frame>, n: uint64) {
    exists f :: f in frames && f.Decoded? && f.batch.seqNo == n
  }

  /** From the first number on the wire, every number up to any decoded one has been decoded too. */
  ghost predicate CompleteOnTheWire(frames: seq<Frame>) {
    FirstOnTheWire(frames).Some? ==>
      forall n, m: uint64 {:trigger OnTheWire(frames, n), OnTheWire(frames, m)} ::
        FirstOnTheWire(frames).value <= n <= m && OnTheWire(frames, m) ==> OnTheWire(frames, n)
  }

  /** All numbers on the wire are below `bound`. */
  ghost predicate Below(frames: seq<Frame>, bound: int) {
    forall f :: f in frames && f.Decoded? ==> f.batch.seqNo as int < bound
  }

  const HALF: int := 0x8000_0000_0000_0000

  lemma {:induction false} FirstOnTheWireIsFirst(frames: seq<Frame>)
    requires Below(frames, HALF)
    ensures FirstOnTheWire(frames).Some? <==> FirstSeq(frames).Some?
    ensures FirstOnTheWire(frames).Some? ==> FirstOnTheWire(frames).value as int == FirstSeq(frames).value as int
    decreases |frames|
  {
    if frames != [] {
      assert frames == Init(frames) + [Last(frames)];
      FirstOnTheWireIsFirst(Init(frames));
    }
  }

  lemma PassedOnTheWire(frames: seq<Frame>, n: uint64)
    requires Below(frames, HALF)
    ensures OnTheWire(frames, n) <==> n < 0x8000_0000_0000_0000 && Int64Of(n) in Passed(frames)
  {
    if n < 0x8000_0000_0000_0000 && Int64Of(n) in Passed(frames) {
      var f :| f in frames && f.Decoded? && Int64Of(f.batch.seqNo) == Int64Of(n);
      assert f.batch.seqNo == n;
    }
  }

  lemma CompleteMeansOnTheWire(frames: seq<Frame>)
    requires Below(frames, HALF)
    ensures Complete(frames) <==> CompleteOnTheWire(frames)
  {
    LastSeqIsMaximum(frames);
    FirstOnTheWireIsFirst(frames);
    if FirstSeq(frames).Some? {
      var first, last := FirstOnTheWire(frames).value, RunSeq(frames).lastSeq;
      PassedOnTheWire(frames, first);
      assert first as int <= last as int;
      var top := last as int as uint64;
      if Complete(frames) {
        forall n, m: uint64 | first <= n <= m && OnTheWire(frames, m) ensures OnTheWire(frames, n) {
          PassedOnTheWire(frames, m);
          PassedOnTheWire(frames, n);
        }
      }
      if CompleteOnTheWire(frames) {
        PassedOnTheWire(frames, top);
        forall n: int64 | FirstSeq(frames).value <= n <= last ensures n in Passed(frames) {
          PassedOnTheWire(frames, n as int as uint64);
        }
      }
    }
  }

  /** Zero gaps and nothing missed, in the numbering of the wire, are the same for this stream. */
  ghost predicate GapsTell(frames: seq<Frame>) {
    RunSeq(frames).gaps == 0 <==> forall n: nat :: n <= |frames| ==> CompleteOnTheWire(frames[..n])
  }

  /** They are for streams that stay below 2^63. */
  lemma ZeroGapsOnTheWire(frames: seq<Frame>)
    requires Below(frames, HALF)
    ensures GapsTell(frames)
  {
    ZeroGapsIffNothingMissed(frames);
    forall n: nat | n <= |frames| ensures Complete(frames[..n]) <==> CompleteOnTheWire(frames[..n]) {
      CompleteMeansOnTheWire(frames[..n]);
    }
  }

  /** From 2^63 on a number reads as negative: after 0 comes any such number, and no gap is seen. */
  lemma HugeNumbersHideGaps(m: uint64)
    requires m as int >= HALF
    ensures var frames := [Decoded(Batch(0, 0, [])), Decoded(Batch(m, 0, []))];
            RunSeq(frames) == SeqState(true, 0, 0) && !CompleteOnTheWire(frames)
  {
    var a, b := Decoded(Batch(0, 0, [])), Decoded(Batch(m, 0, []));
    var frames := [a, b];
    assert Init(frames) == [a] && Init([a]) == [];
    assert RunSeq([a]) == SeqState(true, 0, 0);
    assert FirstOnTheWire([a]) == Some(0);
    assert frames[1] == b && OnTheWire(frames, m);
    assert !OnTheWire(frames, 1);
  }

  /** So 2^63 is the exact bound: nothing larger makes the gap count tell whether numbers are missing. */
  lemma GapsTellExactlyBelowHalf(bound: int)
    requires 0 <= bound <= 0x1_0000_0000_0000_0000
    ensures bound <= HALF <==> forall frames :: Below(frames, bound) ==> GapsTell(frames)
  {
    if bound <= HALF {
      forall frames | Below(frames, bound) ensures GapsTell(frames) {
        ZeroGapsOnTheWire(frames);
      }
    } else {
      var frames := [Decoded(Batch(0, 0, [])), Decoded(Batch(0x8000_0000_0000_0000, 0, []))];
      HugeNumbersHideGaps(0x8000_0000_0000_0000);
      assert frames[..|frames|] == frames;
      assert Below(frames, bound) && !GapsTell(frames);
    }
  }

  // ------------------------------------------------------------- the listener

  class StreamListener {
    const engineId: string
    var connected: bool
    var lastSeq: int64
    var hasSeq: bool
    var gaps: nat
    var decodeErrors: nat
    var skipped: nat
    var events: nat
    ghost var history: seq<Frame>

    constructor (engineId: string)
      ensures Valid() && history == [] && this.engineId == engineId
      ensures !connected && decodeErrors == skipped == events == 0
    {
      this.engineId := engineId;
      connected := false;
      lastSeq, hasSeq, gaps := 0, false, 0;
      decodeErrors, skipped, events := 0, 0, 0;
      history := [];
    }

    /** The counters say what the whole history of messages says. */
    ghost predicate Valid()
      reads this
    {
      SeqState(hasSeq, lastSeq, gaps) == RunSeq(history)
    }

    /** subscribeLoop and run set this when the subscription opens and fails. */
    method SetConnected(up: bool)
      requires Valid()
      modifies this`connected
      ensures Valid() && connected == up
    {
      connected := up;
    }

    method TrackSeq(seqNo: int64)
      modifies this`lastSeq, this`hasSeq, this`gaps
      ensures SeqState(hasSeq, lastSeq, gaps) == Track(old(SeqState(hasSeq, lastSeq, gaps)), seqNo)
      ensures hasSeq && lastSeq == if old(hasSeq) && old(lastSeq) >= seqNo then old(lastSeq) else seqNo
      ensures gaps == old(gaps) + if old(hasSeq) && seqNo as int - old(lastSeq) as int >= 2 then 1 else 0
    {
      if hasSeq && seqNo <= lastSeq {
        return;
      }
      if hasSeq && seqNo > lastSeq + 1 {
        gaps := gaps + 1;
      }
      lastSeq := seqNo;
      hasSeq := true;
    }

    /** Where a replay asks to start: 0 on a fresh listener, else just after LastSeq. */
    method NextReplaySeq() returns (start: int64)
      ensures start == if hasSeq then Int64Of(((lastSeq as int + 1) % 0x1_0000_0000_0000_0000) as uint64) else 0
    {
      if !hasSeq {
        return 0;
      }
      start := if lastSeq == 0x7FFF_FFFF_FFFF_FFFF then -0x8000_0000_0000_0000 else lastSeq + 1;
    }

    /** ingest; `target` is None when the model has no profile. */
    method IngestBatch(ix: Index, target: Option<Scheme>, batch: Batch)
      requires (ix as object) != this
      modifies ix, this`skipped, this`events
      ensures ix.Value() == if target.None? then old(ix.Value())
                            else IngestEvents(target.value, old(ix.Value()), engineId, batch.dpRank, batch.events)
      ensures skipped == old(skipped) +
                         if target.None? then 0
                         else SkipsEvents(target.value, old(ix.Value()), engineId, batch.dpRank, batch.events)
      ensures events == old(events) + |batch.events|
    {
      if target.None? {
        events := events + |batch.events|;
        return;
      }
      ghost var s := ix.Value();
      for i := 0 to |batch.events|
        invariant ix.Value() == IngestEvents(target.value, s, engineId, batch.dpRank, batch.events[..i])
        invariant skipped == old(skipped) + SkipsEvents(target.value, s, engineId, batch.dpRank, batch.events[..i])
        invariant events == old(events)
      {
        InitPrefix(batch.events, i);
        var missed := IngestOne(ix, target.value, batch.dpRank, batch.events[i]);
        if missed {
          skipped := skipped + 1;
        }
      }
      assert batch.events[..|batch.events|] == batch.events;
      events := events + |batch.events|;
    }

    /** The body of ingest's loop; true when the event counts as skipped. */
    method IngestOne(ix: Index, scheme: Scheme, dpRank: int, ev: Event) returns (missed: bool)
      modifies ix
      ensures ix.Value() == IngestEvent(scheme, old(ix.Value()), engineId, dpRank, ev)
      ensures missed <==> SkipsEvent(scheme, old(ix.Value()), engineId, dpRank, ev) == 1
      ensures ev.BlockStored? && CannotBeHashed(ev) ==> ix.Value() == old(ix.Value()) && !missed
    {
      ghost var s := ix.Value();
      ViewMembers(s, engineId);
      if ev.BlockStored? && CannotBeHashed(ev) {
        UnhashableStoresAreIgnored(scheme, s, engineId, dpRank, ev);
      }
      missed := false;
      match ev {
        case BlockStored(hashes, parent, tokens, nested, _, medium, _, _, _, kind) =>
          if !IngestableSpecKind(kind) || nested || HasUnsupportedFeatureKeys(ev) {
            return;
          }
          var tier := MediumToTier(medium);
          if |tokens| == 0 && |hashes| > 0 {
            var _, ok := ix.StoreEventByEngineKeys(engineId, dpRank, tier, hashes);
            missed := !ok;
            return;
          }
          var keys := KeysFor(ix, scheme, ev);
          if keys.None? || |keys.value| == 0 {
            missed := true;
            return;
          }
          ix.StoreEvent(engineId, dpRank, tier, hashes, keys.value);
        case BlockRemoved(hashes, medium) =>
          ix.RemoveEvent(engineId, dpRank, MediumToTier(medium), hashes);
        case AllBlocksCleared =>
          ix.ClearEngine(engineId, "");
      }
    }

    /** requestKeysForEvent */
    method KeysFor(ix: Index, scheme: Scheme, ev: Event) returns (keys: Option<seq<uint64>>)
      requires ev.BlockStored?
      ensures keys == KeysForEvent(scheme, ViewOf(ix.Value(), engineId).bridge, ev)
    {
      ViewMembers(ix.Value(), engineId);
      var parentSeed := scheme.seed;
      if ev.parent.Some? {
        var rk := ix.LookupBridge(engineId, ev.parent.value);
        if rk.None? {
          return None;
        }
        parentSeed := rk.value;
      }
      var bs := if ev.blockSize > 0 then ev.blockSize else scheme.blockSize;
      var ks := RequestKeysFromTokens(scheme.hash, parentSeed, ev.tokenIds, bs);
      keys := Some(ks);
    }

    /** handleFrames, and the body of the replay loop. */
    method HandleFrame(ix: Index, target: Option<Scheme>, frame: Frame)
      requires Valid() && (ix as object) != this
      modifies ix, this
      ensures Valid() && history == old(history) + [frame]
      ensures gaps >= old(gaps)
      ensures ix.Value() == Delivered(target, old(ix.Value()), engineId, frame)
      ensures decodeErrors == old(decodeErrors) + if frame.Undecodable? then 1 else 0
    {
      history := history + [frame];
      assert Init(history) == old(history) && Last(history) == frame;
      match frame {
        case Undecodable =>
          decodeErrors := decodeErrors + 1;
        case Decoded(batch) =>
          TrackSeq(Int64Of(batch.seqNo));
          IngestBatch(ix, target, batch);
      }
    }

    /** replayBuffered, on the replies that arrive before it ends or fails. */
    method ReplayBuffered(ix: Index, target: Option<Scheme>, replies: seq<Reply>) returns (ghost taken: seq<Frame>)
      requires Valid() && (ix as object) != this
      modifies ix, this
      ensures Valid() && history == old(history) + taken
      ensures taken == FramesBeforeEnd(replies)
      ensures ix.Value() == DeliveredAll(target, old(ix.Value()), engineId, taken)
    {
      taken := [];
      ghost var s := ix.Value();
      for i := 0 to |replies|
        invariant Valid() && history == old(history) + taken
        invariant FramesBeforeEnd(replies) == taken + FramesBeforeEnd(replies[i..])
        invariant ix.Value() == DeliveredAll(target, s, engineId, taken)
      {
        match replies[i] {
          case EndOfReplay =>
            NoMoreFrames(replies, i, taken);
            return;
          case Message(frame) =>
            OneMoreFrame(replies, i, taken);
            HandleFrame(ix, target, frame);
            DeliveredSnoc(target, s, engineId, taken, frame);
            taken := taken + [frame];
        }
      }
    }
  }

  function FramesBeforeEnd(replies: seq<Reply>): seq<Frame> {
    if replies == [] || replies[0].EndOfReplay? then []
    else [replies[0].frame] + FramesBeforeEnd(replies[1..])
  }

  lemma NoMoreFrames(replies: seq<Reply>, i: nat, taken: seq<Frame>)
    requires i < |replies| && FramesBeforeEnd(replies) == taken + FramesBeforeEnd(replies[i..])
    requires replies[i].EndOfReplay?
    ensures taken == FramesBeforeEnd(replies)
  {
  }

  lemma OneMoreFrame(replies: seq<Reply>, i: nat, taken: seq<Frame>)
    requires i < |replies| && FramesBeforeEnd(replies) == taken + FramesBeforeEnd(replies[i..])
    requires replies[i].Message?
    ensures FramesBeforeEnd(replies) == taken + [replies[i].frame] + FramesBeforeEnd(replies[i + 1..])
  {
    var rest := FramesBeforeEnd(replies[i + 1..]);
    assert FramesBeforeEnd(replies[i..]) == [replies[i].frame] + rest by {
      assert replies[i..][1..] == replies[i + 1..];
    }
    assert taken + ([replies[i].frame] + rest) == taken + [replies[i].frame] + rest;
  }

  function Delivered(target: Option<Scheme>, s: State, e: string, frame: Frame): State {
    if target.Some? && frame.Decoded?
    then IngestEvents(target.value, s, e, frame.batch.dpRank, frame.batch.events)
    else s
  }

  function DeliveredAll(target: Option<Scheme>, s: State, e: string, frames: seq<Frame>): State {
    if frames == [] then s else Delivered(target, DeliveredAll(target, s, e, Init(frames)), e, Last(frames))
  }

  lemma DeliveredSnoc(target: Option<Scheme>, s: State, e: string, frames: seq<Frame>, frame: Frame)
    ensures DeliveredAll(target, s, e, frames + [frame]) == Delivered(target, DeliveredAll(target, s, e, frames), e, frame)
  {
    assert Init(frames + [frame]) == frames;
  }

  /** The events of a frame, as deliveries from `e`. */
  function FrameDelivery(e: string, frame: Frame): seq<Delivery> {
    if frame.Decoded? then BatchDeliveries(e, frame.batch.dpRank, frame.batch.events) else []
  }

  function FrameDeliveries(e: string, frames: seq<Frame>): seq<Delivery> {
    if frames == [] then [] else FrameDeliveries(e, Init(frames)) + FrameDelivery(e, Last(frames))
  }

  lemma FrameExtendsRun(scheme: Scheme, run: seq<Delivery>, e: string, frame: Frame)
    ensures Delivered(Some(scheme), IngestRun(scheme, run), e, frame) ==
            IngestRun(scheme, run + FrameDelivery(e, frame))
  {
    if frame.Decoded? {
      BatchExtendsRun(scheme, run, e, frame.batch.dpRank, frame.batch.events);
    } else {
      assert run + FrameDelivery(e, frame) == run;
    }
  }

  /** Live and replayed frames alike extend the run of deliveries. */
  lemma {:induction false} FramesExtendRun(scheme: Scheme, run: seq<Delivery>, e: string, frames: seq<Frame>)
    ensures DeliveredAll(Some(scheme), IngestRun(scheme, run), e, frames) ==
            IngestRun(scheme, run + FrameDeliveries(e, frames))
    decreases |frames|
  {
    if frames == [] {
      assert run + FrameDeliveries(e, frames) == run;
    } else {
      var front := run + FrameDeliveries(e, Init(frames));
      assert run + FrameDeliveries(e, frames) == front + FrameDelivery(e, Last(frames));
      calc {
        DeliveredAll(Some(scheme), IngestRun(scheme, run), e, frames);
        Delivered(Some(scheme), DeliveredAll(Some(scheme), IngestRun(scheme, run), e, Init(frames)), e, Last(frames));
        { FramesExtendRun(scheme, run, e, Init(frames)); }
        Delivered(Some(scheme), IngestRun(scheme, front), e, Last(frames));
        { FrameExtendsRun(scheme, front, e, Last(frames)); }
        IngestRun(scheme, front + FrameDelivery(e, Last(frames)));
      }
    }
  }

  // ------------------------------------------- what a trusted stream has delivered

  /** The engine's batches, numbered from 0 in the order it published them. */
  predicate Published(batches: seq<Batch>) {
    |batches| <= HALF && forall n :: 0 <= n < |batches| ==> batches[n].seqNo as int == n
  }

  /** Decoded frames carry batches of the engine, each under its own number. */
  predicate Carries(batches: seq<Batch>, frames: seq<Frame>) {
    forall f :: f in frames && f.Decoded? ==> f.batch in batches
  }

  predicate NoNumberTwice(frames: seq<Frame>) {
    forall i, j :: 0 <= i < j < |frames| && frames[i].Decoded? && frames[j].Decoded? ==>
      frames[i].batch.seqNo != frames[j].batch.seqNo
  }

  /** The batches that were decoded and handed to ingest, in order. */
  function BatchesIn(frames: seq<Frame>): seq<Batch> {
    if frames == [] then []
    else BatchesIn(Init(frames)) + if Last(frames).Decoded? then [Last(frames).batch] else []
  }

  lemma {:induction false} BatchesInFrames(frames: seq<Frame>, b: Batch)
    ensures b in BatchesIn(frames) <==> Decoded(b) in frames
    decreases |frames|
  {
    if frames != [] {
      assert frames == Init(frames) + [Last(frames)];
      BatchesInFrames(Init(frames), b);
    }
  }

  lemma SliceSnoc(batches: seq<Batch>, a: nat, z: nat)
    requires a < z <= |batches|
    ensures Init(batches[a..z]) == batches[a..z - 1] && Last(batches[a..z]) == batches[z - 1]
    ensures batches[a..z] == batches[a..z - 1] + [batches[z - 1]]
  {
    assert |batches[a..z]| == z - a;
  }

  /** Batches heard one after another leave no gap, and say where they began and ended. */
  lemma {:induction false} HeardInOrder(batches: seq<Batch>, frames: seq<Frame>, a: nat, z: nat)
    requires Published(batches) && a <= z <= |batches| && BatchesIn(frames) == batches[a..z]
    ensures RunSeq(frames) == if a == z then SeqState(false, 0, 0) else SeqState(true, (z - 1) as int64, 0)
    ensures FirstOnTheWire(frames) == if a == z then None else Some(a as uint64)
    decreases |frames|
  {
    if frames != [] {
      var front, f := Init(frames), Last(frames);
      if f.Decoded? {
        assert |batches[a..z]| == |BatchesIn(front)| + 1;
        SliceSnoc(batches, a, z);
        assert BatchesIn(front) == Init(batches[a..z]) && f.batch == Last(batches[a..z]);
        HeardInOrder(batches, front, a, z - 1);
      } else {
        HeardInOrder(batches, front, a, z);
      }
    }
  }

  lemma LastIsNew(frames: seq<Frame>)
    requires frames != [] && Last(frames).Decoded? && NoNumberTwice(frames)
    ensures Last(frames).batch !in BatchesIn(Init(frames))
  {
    var front, b := Init(frames), Last(frames).batch;
    forall i | 0 <= i < |front| && front[i].Decoded? ensures front[i].batch.seqNo != b.seqNo {
      assert front[i] == frames[i] && frames[|frames| - 1] == Decoded(b);
    }
    BatchesInFrames(front, b);
  }

  /** Without a gap, a number that is new and not below the first one is the next one. */
  lemma NextBatch(batches: seq<Batch>, frames: seq<Frame>, first: uint64)
    requires Published(batches) && frames != [] && Last(frames).Decoded? && Last(frames).batch in batches
    requires NoNumberTwice(frames) && first <= Last(frames).batch.seqNo && RunSeq(frames).gaps == 0
    requires var st := RunSeq(Init(frames));
             st.hasSeq && first as int <= st.lastSeq as int < |batches| &&
             BatchesIn(Init(frames)) == batches[first..st.lastSeq as int + 1]
    ensures var n := Last(frames).batch.seqNo as int;
            && RunSeq(frames).lastSeq as int == n == RunSeq(Init(frames)).lastSeq as int + 1 < |batches|
            && Last(frames).batch == batches[n]
            && BatchesIn(frames) == batches[first..n + 1]
  {
    var b, last := Last(frames).batch, RunSeq(Init(frames)).lastSeq as int;
    var n := b.seqNo as int;
    assert n < |batches| && b == batches[n];
    if n <= last {
      assert batches[first..last + 1][n - first as int] == batches[n];
      LastIsNew(frames);
    }
    SliceSnoc(batches, first as int, n + 1);
  }

  /** The first batch heard is the first number. */
  lemma FirstBatch(batches: seq<Batch>, frames: seq<Frame>, first: uint64)
    requires Published(batches) && frames != [] && Last(frames).Decoded? && Last(frames).batch in batches
    requires !RunSeq(Init(frames)).hasSeq && BatchesIn(Init(frames)) == []
    requires FirstOnTheWire(frames) == Some(first)
    ensures first as int == RunSeq(frames).lastSeq as int < |batches|
    ensures BatchesIn(frames) == batches[first..first as int + 1]
  {
    NothingHeardYet(Init(frames));
    var b := Last(frames).batch;
    assert b == batches[b.seqNo];
  }

  lemma FirstStays(frames: seq<Frame>)
    requires frames != []
    ensures FirstOnTheWire(Init(frames)).Some? ==> FirstOnTheWire(frames) == FirstOnTheWire(Init(frames))
    ensures Last(frames).Decoded? ==> FirstOnTheWire(frames).Some?
  {
  }

  lemma {:induction false} NoGapIsInOrder(batches: seq<Batch>, frames: seq<Frame>, first: uint64)
    requires Published(batches) && Carries(batches, frames) && NoNumberTwice(frames)
    requires FirstOnTheWire(frames).Some? ==> FirstOnTheWire(frames).value == first
    requires forall f :: f in frames && f.Decoded? ==> first <= f.batch.seqNo
    requires RunSeq(frames).gaps == 0
    ensures var st := RunSeq(frames);
            if st.hasSeq
            then first as int <= st.lastSeq as int < |batches| &&
                 BatchesIn(frames) == batches[first..st.lastSeq as int + 1]
            else BatchesIn(frames) == []
    decreases |frames|
  {
    if frames != [] {
      var front, f := Init(frames), Last(frames);
      assert frames == front + [f];
      FirstStays(frames);
      NoGapIsInOrder(batches, front, first);
      if f.Decoded? {
        assert f in frames;
        if RunSeq(front).hasSeq {
          NextBatch(batches, frames, first);
        } else {
          FirstBatch(batches, frames, first);
        }
      }
    }
  }

  lemma {:induction false} NothingHeardYet(frames: seq<Frame>)
    ensures !RunSeq(frames).hasSeq ==> FirstOnTheWire(frames).None? && RunSeq(frames).gaps == 0
    decreases |frames|
  {
    if frames != [] {
      NothingHeardYet(Init(frames));
    }
  }

  /**
   * What trust in a stream amounts to. For a listener that hears the engine's batches, none
   * twice, ingest got exactly the batches up to LastSeq in the order they were published
   * if and only if no gap was counted and the first number was 0.
   */
  lemma NothingMissedExactly(batches: seq<Batch>, frames: seq<Frame>)
    requires Published(batches) && Carries(batches, frames) && NoNumberTwice(frames) && RunSeq(frames).hasSeq
    ensures 0 <= RunSeq(frames).lastSeq as int < |batches|
    ensures RunSeq(frames).gaps == 0 && FirstOnTheWire(frames) == Some(0) <==>
            BatchesIn(frames) == batches[..RunSeq(frames).lastSeq as int + 1]
  {
    LastSeqIsMaximum(frames);
    var last := RunSeq(frames).lastSeq;
    var f :| f in frames && f.Decoded? && Int64Of(f.batch.seqNo) == last;
    assert f.batch in batches;
    if RunSeq(frames).gaps == 0 && FirstOnTheWire(frames) == Some(0) {
      NoGapIsInOrder(batches, frames, 0);
    }
    if BatchesIn(frames) == batches[..last as int + 1] {
      assert batches[..last as int + 1] == batches[0..last as int + 1];
      HeardInOrder(batches, frames, 0, last as int + 1);
    }
  }

  function Sent(batches: seq<Batch>): seq<Frame> {
    seq(|batches|, i requires 0 <= i < |batches| => Decoded(batches[i]))
  }

  lemma {:induction false} SentIsHeard(batches: seq<Batch>)
    ensures BatchesIn(Sent(batches)) == batches
    decreases |batches|
  {
    if batches != [] {
      SentIsHeard(Init(batches));
      assert Init(Sent(batches)) == Sent(Init(batches));
    }
  }

  /**
   * The first number matters: a listener that only hears the batches from number `k` on, or
   * none at all, counts no gap either, although it never saw the `k` batches before.
   */
  lemma LateListenerCountsNoGap(batches: seq<Batch>, k: nat)
    requires Published(batches) && k <= |batches|
    ensures RunSeq(Sent(batches[k..])).gaps == 0 && BatchesIn(Sent(batches[k..])) == batches[k..]
  {
    SentIsHeard(batches[k..]);
    assert batches[k..] == batches[k..|batches|];
    HeardInOrder(batches, Sent(batches[k..]), k, |batches|);
  }

  /** The deliveries of whole batches. */
  function BatchesDelivered(e: string, batches: seq<Batch>): seq<Delivery> {
    if batches == [] then []
    else BatchesDelivered(e, Init(batches)) + BatchDeliveries(e, Last(batches).dpRank, Last(batches).events)
  }

  /** Frames deliver the events of their batches, and nothing else. */
  lemma {:induction false} FramesDeliverBatches(e: string, frames: seq<Frame>)
    ensures FrameDeliveries(e, frames) == BatchesDelivered(e, BatchesIn(frames))
    decreases |frames|
  {
    if frames != [] {
      FramesDeliverBatches(e, Init(frames));
      var front, f := Init(frames), Last(frames);
      if f.Decoded? {
        assert BatchesIn(frames) == BatchesIn(front) + [f.batch];
        assert Init(BatchesIn(frames)) == BatchesIn(front);
      } else {
        assert BatchesIn(frames) == BatchesIn(front);
        assert FrameDeliveries(e, frames) == FrameDeliveries(e, front);
      }
    }
  }
}
