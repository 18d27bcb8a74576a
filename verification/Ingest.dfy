/**
 * What internal/kvevents/listener.go does with one decoded event, as a value:
 * which index operation it amounts to, given the engine's own bridge.
 */
module Ingest {
  import opened Basics
  import opened ChainKeys
  import opened IndexState
  import opened EngineViews

  /** A decoded KV event. The kind tag of the source is the constructor. */
  datatype Event =
    | BlockStored(blockHashes: seq<uint64>, parent: Option<uint64>, tokenIds: seq<Token>,
                  hasNestedTokenIds: bool, blockSize: int, medium: string, hasLoraId: bool,
                  loraName: string, hasExtraKeys: bool, specKind: string)
    | BlockRemoved(blockHashes: seq<uint64>, medium: string)
    | AllBlocksCleared

  datatype Batch = Batch(seqNo: uint64, dpRank: int, events: seq<Event>)

  /** What ResolveIngest yields for a namespace: hash, chain seed, profile block size. */
  datatype Scheme = Scheme(hash: BlockHash, seed: uint64, blockSize: int)

  // -------------------------------------------------------------- small helpers

  function UpperChar(c: char): char {
    if 'a' <= c <= 'z' then (c as int - 32) as char else c
  }

  function LowerChar(c: char): char {
    if 'A' <= c <= 'Z' then (c as int + 32) as char else c
  }

  function ToUpper(s: string): string {
    seq(|s|, i requires 0 <= i < |s| => UpperChar(s[i]))
  }

  function ToLower(s: string): string {
    seq(|s|, i requires 0 <= i < |s| => LowerChar(s[i]))
  }

  function MediumToTier(medium: string): string {
    var m := ToUpper(medium);
    if m == "" || m == "GPU" then "gpu"
    else if m == "CPU" || m == "CPU_PINNED" then "cpu"
    else if m == "DISK" || m == "EXTERNAL" then "disk"
    else ToLower(medium)
  }

  predicate IngestableSpecKind(kind: string) {
    ToLower(kind) !in ["mamba", "mamba2", "linear_attention", "short_conv"]
  }

  /** Reading a medium ignores case, and re-reading a device, host or other tier name keeps it. */
  lemma MediumIgnoresCase(a: string, b: string)
    requires ToUpper(a) == ToUpper(b)
    ensures MediumToTier(a) == MediumToTier(b)
    ensures MediumToTier(MediumToTier(a)) == MediumToTier(a)
  {
    assert |ToUpper(a)| == |a| && |ToUpper(b)| == |b|;
    forall i | 0 <= i < |a| ensures LowerChar(a[i]) == LowerChar(b[i]) {
      assert ToUpper(a)[i] == UpperChar(a[i]) && ToUpper(b)[i] == UpperChar(b[i]);
    }
    assert ToLower(a) == ToLower(b);
    assert ToUpper(ToLower(a)) == ToUpper(a);
    assert ToLower(ToLower(a)) == ToLower(a);
    assert ToUpper("gpu") == "GPU";
    assert ToUpper("cpu") == "CPU";
    assert ToUpper("disk") == "DISK";
  }

  predicate HasUnsupportedFeatureKeys(ev: Event)
    requires ev.BlockStored?
  {
    ev.hasExtraKeys || ev.hasLoraId || ev.loraName != ""
  }

  /** Equal up to the case of ASCII letters, character by character. */
  predicate SameIgnoringCase(a: string, b: string) {
    |a| == |b| && forall i :: 0 <= i < |a| ==> SameLetter(a[i], b[i])
  }

  predicate SameLetter(x: char, y: char) {
    || x == y
    || ('a' <= x <= 'z' && x as int - y as int == 'a' as int - 'A' as int)
    || ('a' <= y <= 'z' && y as int - x as int == 'a' as int - 'A' as int)
  }

  lemma UpperMeansSame(a: string, b: string)
    ensures ToUpper(a) == ToUpper(b) <==> SameIgnoringCase(a, b)
    ensures ToLower(a) == ToLower(b) <==> SameIgnoringCase(a, b)
  {
    assert |ToUpper(a)| == |a| == |ToLower(a)| && |ToUpper(b)| == |b| == |ToLower(b)|;
    if |a| == |b| {
      forall i | 0 <= i < |a|
        ensures ToUpper(a)[i] == ToUpper(b)[i] <==> SameLetter(a[i], b[i])
        ensures ToLower(a)[i] == ToLower(b)[i] <==> SameLetter(a[i], b[i])
      {
        assert UpperChar(a[i]) == UpperChar(b[i]) <==> SameLetter(a[i], b[i]);
        assert LowerChar(a[i]) == LowerChar(b[i]) <==> SameLetter(a[i], b[i]);
      }
    }
  }

  /** The tiers in plain words: which media, in any case, are the device, the host and the disk. */
  lemma TiersMean(medium: string)
    ensures MediumToTier(medium) == "gpu" <==> medium == "" || SameIgnoringCase(medium, "GPU")
    ensures MediumToTier(medium) == "cpu" <==> SameIgnoringCase(medium, "CPU") || SameIgnoringCase(medium, "CPU_PINNED")
    ensures MediumToTier(medium) == "disk" <==> SameIgnoringCase(medium, "DISK") || SameIgnoringCase(medium, "EXTERNAL")
    ensures MediumToTier(medium) !in ["gpu", "cpu", "disk"] ==> SameIgnoringCase(MediumToTier(medium), medium)
  {
    CreditedTiers(medium);
    UppersOfMedia();
    UpperMeansSame(medium, "GPU");
    UpperMeansSame(medium, "CPU");
    UpperMeansSame(medium, "CPU_PINNED");
    UpperMeansSame(medium, "DISK");
    UpperMeansSame(medium, "EXTERNAL");
    UpperMeansSame(ToLower(medium), medium);
    assert ToUpper(ToLower(medium)) == ToUpper(medium);
    assert |ToUpper(medium)| == |medium|;
  }

  lemma UppersOfMedia()
    ensures ToUpper("GPU") == "GPU" && ToUpper("CPU") == "CPU" && ToUpper("CPU_PINNED") == "CPU_PINNED"
    ensures ToUpper("DISK") == "DISK" && ToUpper("EXTERNAL") == "EXTERNAL"
  {
  }

  /** The kinds of blocks that hold no plain attention state, in any case. */
  lemma UningestableKinds(kind: string)
    ensures !IngestableSpecKind(kind) <==>
            || SameIgnoringCase(kind, "mamba") || SameIgnoringCase(kind, "mamba2")
            || SameIgnoringCase(kind, "linear_attention") || SameIgnoringCase(kind, "short_conv")
  {
    UpperMeansSame(kind, "mamba");
    UpperMeansSame(kind, "mamba2");
    UpperMeansSame(kind, "linear_attention");
    UpperMeansSame(kind, "short_conv");
    assert ToLower("mamba") == "mamba" && ToLower("mamba2") == "mamba2";
    assert ToLower("linear_attention") == "linear_attention" && ToLower("short_conv") == "short_conv";
  }

  /** The media each credited tier stands for; any other medium is its own, uncredited tier. */
  lemma CreditedTiers(medium: string)
    ensures MediumToTier(medium) == "gpu" <==> ToUpper(medium) in ["", "GPU"]
    ensures MediumToTier(medium) == "cpu" <==> ToUpper(medium) in ["CPU", "CPU_PINNED"]
    ensures MediumToTier(medium) == "disk" <==> ToUpper(medium) in ["DISK", "EXTERNAL"]
  {
    assert "gpu"[0] != "cpu"[0] && "gpu"[0] != "disk"[0] && "cpu"[0] != "disk"[0];
    assert ToUpper("gpu") == "GPU" && ToUpper("cpu") == "CPU" && ToUpper("disk") == "DISK";
    assert ToUpper(ToLower(medium)) == ToUpper(medium);
  }

  /** Plain attention blocks over text tokens: what the index can hash. */
  predicate TextOnly(ev: Event)
    requires ev.BlockStored?
  {
    IngestableSpecKind(ev.specKind) && !ev.hasNestedTokenIds && !HasUnsupportedFeatureKeys(ev)
  }

  // ------------------------------------------------------------- classification

  datatype Treatment =
    | Ignored(reason: string)  // recorded, not counted as skipped
    | Skipped(reason: string)  // counted in skipped_total
    | Applied(op: Op)

  function EffectiveBlockSize(scheme: Scheme, ev: Event): int
    requires ev.BlockStored?
  {
    if ev.blockSize > 0 then ev.blockSize else scheme.blockSize
  }

  /** requestKeysForEvent; None when the declared parent is not bridged. */
  function KeysForEvent(scheme: Scheme, bridge: map<uint64, uint64>, ev: Event): Option<seq<uint64>>
    requires ev.BlockStored?
  {
    var bs := EffectiveBlockSize(scheme, ev);
    match ev.parent
    case None => Some(RequestKeys(scheme.hash, scheme.seed, ev.tokenIds, bs))
    case Some(p) =>
      if p in bridge then Some(RequestKeys(scheme.hash, bridge[p], ev.tokenIds, bs)) else None
  }

  function Classify(scheme: Scheme, bridge: map<uint64, uint64>, dpRank: int, ev: Event): Treatment {
    match ev
    case BlockStored(hashes, _, tokens, nested, _, medium, _, _, _, kind) =>
      if !IngestableSpecKind(kind) then Ignored("non_ingestable_spec_kind")
      else if nested then Ignored("unsupported_nested_token_ids")
      else if HasUnsupportedFeatureKeys(ev) then Ignored("unsupported_hash_extra_keys")
      else if |tokens| == 0 && |hashes| > 0 then
        if forall h :: h in hashes ==> h in bridge
        then Applied(CopyOp(dpRank, MediumToTier(medium), hashes))
        else Skipped("unresolved_engine_key")
      else
        (match KeysForEvent(scheme, bridge, ev)
         case None => Skipped("unresolved_parent")
         case Some(keys) =>
           if |keys| == 0 then Skipped("no_full_token_block")
           else Applied(StoreOp(dpRank, MediumToTier(medium), hashes, keys)))
    case BlockRemoved(hashes, medium) => Applied(RemoveOp(dpRank, MediumToTier(medium), hashes))
    case AllBlocksCleared => Applied(ClearOp(""))
  }

  function IngestEvent(scheme: Scheme, s: State, e: string, dpRank: int, ev: Event): State {
    Treated(s, e, Classify(scheme, ViewOf(s, e).bridge, dpRank, ev))
  }

  function Treated(s: State, e: string, treatment: Treatment): State {
    if treatment.Applied? then Step(s, e, treatment.op) else s
  }

  function SkipsEvent(scheme: Scheme, s: State, e: string, dpRank: int, ev: Event): nat {
    if Classify(scheme, ViewOf(s, e).bridge, dpRank, ev).Skipped? then 1 else 0
  }

  /** A batch, event by event. */
  function IngestEvents(scheme: Scheme, s: State, e: string, dpRank: int, events: seq<Event>): State {
    if events == [] then s
    else IngestEvent(scheme, IngestEvents(scheme, s, e, dpRank, Init(events)), e, dpRank, Last(events))
  }

  function SkipsEvents(scheme: Scheme, s: State, e: string, dpRank: int, events: seq<Event>): nat {
    if events == [] then 0
    else
      SkipsEvents(scheme, s, e, dpRank, Init(events)) +
      SkipsEvent(scheme, IngestEvents(scheme, s, e, dpRank, Init(events)), e, dpRank, Last(events))
  }

  // --------------------------------------------- stores, field by field

  /** Blocks whose hash the index cannot reproduce: adapters, other inputs, nested ids, other kinds of state. */
  predicate CannotBeHashed(ev: Event)
    requires ev.BlockStored?
  {
    || ev.hasExtraKeys || ev.hasLoraId || ev.loraName != [] || ev.hasNestedTokenIds
    || SameIgnoringCase(ev.specKind, "mamba") || SameIgnoringCase(ev.specKind, "mamba2")
    || SameIgnoringCase(ev.specKind, "linear_attention") || SameIgnoringCase(ev.specKind, "short_conv")
  }

  lemma TextOnlyMeans(ev: Event)
    requires ev.BlockStored?
    ensures TextOnly(ev) <==> !CannotBeHashed(ev)
  {
    UningestableKinds(ev.specKind);
  }

  /** They leave the index alone, and are not counted as skipped. */
  lemma UnhashableStoresAreIgnored(scheme: Scheme, s: State, e: string, dpRank: int, ev: Event)
    requires ev.BlockStored? && CannotBeHashed(ev)
    ensures IngestEvent(scheme, s, e, dpRank, ev) == s && SkipsEvent(scheme, s, e, dpRank, ev) == 0
  {
    UningestableKinds(ev.specKind);
  }

  /** A block size the event brings wins over the profile's. */
  function SizeOf(scheme: Scheme, ev: Event): int
    requires ev.BlockStored?
  {
    if ev.blockSize >= 1 then ev.blockSize else scheme.blockSize
  }

  /**
   * Any other store of at least one full block makes the engine a holder of that block, under
   * the key that continues from the parent's key, or from the seed when there is no parent.
   */
  lemma HashableStoresAreIndexed(scheme: Scheme, s: State, e: string, dpRank: int, ev: Event, start: uint64)
    requires ev.BlockStored? && !CannotBeHashed(ev)
    requires SizeOf(scheme, ev) > 0 && |ev.tokenIds| >= SizeOf(scheme, ev)
    requires match ev.parent
             case None => start == scheme.seed
             case Some(p) => BridgeKey(e, p) in s.bridge && start == s.bridge[BridgeKey(e, p)]
    ensures var t := IngestEvent(scheme, s, e, dpRank, ev);
            var key := scheme.hash(start, ev.tokenIds[..SizeOf(scheme, ev)]);
            && Resident(e, dpRank, MediumToTier(ev.medium)) in Holders(t, key)
            && (ev.blockHashes != [] && |ev.tokenIds| < 2 * SizeOf(scheme, ev) ==>
                  BridgeKey(e, Last(ev.blockHashes)) in t.bridge && t.bridge[BridgeKey(e, Last(ev.blockHashes))] == key)
    ensures SkipsEvent(scheme, s, e, dpRank, ev) == 0
  {
    var bs := SizeOf(scheme, ev);
    TextOnlyMeans(ev);
    ViewMembers(s, e);
    FirstKey(scheme.hash, start, ev.tokenIds, bs);
    var keys := RequestKeys(scheme.hash, start, ev.tokenIds, bs);
    assert KeysForEvent(scheme, ViewOf(s, e).bridge, ev) == Some(keys);
    assert Classify(scheme, ViewOf(s, e).bridge, dpRank, ev) ==
           Applied(StoreOp(dpRank, MediumToTier(ev.medium), ev.blockHashes, keys));
    assert keys[0] in keys;
  }

  lemma FirstKey(hash: BlockHash, start: uint64, tokens: seq<Token>, bs: int)
    requires 0 < bs <= |tokens|
    ensures var keys := RequestKeys(hash, start, tokens, bs);
            keys != [] && keys[0] == hash(start, tokens[..bs]) && (|tokens| < 2 * bs ==> |keys| == 1)
  {
    var chunks := Chunks(tokens, bs);
    assert chunks == [tokens[..bs]] + Chunks(tokens[bs..], bs);
    if |tokens| < 2 * bs {
      assert |tokens[bs..]| < bs && Chunks(tokens[bs..], bs) == [];
    }
    assert chunks[..0 + 1] == [tokens[..bs]] && Init([tokens[..bs]]) == [];
    assert Fold(hash, start, chunks[..0 + 1]) == hash(Fold(hash, start, []), tokens[..bs]);
  }

  /** A hashable store is counted as skipped, and then changes nothing, exactly when something is missing. */
  lemma SkippedExactlyWhenUnresolved(scheme: Scheme, s: State, e: string, dpRank: int, ev: Event)
    requires ev.BlockStored? && !CannotBeHashed(ev)
    ensures SkipsEvent(scheme, s, e, dpRank, ev) == 1 <==>
            if ev.tokenIds == [] && ev.blockHashes != [] then
              exists h :: h in ev.blockHashes && BridgeKey(e, h) !in s.bridge
            else
              || (ev.parent.Some? && BridgeKey(e, ev.parent.value) !in s.bridge)
              || SizeOf(scheme, ev) <= 0 || |ev.tokenIds| < SizeOf(scheme, ev)
    ensures SkipsEvent(scheme, s, e, dpRank, ev) == 1 ==> IngestEvent(scheme, s, e, dpRank, ev) == s
  {
    TextOnlyMeans(ev);
    ViewMembers(s, e);
    assert forall h :: h in ViewOf(s, e).bridge <==> BridgeKey(e, h) in s.bridge;
    if SizeOf(scheme, ev) > 0 && |ev.tokenIds| >= SizeOf(scheme, ev) {
      FirstKey(scheme.hash, scheme.seed, ev.tokenIds, SizeOf(scheme, ev));
    }
  }

  /** Removals and clears are always applied, each to its own engine. */
  lemma RemovalsAreApplied(scheme: Scheme, s: State, e: string, dpRank: int, ev: Event)
    requires !ev.BlockStored?
    ensures SkipsEvent(scheme, s, e, dpRank, ev) == 0
    ensures IngestEvent(scheme, s, e, dpRank, ev) ==
            if ev.BlockRemoved? then Remove(s, Resident(e, dpRank, MediumToTier(ev.medium)), ev.blockHashes)
            else Clear(s, e, "")
  {
  }

  // ------------------------------------------------------------------ whole runs

  /** One event as it reaches the shared index: from which engine and rank. */
  datatype Delivery = Delivery(engineId: string, report: Report)

  datatype Report = Report(dpRank: int, event: Event)

  function IngestRun(scheme: Scheme, run: seq<Delivery>): State {
    if run == [] then EMPTY
    else
      var d := Last(run);
      IngestEvent(scheme, IngestRun(scheme, Init(run)), d.engineId, d.report.dpRank, d.report.event)
  }

  /** The index operations a run amounts to. */
  function OpsOf(scheme: Scheme, run: seq<Delivery>): seq<EngineOp> {
    if run == [] then []
    else
      var d := Last(run);
      match Classify(scheme, ViewOf(IngestRun(scheme, Init(run)), d.engineId).bridge, d.report.dpRank, d.report.event)
      case Applied(op) => OpsOf(scheme, Init(run)) + [EngineOp(d.engineId, op)]
      case _ => OpsOf(scheme, Init(run))
  }

  lemma {:induction false} RunIsItsOps(scheme: Scheme, run: seq<Delivery>)
    ensures IngestRun(scheme, run) == RunOps(OpsOf(scheme, run))
    decreases |run|
  {
    if run != [] {
      var d, front := Last(run), Init(run);
      RunIsItsOps(scheme, front);
      var treated := Classify(scheme, ViewOf(IngestRun(scheme, front), d.engineId).bridge, d.report.dpRank, d.report.event);
      if treated.Applied? {
        RunOpsSnoc(OpsOf(scheme, front), d.engineId, treated.op);
      }
    }
  }

  lemma ClearsAreWhole(scheme: Scheme, bridge: map<uint64, uint64>, dpRank: int, ev: Event)
    ensures var treated := Classify(scheme, bridge, dpRank, ev);
            treated.Applied? && treated.op.ClearOp? ==> treated.op.tier == ""
  {
  }

  lemma {:induction false} RunClearsWholeEngines(scheme: Scheme, run: seq<Delivery>)
    ensures forall o :: o in OpsOf(scheme, run) && o.op.ClearOp? ==> o.op.tier == ""
    decreases |run|
  {
    if run != [] {
      var d, front := Last(run), Init(run);
      RunClearsWholeEngines(scheme, front);
      ClearsAreWhole(scheme, ViewOf(IngestRun(scheme, front), d.engineId).bridge, d.report.dpRank, d.report.event);
    }
  }

  /** Ingest only ever clears whole engines, so the index it builds is exact. */
  lemma IngestedIndexIsExact(scheme: Scheme, run: seq<Delivery>)
    ensures WellFormed(IngestRun(scheme, run)) && Exact(IngestRun(scheme, run))
  {
    RunIsItsOps(scheme, run);
    RunClearsWholeEngines(scheme, run);
    RunsAreWellFormed(OpsOf(scheme, run));
  }

  function BatchDeliveries(e: string, dpRank: int, events: seq<Event>): seq<Delivery> {
    seq(|events|, i requires 0 <= i < |events| => Delivery(e, Report(dpRank, events[i])))
  }

  /** Handing a batch to ingest extends the run by the batch's events. */
  lemma {:induction false} BatchExtendsRun(scheme: Scheme, run: seq<Delivery>, e: string, dpRank: int, events: seq<Event>)
    ensures IngestEvents(scheme, IngestRun(scheme, run), e, dpRank, events) ==
            IngestRun(scheme, run + BatchDeliveries(e, dpRank, events))
    decreases |events|
  {
    var more := run + BatchDeliveries(e, dpRank, events);
    if events == [] {
      assert more == run;
    } else {
      var front := run + BatchDeliveries(e, dpRank, Init(events));
      assert Init(more) == front && Last(more) == Delivery(e, Report(dpRank, Last(events)));
      calc {
        IngestEvents(scheme, IngestRun(scheme, run), e, dpRank, events);
        IngestEvent(scheme, IngestEvents(scheme, IngestRun(scheme, run), e, dpRank, Init(events)), e, dpRank, Last(events));
        { BatchExtendsRun(scheme, run, e, dpRank, Init(events)); }
        IngestEvent(scheme, IngestRun(scheme, front), e, dpRank, Last(events));
        IngestRun(scheme, more);
      }
    }
  }

  // -------------------------------------------------- one engine's own stream

  function ReportsOf(run: seq<Delivery>, e: string): seq<Report> {
    if run == [] then []
    else
      var front := ReportsOf(Init(run), e);
      if Last(run).engineId == e then front + [Last(run).report] else front
  }

  function IngestView(scheme: Scheme, v: View, r: Report): View {
    TreatedView(v, Classify(scheme, v.bridge, r.dpRank, r.event))
  }

  function TreatedView(v: View, treatment: Treatment): View {
    if treatment.Applied? then ViewStep(v, treatment.op) else v
  }

  function RunReports(scheme: Scheme, reports: seq<Report>): View {
    if reports == [] then EMPTY_VIEW
    else IngestView(scheme, RunReports(scheme, Init(reports)), Last(reports))
  }

  /** What a report does, on the view its own engine's stream has produced. */
  function TreatmentAt(scheme: Scheme, reports: seq<Report>, i: nat): Treatment
    requires i < |reports|
  {
    Classify(scheme, RunReports(scheme, reports[..i]).bridge, reports[i].dpRank, reports[i].event)
  }

  /** The engine's own stream names blocks as `k` says, one hash per block. */
  ghost predicate OneToOneReports(scheme: Scheme, k: map<uint64, uint64>, reports: seq<Report>) {
    && Injective(k)
    && forall i :: 0 <= i < |reports| && TreatmentAt(scheme, reports, i).Applied? ==>
         OneToOneOp(k, TreatmentAt(scheme, reports, i).op)
  }

  lemma OneToOneFront(scheme: Scheme, k: map<uint64, uint64>, reports: seq<Report>)
    requires reports != [] && OneToOneReports(scheme, k, reports)
    ensures OneToOneReports(scheme, k, Init(reports))
  {
    forall i | 0 <= i < |Init(reports)| ensures TreatmentAt(scheme, Init(reports), i) == TreatmentAt(scheme, reports, i) {
      assert Init(reports)[..i] == reports[..i];
    }
  }

  lemma OneToOneSnoc(scheme: Scheme, k: map<uint64, uint64>, reports: seq<Report>)
    requires reports != [] && OneToOneReports(scheme, k, Init(reports))
    requires var treated := Classify(scheme, RunReports(scheme, Init(reports)).bridge,
                                     Last(reports).dpRank, Last(reports).event);
             treated.Applied? ==> OneToOneOp(k, treated.op)
    ensures OneToOneReports(scheme, k, reports)
  {
    forall i | 0 <= i < |reports| && TreatmentAt(scheme, reports, i).Applied?
      ensures OneToOneOp(k, TreatmentAt(scheme, reports, i).op)
    {
      if i < |reports| - 1 {
        assert Init(reports)[..i] == reports[..i];
        assert TreatmentAt(scheme, Init(reports), i) == TreatmentAt(scheme, reports, i);
      } else {
        assert reports[..i] == Init(reports);
      }
    }
  }

  /** A report of an engine with no dangling bridge acts on the engine's own view alone. */
  lemma OwnReport(scheme: Scheme, k: map<uint64, uint64>, s: State, e: string, r: Report)
    requires WellFormed(s) && Injective(k) && BridgedBy(k, ViewOf(s, e))
    requires var treated := Classify(scheme, ViewOf(s, e).bridge, r.dpRank, r.event);
             treated.Applied? ==> OneToOneOp(k, treated.op)
    ensures ViewOf(IngestEvent(scheme, s, e, r.dpRank, r.event), e) == IngestView(scheme, ViewOf(s, e), r)
  {
    TreatmentIsLocal(k, s, e, Classify(scheme, ViewOf(s, e).bridge, r.dpRank, r.event));
  }

  lemma TreatmentIsLocal(k: map<uint64, uint64>, s: State, e: string, treatment: Treatment)
    requires WellFormed(s) && Injective(k) && BridgedBy(k, ViewOf(s, e))
    requires treatment.Applied? ==> OneToOneOp(k, treatment.op)
    ensures ViewOf(Treated(s, e, treatment), e) == TreatedView(ViewOf(s, e), treatment)
  {
    if treatment.Applied? {
      BridgedIsSafe(k, ViewOf(s, e), treatment.op);
      StepIsLocal(s, e, treatment.op);
    }
  }

  lemma OwnReportKeepsBridged(scheme: Scheme, k: map<uint64, uint64>, v: View, r: Report)
    requires Injective(k) && BridgedBy(k, v)
    requires var treated := Classify(scheme, v.bridge, r.dpRank, r.event);
             treated.Applied? ==> OneToOneOp(k, treated.op)
    ensures BridgedBy(k, IngestView(scheme, v, r))
  {
    var treated := Classify(scheme, v.bridge, r.dpRank, r.event);
    if treated.Applied? {
      ViewStepKeepsBridged(k, v, treated.op);
    }
  }

  lemma OthersReport(scheme: Scheme, s: State, f: string, r: Report, e: string)
    requires f != e
    ensures ViewOf(IngestEvent(scheme, s, f, r.dpRank, r.event), e) == ViewOf(s, e)
  {
    var treated := Classify(scheme, ViewOf(s, f).bridge, r.dpRank, r.event);
    if treated.Applied? {
      OthersKeepTheirView(s, f, treated.op, e);
    }
  }

  lemma {:induction false} OthersReports(scheme: Scheme, run: seq<Delivery>, more: seq<Delivery>, e: string)
    requires forall d :: d in more ==> d.engineId != e
    ensures ViewOf(IngestRun(scheme, run + more), e) == ViewOf(IngestRun(scheme, run), e)
    decreases |more|
  {
    if more == [] {
      assert run + more == run;
    } else {
      var front, d := run + Init(more), Last(more);
      assert Init(run + more) == front && Last(run + more) == d;
      calc {
        ViewOf(IngestRun(scheme, run + more), e);
        ViewOf(IngestEvent(scheme, IngestRun(scheme, front), d.engineId, d.report.dpRank, d.report.event), e);
        { OthersReport(scheme, IngestRun(scheme, front), d.engineId, d.report, e); }
        ViewOf(IngestRun(scheme, front), e);
        { OthersReports(scheme, run, Init(more), e); }
        ViewOf(IngestRun(scheme, run), e);
      }
    }
  }

  /**
   * Event streams are isolated: what an engine that names blocks one-to-one has in
   * the shared index is a function of its own reports, whatever is interleaved with them.
   */
  lemma {:induction false} StreamsAreIsolated(scheme: Scheme, k: map<uint64, uint64>, run: seq<Delivery>, e: string)
    requires OneToOneReports(scheme, k, ReportsOf(run, e))
    ensures ViewOf(IngestRun(scheme, run), e) == RunReports(scheme, ReportsOf(run, e))
    ensures BridgedBy(k, RunReports(scheme, ReportsOf(run, e)))
    decreases |run|
  {
    if run != [] {
      var d, reports := Last(run), ReportsOf(run, e);
      var s := IngestRun(scheme, Init(run));
      if d.engineId == e {
        assert Init(reports) == ReportsOf(Init(run), e) && Last(reports) == d.report;
        OneToOneFront(scheme, k, reports);
        StreamsAreIsolated(scheme, k, Init(run), e);
        IngestedIndexIsExact(scheme, Init(run));
        assert TreatmentAt(scheme, reports, |reports| - 1) ==
               Classify(scheme, ViewOf(s, e).bridge, d.report.dpRank, d.report.event) by {
          assert reports[..|reports| - 1] == Init(reports);
        }
        OwnReport(scheme, k, s, e, d.report);
        OwnReportKeepsBridged(scheme, k, ViewOf(s, e), d.report);
      } else {
        StreamsAreIsolated(scheme, k, Init(run), e);
        OthersReport(scheme, s, d.engineId, d.report, e);
      }
    }
  }

  /** Every interleaving of the same one-to-one event streams builds the same index. */
  lemma EventInterleavingsAgree(scheme: Scheme, k: string -> map<uint64, uint64>, run: seq<Delivery>, run': seq<Delivery>)
    requires forall e :: ReportsOf(run, e) == ReportsOf(run', e)
    requires forall e :: OneToOneReports(scheme, k(e), ReportsOf(run, e))
    ensures IngestRun(scheme, run) == IngestRun(scheme, run')
  {
    IngestedIndexIsExact(scheme, run);
    IngestedIndexIsExact(scheme, run');
    forall e ensures ViewOf(IngestRun(scheme, run), e) == ViewOf(IngestRun(scheme, run'), e) {
      assert ReportsOf(run, e) == ReportsOf(run', e);
      StreamsAreIsolated(scheme, k(e), run, e);
      StreamsAreIsolated(scheme, k(e), run', e);
    }
    ViewsDetermineState(IngestRun(scheme, run), IngestRun(scheme, run'));
  }

  // ------------------------------------------------ unsupported events are inert

  function Supported(run: seq<Delivery>): seq<Delivery> {
    if run == [] then []
    else
      var ev := Last(run).report.event;
      Supported(Init(run)) + if ev.BlockStored? && CannotBeHashed(ev) then [] else [Last(run)]
  }

  /**
   * Stores with LoRA, multimodal or cache-salt keys, nested tokens or recurrent-state
   * groups leave no mark: the index is as if they had never been sent.
   */
  lemma {:induction false} UnsupportedEventsAreInert(scheme: Scheme, run: seq<Delivery>)
    ensures IngestRun(scheme, Supported(run)) == IngestRun(scheme, run)
    decreases |run|
  {
    if run != [] {
      var d, front := Last(run), Init(run);
      UnsupportedEventsAreInert(scheme, front);
      if d.report.event.BlockStored? && CannotBeHashed(d.report.event) {
        assert Supported(run) == Supported(front);
        UnhashableStoresAreIgnored(scheme, IngestRun(scheme, front), d.engineId, d.report.dpRank, d.report.event);
      } else {
        assert Init(Supported(run)) == Supported(front) && Last(Supported(run)) == d;
      }
    }
  }

  // ------------------------------------------------------- no poisoned keys

  /** The token chunks an event reports, at the block size ingest uses for it. */
  function ChunksReported(scheme: Scheme, ev: Event): set<Chunk> {
    if ev.BlockStored? then Elems(Chunks(ev.tokenIds, EffectiveBlockSize(scheme, ev))) else {}
  }

  function ReportedChunks(scheme: Scheme, run: seq<Delivery>): set<Chunk> {
    if run == [] then {}
    else ReportedChunks(scheme, Init(run)) + ChunksReported(scheme, Last(run).report.event)
  }

  /** `rk` is the fold of the block hash from the seed over reported chunks. */
  ghost predicate Derived(scheme: Scheme, chunks: set<Chunk>, rk: uint64) {
    exists chain: Chain :: chain != [] && Elems(chain) <= chunks && Fold(scheme.hash, scheme.seed, chain) == rk
  }

  ghost predicate AllDerived(scheme: Scheme, chunks: set<Chunk>, s: State) {
    && (forall rk :: rk in s.byRequestKey ==> Derived(scheme, chunks, rk))
    && (forall bk :: bk in s.bridge ==> Derived(scheme, chunks, s.bridge[bk]))
  }

  lemma DerivedFromMore(scheme: Scheme, chunks: set<Chunk>, more: set<Chunk>, rk: uint64)
    requires chunks <= more && Derived(scheme, chunks, rk)
    ensures Derived(scheme, more, rk)
  {
    var chain: Chain :| chain != [] && Elems(chain) <= chunks && Fold(scheme.hash, scheme.seed, chain) == rk;
    assert Elems(chain) <= more;
  }

  lemma KeysOfEventAreDerived(scheme: Scheme, chunks: set<Chunk>, bridge: map<uint64, uint64>, ev: Event)
    requires ev.BlockStored? && ChunksReported(scheme, ev) <= chunks
    requires forall p :: p in bridge ==> Derived(scheme, chunks, bridge[p])
    ensures var keys := KeysForEvent(scheme, bridge, ev);
            keys.Some? ==> forall rk :: rk in keys.value ==> Derived(scheme, chunks, rk)
  {
    var keys := KeysForEvent(scheme, bridge, ev);
    if keys.Some? {
      var own := Chunks(ev.tokenIds, EffectiveBlockSize(scheme, ev));
      var base: Chain := [];
      if ev.parent.Some? {
        var chain: Chain :| chain != [] && Elems(chain) <= chunks &&
                            Fold(scheme.hash, scheme.seed, chain) == bridge[ev.parent.value];
        base := chain;
      }
      forall rk | rk in keys.value ensures Derived(scheme, chunks, rk) {
        var i :| 0 <= i < |keys.value| && keys.value[i] == rk;
        var whole := base + own[..i + 1];
        FoldAppend(scheme.hash, scheme.seed, base, own[..i + 1]);
        forall c | c in whole ensures c in chunks {
          assert c in base ==> c in Elems(base);
          assert c in own[..i + 1] ==> c in Elems(own);
        }
        assert whole != [] && Elems(whole) <= chunks && Fold(scheme.hash, scheme.seed, whole) == rk;
      }
    }
  }

  lemma {:induction false} RemoveOnlyDrops(s: State, r: Resident, eks: seq<uint64>)
    ensures Remove(s, r, eks).byRequestKey.Keys <= s.byRequestKey.Keys
    ensures forall bk :: bk in Remove(s, r, eks).bridge ==> bk in s.bridge && Remove(s, r, eks).bridge[bk] == s.bridge[bk]
    decreases |eks|
  {
    if eks != [] {
      RemoveOnlyDrops(s, r, Init(eks));
      RemoveOneOnlyDrops(Remove(s, r, Init(eks)), r, Last(eks));
    }
  }

  lemma RemoveOneOnlyDrops(s: State, r: Resident, ek: uint64)
    ensures RemoveOne(s, r, ek).byRequestKey.Keys <= s.byRequestKey.Keys
    ensures forall bk :: bk in RemoveOne(s, r, ek).bridge ==> bk in s.bridge && RemoveOne(s, r, ek).bridge[bk] == s.bridge[bk]
  {
  }

  lemma {:induction false} BridgeTailValues(b: map<BridgeKey, uint64>, e: string, eks: seq<uint64>, rks: seq<uint64>)
    ensures forall bk :: bk in BridgeTail(b, e, eks, rks) ==>
              || (bk in b && BridgeTail(b, e, eks, rks)[bk] == b[bk])
              || BridgeTail(b, e, eks, rks)[bk] in rks
    decreases |eks|
  {
    if eks != [] && rks != [] {
      BridgeTailValues(b, e, Init(eks), Init(rks));
      assert forall x :: x in Init(rks) || x == Last(rks) ==> x in rks;
    }
  }

  lemma StepKeepsDerived(scheme: Scheme, chunks: set<Chunk>, s: State, e: string, op: Op)
    requires AllDerived(scheme, chunks, s)
    requires op.StoreOp? ==> forall rk :: rk in op.requestKeys ==> Derived(scheme, chunks, rk)
    ensures AllDerived(scheme, chunks, Step(s, e, op))
  {
    match op
    case StoreOp(_, _, eks, rks) =>
      BridgeTailValues(s.bridge, e, eks, rks);
    case CopyOp(_, _, eks) =>
      if Resolvable(s, e, eks) {
        forall rk | rk in Resolved(s, e, eks) ensures Derived(scheme, chunks, rk) {
          var i :| 0 <= i < |eks| && Resolved(s, e, eks)[i] == rk;
          assert eks[i] in eks;
        }
      }
    case RemoveOp(dp, tier, eks) =>
      RemoveOnlyDrops(s, Resident(e, dp, tier), eks);
    case ClearOp(_) =>
  }

  /**
   * No poisoned keys. Whatever the engines report, in whatever order, with gaps,
   * mismatched counts or changing block sizes, every resident or bridged request
   * key is the fold of the block hash from the namespace seed over some list of
   * chunks that were reported.
   */
  lemma {:induction false} NoPoisonedKeys(scheme: Scheme, run: seq<Delivery>)
    ensures AllDerived(scheme, ReportedChunks(scheme, run), IngestRun(scheme, run))
    decreases |run|
  {
    if run != [] {
      var d, s := Last(run), IngestRun(scheme, Init(run));
      var before, chunks := ReportedChunks(scheme, Init(run)), ReportedChunks(scheme, run);
      NoPoisonedKeys(scheme, Init(run));
      forall rk | Derived(scheme, before, rk) ensures Derived(scheme, chunks, rk) {
        DerivedFromMore(scheme, before, chunks, rk);
      }
      EventKeepsDerived(scheme, chunks, s, d);
    }
  }

  lemma EventKeepsDerived(scheme: Scheme, chunks: set<Chunk>, s: State, d: Delivery)
    requires AllDerived(scheme, chunks, s) && ChunksReported(scheme, d.report.event) <= chunks
    ensures AllDerived(scheme, chunks, IngestEvent(scheme, s, d.engineId, d.report.dpRank, d.report.event))
  {
    ViewMembers(s, d.engineId);
    var bridge := ViewOf(s, d.engineId).bridge;
    if d.report.event.BlockStored? {
      KeysOfEventAreDerived(scheme, chunks, bridge, d.report.event);
    }
    var treated := Classify(scheme, bridge, d.report.dpRank, d.report.event);
    if treated.Applied? {
      StepKeepsDerived(scheme, chunks, s, d.engineId, treated.op);
    }
  }
}
