# Verified model of the KV-cache residency index and admission

The service keeps an index of which inference engine holds which prefix blocks of
which prompts, learned from the engines' KV-cache events, and admits or rejects a
request by how much of its prompt is already cached. This project models the parts
that have to be right for that decision to mean anything, and proves it on all inputs.

| file | what it models |
|---|---|
| `Basics.dfy` | machine integers and small sequence helpers |
| `ChainKeys.dfy` | cutting tokens into blocks and chaining block hashes into request keys |
| `IndexState.dfy` | the index's three coupled maps as a value, each operation on whole maps, the structural invariant |
| `Hits.dfy` | what a query has to answer, block by block, and what that answer means |
| `ResidencyIndex.dfy` | the `Index` object with the loops of the source, proved against the two files above |
| `EngineViews.dfy` | one engine's part of the index: isolation, locality, interleavings, what the bridge tracks |
| `Interleavings.dfy` | exactly when other engines can influence what an engine's own operations do |
| `Ingest.dfy` | what one decoded event does; runs of events; no poisoned keys |
| `Listener.dfy` | the `StreamListener` object: sequence tracking, live and replayed frames, the ingest loop |
| `CacheRefinement.dfy` | reference caches of the engines and the theorem that the index refines them |
| `Replay.dfy` | delivering part of a stream twice |
| `RuleOrder.dfy`, `Admission.dfy` | the rule order, the tier-weighted hit, the verdict |
| `ModelProfiles.dfy` | profile versions, namespaces, `itoa` |
| `ConfigStore.dfy`, `VirtualConfigs.dfy` | the configuration `Store`, snapshots, and the gateway's `MemoryStore` of virtual configurations |
| `Route.dfy` | freshness, one index per namespace, the admission pipeline, the gateway's token-only variant |

Three ideas carry most of the proofs. All of an engine's entries in the three maps form
its *view*, and a view evolves on its own (`EngineViews`), so statements about
interleaved runs of many engines reduce to one engine's stream. A query is a function
of how each block of the prompt is held (`Hits`), so the index and a reference cache
give the same answer as soon as they hold the same blocks. And every verdict is a
function of a hit and a sorted rule list (`Admission.Verdict`), so iteration order,
rule order and freshness are treated as the parameters they are.

The block hash is an arbitrary function throughout. Where a property needs it to be
free of collisions, this is a hypothesis about a finite set of prefixes
(`CacheRefinement.CollisionFree`), which 64-bit keys can meet.

## What turned out not to hold

The code is modelled as it is. Each of these has a lemma that shows the failure, and the
condition under which the property does hold.

- A `BlockRemoved` for a hash whose bridge dangles (another hash of the same engine
  already removed the block) drops the bridge precisely when some *other* engine holds
  the block (`Interleavings.SharedKeysMakeOrderMatter`). Exactly: what a remove leaves of
  an engine is unaffected by the others iff its bridge does not dangle
  (`Interleavings.RemoveIsLocalExactlyWhenNotDangling`), and over whole runs an engine's
  part of the index is independent of the interleaving at every moment iff none of its
  removes follows a dangling bridge (`Interleavings.ViewIsItsOwnExactlyWhenSafe`). Naming
  blocks one-to-one is enough for that (`EngineViews.OneToOneIsSafe`).
- Delivering a suffix of a stream twice can lose blocks when a rank uses two tiers or when
  a child is left behind its evicted parent (`Replay.TwoTiersCanLoseABlock`,
  `Replay.UngentleEvictionCanLoseABlock`, both on event streams of a faithful engine). It
  never adds any (`Replay.ReplayNeverInvents`). Whether it is harmless is decided exactly
  by running the repeated acts on top of the reference cache
  (`Replay.ReplayIsHarmlessExactly`). The two conditions that can be read off without such
  a run, one rank and tier with parents kept (`Replay.ReplayIsHarmless`), or no repeated
  report skipped (`Replay.UnskippedReplayIsHarmless`), are sufficient only. Harmless repeats
  stay harmless when live reports follow, any number of times
  (`Replay.OverlapsKeepAnswersRight`).
- A caller-supplied profile version below the stored one puts new hash semantics under
  an old namespace (`ModelProfiles.StaleUpsertReusesNamespace`), and so does removing and
  re-adding a profile (`ConfigStore.RemovalReusesNamespace`). Exactly: over a run of the
  store the namespace of a model keeps pinning its hash semantics, however the run goes on
  without such mutations, iff none of its mutations removes the stored model or upserts it
  with a stale version (`ConfigStore.StaysPinnedExactlyWhenSteady`). Versions never decrease
  iff no upsert is stale (`ModelProfiles.VersionsDecreaseOnlyByStaleUpserts`).
- Two different models can share a namespace (`ModelProfiles.NamespaceCollidesAcrossModels`).
  Exactly: some profile of another model has the namespace of `p` iff a mark `/v<number>/`
  with a 64-bit number occurs in its model id followed by a slash or in its hash profile
  preceded by one (`ModelProfiles.NamespaceSharedExactlyWhenAmbiguous`). Between profiles
  whose hash profiles contain no slash it cannot happen (`ModelProfiles.NamespaceInjectiveAcrossModels`),
  and then an index sees one model, one seed and one block size (`Route.OneSchemePerNamespace`).
- A virtual configuration stops agreeing with a long-lived store as soon as a policy with
  an empty rule id is stored, and only then (`VirtualConfigs.VirtualRefinesLongLived`).
- Sequence numbers from 2^63 on read as negative, and any of them after a 0 leaves its gap
  unnoticed (`Listener.HugeNumbersHideGaps`). 2^63 is the exact bound below which zero gaps
  and nothing missed are the same (`Listener.GapsTellExactlyBelowHalf`).
- The comment at `internal/httpapi/service.go:213-221` calls the index authoritative whenever
  a connected stream has no gaps, idle streams included. The code does not know where a
  stream began: a listener that connects late, or never hears anything, is trusted although
  it missed what came before (`Route.LateListenerIsTrusted`,
  `Route.IdleListenerHidesTheCache`). Exactly: without repeated numbers, ingest got the
  engine's batches up to LastSeq in order iff there was no gap and the first number was 0
  (`Listener.NothingMissedExactly`), and then a low-hit rejection is about the engine's real
  cache (`Route.TrustedLowHitMeansLittleCached`).
- A profile with a block size of 0 is queried with block size 16
  (`internal/httpapi/route.go:185-188`) but ingested with 0 (`internal/httpapi/service.go:162`).
  Query and ingest of a profile hash alike iff its block size is positive
  (`Route.QueryHashesLikeIngestExactly`); otherwise a stream whose
  events carry no block size themselves leaves the index empty
  (`Route.UnsizedStreamsIndexNothing`).

## Model

| member | source | states |
|---|---|---|
| ChainKeys.ChunksAreSlices | internal/residency/index.go:42-52 | there are len/blockSize blocks and block i is exactly its slice of the tokens |
| ChainKeys.ChunkTokens | internal/residency/index.go:42-52 | the index-slicing loop yields those blocks, and none for a non-positive block size |
| ChainKeys.RequestKeysFromTokens | internal/residency/index.go:71-80 | the running-parent loop yields the fold of the hash over every non-empty block prefix |
| ChainKeys.ChainedKeysCompose | internal/residency/index.go:69-87 | hashing a+b from the seed is hashing a and then b from a's last key (or the seed), with len/blockSize keys in all |
| ChainKeys.TokenPrefixKeyPrefix | internal/residency/index.go:69-80 | a prefix of the tokens, cut anywhere, has a prefix of the keys |
| ResidencyIndex.Index.StoreRequestKeys | internal/residency/index.go:188-207 | every given key gains the resident, the engine's set gains the keys, nothing else changes |
| ResidencyIndex.Index.StoreEvent | internal/residency/index.go:142-162 | as above, plus bridges paired from the ends of both lists; no keys, no change |
| ResidencyIndex.Index.StoreEventByEngineKeys | internal/residency/index.go:169-186 | all hashes resolve through the bridge and their keys gain the resident, or nothing is touched and the call fails |
| ResidencyIndex.Index.AnyOf | internal/residency/index.go:241-251 | finds whether any holder belongs to the engine |
| ResidencyIndex.Index.RemoveKey | internal/residency/index.go:215-238 | one hash: the hold goes, the entry goes when empty, the bridge goes iff an entry existed and the engine keeps no hold on it |
| ResidencyIndex.Index.RemoveEvent | internal/residency/index.go:211-239 | the effect of its hashes one after another |
| ResidencyIndex.Index.DropHolds | internal/residency/index.go:267-275 | exactly the engine's holds in the named tier (or all) go from one entry |
| ResidencyIndex.Index.ClearEngine | internal/residency/index.go:255-289 | the engine's holds in the tier go from the entries in its set; without a tier its bridges and set go too |
| ResidencyIndex.Index.GroupHolders | internal/residency/index.go:336-350 | holders grouped by instance with tiers and per-rank tokens, whatever the iteration order |
| ResidencyIndex.Index.ScanBlock | internal/residency/index.go:352-387 | the active set is pruned to the block's holders and exactly those instances are extended |
| ResidencyIndex.Index.Query | internal/residency/index.go:316-390 | the single pass gives, for each holder of block 0, the hit of its longest gap-free run, early stop included |
| Hits.QueryIsLongestPrefix | internal/residency/index.go:310-390 | an engine appears iff it holds block 0; matched = disk = blockSize times the blocks before its first gap; gpu and cpu count the gpu and gpu-or-cpu blocks among them; gpu <= cpu <= disk |
| Hits.RankTokensCountHolds | internal/residency/index.go:348-386 | a rank is listed iff it holds one of the matched blocks, with blockSize per (block, tier) hold |
| Hits.QueryOfKeyPrefix | internal/residency/index.go:310-315 | asking for the first n keys gives min(matched, n * blockSize) |
| IndexState.RunsAreWellFormed | internal/residency/index.go:188-289 | after any run no entry is empty, held keys are in the engine's set, bridged engines have a set; without tier clears the sets are exact |
| IndexState.ClearLeavesNoTrace | internal/residency/index.go:255-289 | after any run, clearing a whole engine removes it from all three maps and leaves every other engine as it was |
| IndexState.ClearTakesExactly | internal/residency/index.go:255-289 | after any run, a clear takes exactly the engine's holds in the named tier, or all; with a tier named, bridges and sets stay |
| EngineViews.OthersKeepTheirView | internal/residency/index.go:142-289 | an operation on one engine leaves every other engine's holds, bridges and key set unchanged, in any state |
| EngineViews.OthersKeepTheirHits | internal/residency/index.go:142-390 | and so every other engine's answer to every query is unchanged |
| Interleavings.RemoveIsLocalExactlyWhenNotDangling | internal/residency/index.go:221-232 | after any run, nothing that other engines do before a remove changes what it leaves of the engine, iff the bridge it follows does not dangle |
| Interleavings.ViewIsItsOwnExactlyWhenSafe | internal/residency/index.go:142-289 | over whole runs an engine's part of the index is at every moment independent of the interleaving iff none of its removes follows a dangling bridge |
| EngineViews.SafeRunProjects | internal/residency/index.go:142-289 | without such a remove, an engine's view after an interleaved run is what its own operations produce |
| EngineViews.SafeInterleavingsAgree | internal/residency/index.go:142-289 | interleavings of the same streams without such removes end in the same index |
| EngineViews.RunProjects | internal/residency/index.go:142-289 | a one-to-one engine's view after an interleaved run is what its own operations produce |
| EngineViews.InterleavingsAgree | internal/residency/index.go:142-289 | interleavings of the same one-to-one streams end in the same index |
| Interleavings.SharedKeysMakeOrderMatter | internal/residency/index.go:221-232 | two hashes for one block make the interleaving observable |
| EngineViews.BridgeTracksResidency | internal/residency/index.go:142-239 | with one hash per block and equal counts, a hash is bridged iff the engine still holds its block on some rank and tier |
| Ingest.CreditedTiers | internal/kvevents/listener.go:518-531 | exactly the listed media, in any case, map to gpu, cpu and disk |
| Ingest.MediumIgnoresCase | internal/kvevents/listener.go:518-531 | media that differ in case name the same tier, and a tier name maps to itself |
| Ingest.TiersMean | internal/kvevents/listener.go:518-531 | the same in characters: which media, up to the case of letters, are gpu, cpu and disk; any other tier is its medium in lower case |
| Ingest.UnhashableStoresAreIgnored | internal/kvevents/listener.go:424-436 | a store with extra keys, a LoRA id, a LoRA name, nested tokens or one of the four recurrent kinds in any case changes nothing and is not counted as skipped |
| Ingest.HashableStoresAreIndexed | internal/kvevents/listener.go:437-473 | any other store of a full block, of the event's size if positive and else the profile's, makes the engine hold it under the hash of parent key (or seed) and first block |
| Ingest.SkippedExactlyWhenUnresolved | internal/kvevents/listener.go:438-471 | and is counted as skipped, changing nothing, iff a hash to copy or the parent is not bridged or there is no full block |
| Ingest.RemovalsAreApplied | internal/kvevents/listener.go:475-484 | removals and clears are never skipped |
| Ingest.UnsupportedEventsAreInert | internal/kvevents/listener.go:424-436 | stores of unsupported kinds or with feature keys leave the index as if never sent |
| Ingest.BatchExtendsRun | internal/kvevents/listener.go:421-486 | ingesting a batch is delivering its events in order |
| Ingest.IngestedIndexIsExact | internal/kvevents/listener.go:482-483 | ingest clears whole engines only, so the index it builds has exact engine sets |
| Ingest.StreamsAreIsolated | internal/kvevents/listener.go:408-491 | a one-to-one engine's part of the index is a function of its own events, parents resolved through its own bridge |
| Ingest.EventInterleavingsAgree | internal/kvevents/listener.go:408-491 | interleavings of the same one-to-one event streams build the same index |
| Ingest.NoPoisonedKeys | internal/kvevents/listener.go:448-473 | for arbitrary streams every resident or bridged key is the hash fold from the seed over reported chunks |
| Listener.StreamListener.TrackSeq | internal/kvevents/listener.go:380-392 | late and duplicate numbers are ignored; a jump counts one gap |
| Listener.StreamListener.NextReplaySeq | internal/kvevents/listener.go:364-371 | 0 on a fresh listener, else the int64 successor of LastSeq |
| Listener.StreamListener.IngestOne | internal/kvevents/listener.go:421-486 | one event changes the index as classified, and is reported as skipped exactly when an engine key, the parent or a full block is missing; an unhashable store does neither |
| Listener.StreamListener.KeysFor | internal/kvevents/listener.go:498-508 | keys continue from the parent's bridged key, or from the seed without a parent; none if the parent is unknown |
| Listener.StreamListener.IngestBatch | internal/kvevents/listener.go:408-491 | the batch's events in order, the skipped and total counters, and no change without a profile |
| Listener.StreamListener.HandleFrame | internal/kvevents/listener.go:285-306 | undecodable frames only count an error; decoded ones are tracked and ingested, duplicates too; the gap count never drops |
| Listener.StreamListener.ReplayBuffered | internal/kvevents/listener.go:308-362 | replies before the end marker are handled in order like live frames |
| Listener.LastSeqIsMaximum | internal/kvevents/listener.go:380-392 | LastSeq is the greatest number passed to ingest, and is one of them |
| Listener.GapsNeverDecrease | internal/kvevents/listener.go:386-388 | the gap count grows along the stream |
| Listener.ZeroGapsIffNothingMissed | internal/kvevents/listener.go:285-392 | GapsTotal is zero iff at every moment all numbers from the first tracked one to LastSeq had been decoded and ingested |
| Listener.ZeroGapsOnTheWire | internal/kvevents/listener.go:285-306 | the same iff in wire numbers, for streams below 2^63: zero gaps iff at every moment each number from the first decoded one up to any decoded one had arrived in a decoded frame |
| Listener.HugeNumbersHideGaps | internal/kvevents/listener.go:304 | for every m from 2^63 on, the stream 0, m has no gap although numbers are missing |
| Listener.GapsTellExactlyBelowHalf | internal/kvevents/listener.go:285-392 | zero gaps and nothing missed are the same for all streams with numbers below a bound iff that bound is at most 2^63 |
| Listener.NothingMissedExactly | internal/kvevents/listener.go:285-392 | for a stream of the engine's batches without repeated numbers, ingest got exactly the batches up to LastSeq in order iff no gap was counted and the first number was 0 |
| Listener.LateListenerCountsNoGap | internal/kvevents/listener.go:380-392 | hearing the batches only from number k on, or none, counts no gap |
| Listener.FramesExtendRun | internal/kvevents/listener.go:285-362 | live and replayed frames extend the run of delivered events |
| CacheRefinement.ReportIsOp | internal/kvevents/listener.go:424-483 | an event about blocks in play is applied as its operation when its parent or blocks are known, and skipped otherwise |
| CacheRefinement.ReportKeepsRefinement | internal/kvevents/listener.go:408-491 | every event keeps the index in step with the blocks it knows of |
| CacheRefinement.IndexRefinesCache | internal/kvevents/listener.go:408-491 | after any interleaving of all engines' events, a query for any prompt answers for a faithfully reporting engine with exactly the longest prefix in its reference cache and its gpu, cpu, disk and per-rank counts |
| CacheRefinement.StreamAnswers | internal/kvevents/listener.go:408-491 | the same for a stream that may repeat or lose reports: the answer is that of the blocks known after its reports |
| CacheRefinement.QueryMatchesCache | internal/residency/index.go:310-390 | an index that holds an engine's blocks answers with that engine's longest cached prefix |
| Replay.ReplayIsHarmlessExactly | internal/kvevents/listener.go:304-361 | delivering a suffix again leaves holders, bridges and sets unchanged iff taking its reports on top of the final reference cache, skipping unresolved ones, leads back to that cache |
| Replay.ReplayIsHarmless | internal/kvevents/listener.go:304-361 | for one rank and tier, resolvable reports and a final cache that holds the parent of every block, delivering any suffix again leaves holders, bridges and sets unchanged |
| Replay.GentleReplayIsHarmless | internal/kvevents/listener.go:304-361 | in particular when every eviction spares the parents of held blocks |
| Replay.UnskippedReplayIsHarmless | internal/kvevents/listener.go:304-361 | on any ranks and tiers, a second delivery none of whose reports is skipped changes nothing |
| Replay.OverlapsKeepAnswersRight | internal/kvevents/listener.go:304-361 | across any number of harmless repeats with live reports after each, every query still answers with the engine's real cache |
| Replay.GentleOverlapsAreHarmless | internal/kvevents/listener.go:304-361 | on one rank and tier with gentle evictions every repeat is harmless, wherever in the stream it happens and begins |
| Replay.ReplayedFramesAreHarmless | internal/kvevents/listener.go:308-362 | the same, stated on the frames the listener replays |
| Replay.ReplayNeverInvents | internal/kvevents/listener.go:304-361 | on any ranks, tiers and evictions a repeated suffix adds no hold anywhere and leaves other engines alone |
| Replay.TwoTiersCanLoseABlock | internal/kvevents/listener.go:438-444 | a faithful event stream over two tiers whose last three events, delivered again, make the index lose a block the engine holds, for every hash |
| Replay.UngentleEvictionCanLoseABlock | internal/kvevents/listener.go:461-466 | the same on one tier when a parent is evicted before its child, for every hash that tells the two apart |
| RuleOrder.SortRules | internal/admission/admission.go:151-157 | some permutation of the rules along which no priority rises and, among equal ones, no id comes earlier at the first difference |
| RuleOrder.SortingIsUnique | internal/admission/admission.go:151-157 | with distinct non-empty ids there is only one |
| Admission.BestHit | internal/admission/admission.go:99-145 | an instance of greatest credit with its counts and ratio, the override, or no hit |
| Admission.HitCreditIsWellDefined | internal/admission/admission.go:99-145 | for index answers the credit is floor(max (gpu + 2 cpu + disk) / 4), at most the longest match, with a ratio in [0, 1] |
| Admission.HitReportsItsInstance | internal/admission/admission.go:112-136 | the hit carries the counts of the instance it names, and zeros when there is none |
| Admission.RatioIsShareOfInput | internal/admission/admission.go:138-144 | ratio times input length is the smaller of credited tokens and input length; 0 without input |
| Admission.CreditIgnoresIterationOrder | internal/admission/admission.go:112-136 | credit and ratio are the same for every order of visiting the instances |
| Admission.MatchesRule | internal/admission/admission.go:248-256 | true iff every condition's field is known and matches |
| Admission.Evaluate | internal/admission/admission.go:148-176 | the verdict of some best hit on a sorting of the rules |
| Admission.RuleOrderIsIrrelevant | internal/admission/admission.go:148-176 | permuting rules with distinct ids changes no part of the result |
| Admission.WinnerIsGreatest | internal/admission/admission.go:159-175 | the deciding rule is the one selected rule that has a higher priority than every other, or an equal one and an earlier id; without one the request is accepted |
| Admission.SelectedMeans | internal/admission/admission.go:165-170 | a rule applies iff it is not disabled, has an id and all its conditions are true of the observed values |
| Admission.FieldsAreObserved | internal/admission/admission.go:258-288 | each of the eleven fields is read from its own part of request or hit, and there are no others |
| Admission.DecidingRuleIsNamed | internal/admission/admission.go:171-176 | the result names the deciding rule, its display name and priority, and the hit |
| Admission.PlainRuleDecides | internal/admission/admission.go:178-196 | accept and the empty kind accept, reject rejects, an unknown kind rejects as such, with the rule's positive status or 429 |
| Admission.CacheRuleDecides | internal/admission/admission.go:184-193 | a certain request under require_cache_hit is a low hit iff the ratio is below the minimum (0 by default); a low hit is rejected unless the rule accepts it, outright or as a fallback; any other is accepted |
| Admission.UncertaintyMeans | internal/admission/admission.go:199-213 | a request is uncertain iff it lacks tokens, features, candidates or freshness, for the first of these reasons |
| Admission.UncertainCacheRuleDecides | internal/admission/admission.go:184-228 | an uncertain request under require_cache_hit is rejected iff the rule says so for uncertainty, and otherwise accepted, as a fallback unless the rule says accept |
| Admission.EvaluatedIdsMean | internal/admission/admission.go:159-169 | an id is listed as evaluated iff it is not empty and its rule was looked at |
| Admission.EvaluatedUpToWinner | internal/admission/admission.go:159-175 | evaluated ids are those of the sorted rules up to and including the winner |
| Admission.VerdictReport | internal/admission/admission.go:178-246 | acceptances are 200, rejections carry the rule's positive status or 429 and are no fallback, fallbacks name the uncertainty or a low hit |
| Admission.UncertainRequests | internal/admission/admission.go:178-228 | an uncertain request is rejected iff the deciding action is reject, unknown or on_uncertain reject, and never for a low hit |
| Admission.BetterHitNeverRejects | internal/admission/admission.go:178-196 | on rules that do not look at the hit, a higher ratio is decided by the same rule and never turns accept into reject |
| Admission.TokenOnlyPolicies | internal/gateway/local_tokenizer.go:743-777 | keeps exactly the rules without a cache requirement whose conditions are all token-only, in order |
| Admission.TokenOnlyFieldsExactly | internal/gateway/local_tokenizer.go:762-777 | the fields let through are the empty one and exactly those known ones whose value never depends on hit, override or freshness |
| Admission.TokenOnlyIgnoresCache | internal/gateway/local_tokenizer.go:743-777 | on such rules the verdict is the same for any query, override and freshness |
| Route.EvaluateLocal | internal/gateway/local_tokenizer.go:495-519 | the verdict is that of the kept rules, in some sorted order, for every query, hit override and freshness the gateway could have claimed; tokens, model, tenant and cluster as passed |
| Route.StreamFreshForEngines | internal/httpapi/service.go:213-236 | fresh iff some candidate engine has a listener that is connected and has counted no gap |
| Route.Manager.IndexFor | internal/residency/manager.go:32-46 | one index per namespace, created empty on first use and kept |
| Route.Manager.ResolveIngest | internal/httpapi/service.go:155-163 | the namespace's index with the profile's seed and raw block size, or nothing without a profile |
| Route.NamespaceFixesScheme | internal/httpapi/service.go:155-163 | over one model's upserts without a stale one, equal namespaces mean equal seed and block size for ingest |
| Route.OneSchemePerNamespace | internal/httpapi/service.go:155-163 | over any run of the store without removals or stale upserts of the models in question, profiles of any two models with slash-free hash profiles that share a namespace are of one model and resolve to one scheme |
| Route.QueryHashesLikeIngestExactly | internal/httpapi/route.go:185-205 | query and ingest of a profile produce the same keys for every prompt iff its block size is positive |
| Route.UnsizedStreamsIndexNothing | internal/kvevents/listener.go:408-491 | without a positive profile block size, a run whose events carry none themselves leaves the index empty |
| Route.PipelineSeesTheCache | internal/httpapi/route.go:185-207 | over an index that ingested the history, the rules see for a faithfully reporting engine exactly the longest prefix in its real cache |
| Route.LowHitMeansLittleCached | internal/httpapi/route.go:140-219 | a low-hit rejection means that the credit of what a faithfully reporting engine really has cached is below the threshold |
| Route.TrustedAnswersAreRight | internal/httpapi/service.go:213-236 | a trusted listener that heard its engine's stream from number 0 on makes the index answer for that engine with its real cache |
| Route.TrustedLowHitMeansLittleCached | internal/httpapi/route.go:140-219 | and then a low-hit rejection bounds the credit of that real cache |
| Route.LateListenerIsTrusted | internal/httpapi/service.go:213-236 | a connected listener that heard only later batches, or none, is trusted, and nothing of the earlier ones reaches the index through it |
| Route.IdleListenerHidesTheCache | internal/httpapi/service.go:213-236 | a connected listener that heard nothing is trusted, and its engine has no hit for any prompt |
| Route.BuildInput | internal/httpapi/route.go:140-216 | the admission input for every combination of profile, endpoint and tokens |
| Route.InputIsReadOff | internal/httpapi/route.go:140-216 | every part of that input in terms of request, profile, engines and tokens: defaults, endpoint choice, block size 16, seed and keys |
| Route.Evaluate | internal/httpapi/route.go:140-219 | the pipeline's verdict; a low-hit rejection implies a connected candidate listener without gaps, and when every candidate's listener is disconnected or gapped a deciding require_cache_hit rule accepts as a fallback by default |
| Route.LowHitOnlyOnTrustedSignal | internal/httpapi/route.go:140-219 | a low-hit rejection implies a profile, tokens, supported features, candidates, freshness, and every instance's credited share below the threshold |
| Route.TrustedStreamMissedNothing | internal/httpapi/service.go:213-236 | a trusted listener has missed no message since its first |
| Route.HitsGrow | internal/residency/index.go:316-390 | with more holds every instance stays listed with tier and per-rank counts at least as large |
| Route.MoreResidencyNeverRejects | internal/httpapi/route.go:190-219 | a store or tier copy before a request never turns its acceptance into a rejection, for rules that do not look at the hit |
| ModelProfiles.Itoa | internal/config/model.go:229-250 | the 20-byte buffer suffices and holds the decimal text; for the least int64 it is a lone sign |
| ModelProfiles.ItoaInjective | internal/config/model.go:229-250 | different integers have different texts, none with a slash |
| ModelProfiles.ItoaReadsBack | internal/config/model.go:229-250 | read as a decimal, the text is the number; a minus sign and its absolute value for negative ones |
| ModelProfiles.NamespaceInjective | internal/config/model.go:85-87 | for one model the namespace determines version, hash profile and block size |
| ModelProfiles.NamespaceInjectiveAcrossModels | internal/config/model.go:85-87 | between hash profiles without slashes, namespaces are equal iff model, version, hash profile and block size are |
| ModelProfiles.NamespaceSharedExactlyWhenAmbiguous | internal/config/model.go:85-87 | with 64-bit versions, a profile of another model can have the namespace of p iff a version mark occurs in p's model id and a slash, or in a slash and p's hash profile |
| ModelProfiles.NamespaceCollidesAcrossModels | internal/config/model.go:85-87 | the smallest pair of models that share a namespace |
| ModelProfiles.VersionsDecreaseOnlyByStaleUpserts | internal/config/store.go:231-252 | stored versions never decrease iff no upsert names a lower version without a hash-affecting change |
| ModelProfiles.NamespacePinsHashSemantics | internal/config/store.go:203-252 | over a run without such upserts, equal namespaces mean equal hash-affecting fields |
| ModelProfiles.StaleUpsertReusesNamespace | internal/config/store.go:236-245 | such an upsert can put a new seed under an old namespace |
| ModelProfiles.HashFieldsExactly | internal/config/store.go:205-216 | the hash-affecting fields are all but model id, aliases and version |
| ModelProfiles.UpsertedMeans | internal/config/store.go:218-252 | the stored profile field by field: one tokenizer mode's fields, the bumped, given, kept or first version, and the flag |
| ConfigStore.SnapshotRoundTrip | internal/config/store.go:377-446 | saving in any map order and loading gives back everything but policies with an empty id |
| ConfigStore.Store.UpsertModelProfile | internal/config/store.go:231-252 | the stored profile, its version and the flagged audit entry, saved |
| ConfigStore.Store.UpsertPolicy | internal/config/store.go:296-303 | the policy under its id, one more version and audit entry, saved |
| ConfigStore.Store.PatchPolicy | internal/config/store.go:331-342 | every field but the rule id is replaced, or nothing happens and it fails |
| ConfigStore.Store.RemovePolicy | internal/config/store.go:305-315 | iff the id is stored it succeeds, and the policy and nothing else goes; audited and saved |
| ConfigStore.Store.RemoveModelProfile | internal/config/store.go:265-275 | iff the id is stored it succeeds, and the profile and nothing else goes; audited and saved |
| ConfigStore.Store.UpsertCluster | internal/config/store.go:84-91 | the cluster under its id, one more version and audit entry, saved |
| ConfigStore.Store.UpsertEngine | internal/config/store.go:120-127 | the engine under its id, one more version and audit entry, saved |
| ConfigStore.Store.RemoveEngine | internal/config/store.go:129-139 | iff the id is stored it succeeds, and the engine and nothing else goes; audited and saved |
| ConfigStore.Store.Persist | internal/config/store.go:377-401 | the saved snapshot lists every map, in some order |
| ConfigStore.Store.Load | internal/config/store.go:405-446 | the state a saved snapshot stands for, or none |
| ConfigStore.StepDoes | internal/config/store.go:75-342 | every mutation on the maps themselves: what it puts or takes under its id, that no other entry or map changes, whether it succeeds, and its one audit entry |
| ConfigStore.RunsPinHashSemantics | internal/config/store.go:203-275 | over any run of mutations without a removal of the stored model or a stale upsert of it, two stored profiles of it with equal namespaces agree on every hash-affecting field |
| ConfigStore.StaysPinnedExactlyWhenSteady | internal/config/store.go:203-275 | that pinning lasts, however the run goes on without such mutations, iff the run has none of them |
| ConfigStore.StoredIsHistory | internal/config/store.go:231-275 | without removals the stored profile is what the model's own upserts alone make of it |
| ConfigStore.RemovalReusesNamespace | internal/config/store.go:236-275 | removing and re-adding a profile can reuse a namespace for another seed |
| VirtualConfigs.VirtualStoreFromSnapshot | internal/gateway/store.go:871-881 | a fresh store in the state the snapshot stands for |
| VirtualConfigs.MemoryStore.Upsert | internal/gateway/store.go:640-653 | succeeds iff it has an id, a cluster and a known kind, with an absolute address for a backend; for a virtual connection its cluster is put into that configuration only |
| VirtualConfigs.MemoryStore.UpsertVirtualModelProfile | internal/gateway/store.go:733-746 | one load, one upsert, one save of that configuration only |
| VirtualConfigs.MemoryStore.RemoveVirtualModelProfile | internal/gateway/store.go:748-764 | one load, one removal, saved only if it succeeds |
| VirtualConfigs.MemoryStore.UpsertVirtualPolicy | internal/gateway/store.go:766-779 | one load, one upsert, one save of that configuration only |
| VirtualConfigs.MemoryStore.PatchVirtualPolicy | internal/gateway/store.go:781-803 | one load, one patch, saved only if it succeeds |
| VirtualConfigs.MemoryStore.RemoveVirtualPolicy | internal/gateway/store.go:805-821 | one load, one removal, saved only if it succeeds; the policy is gone from what the snapshot loads to, and nothing else |
| VirtualConfigs.RequestDoes | internal/gateway/store.go:733-821 | every request does its mutation, map by map, on what the snapshots before and after load to; an empty-id policy is logged but not kept |
| VirtualConfigs.UpsertVirtualCluster | internal/gateway/store.go:883-902 | the connection's cluster is put into the configuration's snapshot, and nothing else |
| VirtualConfigs.NormalizedMeans | internal/gateway/store.go:846-855 | backend by default; a virtual connection keeps no address or token |
| VirtualConfigs.ClusterMeans | internal/gateway/store.go:883-897 | the cluster's fields, named after the connection or the cluster, never in maintenance |
| VirtualConfigs.VirtualRefinesLongLived | internal/gateway/store.go:733-902 | after any run of requests the loaded snapshot equals one long-lived store, in entities, version and audit, iff no policy with an empty rule id was stored |
| VirtualConfigs.RequestsAnswerAlike | internal/gateway/store.go:733-821 | and then every further mutation succeeds or fails alike |
| VirtualConfigs.AuditNumbersMutations | internal/config/store.go:75-80 | successful mutations are audited as versions 1, 2, 3, ... up to the current version |

## Left out

- Sockets, goroutines, queues, backoff, timeouts, HTTP, authentication and storage back ends: a stream is a sequence of frames, a persister holds one snapshot.
- Decoding of frames and events (`internal/kvevents/decode.go`) and protocol normalisation: the model starts from decoded events and token lists. A three-frame message whose sequence frame is shorter than 8 bytes makes the source panic and is not modelled.
- FNV and `SeedNamespace`: arbitrary functions.
- Time: holder timestamps, `LastSeenNano` (which nothing reads), last-event and audit timestamps, `UpdatedAt`.
- Locks: each method is atomic.
- Aliasing: the source's snapshots share entity pointers and the audit slice with the store that wrote them; the model's snapshots are values.
- Event records, ring buffers, subscribers and statistics.
- String, number and boolean coercion when a condition is compared: a parameter of the admission model. Binary floating point: credits are multiples of a quarter and ratios are exact reals.
- Letter case outside ASCII in media and group kinds.
- Wrap-around of the version, gap and token counters: unbounded integers. Sequence numbers, hashes and `itoa` have their machine width.
- Profile lookup by alias, `EnginesForModel`, bootstrap, hot patches of clusters and engines, connection seeding and listing, tokenizer assets: the looked-up profile and the candidate engines are inputs of the pipeline.
- The route response beyond the admission result, the suggested target and the decision log.
- ResidencyIndex.Index.Query: labels ranks by number where the source uses their decimal text, which is injective (`ModelProfiles.ItoaInjective`).
- Replay.ReplayIsHarmless: an engine whose key set is empty and one that has none count as equal, because only the number of engines in the statistics tells them apart.
