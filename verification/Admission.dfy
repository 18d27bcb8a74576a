/**
 * Rule-based admission (internal/admission/admission.go): the tier-weighted best hit,
 * and the ordered rule list in which the first enabled matching rule decides.
 *
 * How one condition compares with an observed value is a parameter `m`; token
 * weights and ratios are exact reals.
 */
module Admission {
  import opened Basics
  import opened IndexState
  import opened Hits
  import opened RuleOrder

  datatype Decision = Accept | Reject

  datatype Reason =
    | NoMatchingRule | RuleAccepted | RuleRejected | CacheHitRequirement | CacheHitTooLow
    | FallbackStale | FallbackUnavailable | FallbackHashMismatch | NoCandidates | UnknownAction

  datatype HitInfo = HitInfo(instanceId: string, inputTokens: int, bestHitTokens: int, hitRatio: real,
                             gpuTokens: int, cpuTokens: int, diskTokens: int, effectiveCachedTokens: int)

  datatype Input = Input(clusterId: string, modelId: string, tenantId: string, inputTokens: int,
                         rules: seq<Policy>, query: Option<map<string, InstanceHit>>, hitOverride: Option<HitInfo>,
                         isFresh: bool, tokenized: bool, hashSupported: bool, hasCandidates: bool)

  datatype Result = Result(decision: Decision, reason: Reason, httpStatus: int, fallback: bool, hit: HitInfo,
                           minRequiredHitRatio: real, matchedRuleId: string, matchedRuleName: string,
                           matchedRulePriority: int, evaluatedRuleIds: seq<string>)

  /** An observed value, as conditionValue returns it. */
  datatype Observed = Text(text: string) | Number(number: int) | Ratio(ratio: real) | Flag(flag: bool)

  type Matcher = (Observed, Condition) -> bool

  // ------------------------------------------------------------------ best hit

  function NoHit(inputTokens: int): HitInfo {
    HitInfo("", inputTokens, 0, 0.0, 0, 0, 0, 0)
  }

  function NonNeg(n: int): int {
    if n < 0 then 0 else n
  }

  /** Device tokens count fully, host-only tokens three quarters, disk-only tokens one quarter. */
  function Credit(h: InstanceHit): real {
    h.gpu as real * 1.0 + NonNeg(h.cpu - h.gpu) as real * 0.75 + NonNeg(h.disk - h.cpu) as real * 0.25
  }

  /** Conversion of a float to int drops the fraction. */
  function Truncate(x: real): int {
    if x >= 0.0 then x.Floor else -((-x).Floor)
  }

  function RatioOf(effective: int, inputTokens: int): real {
    if inputTokens > 0 then
      (if effective > inputTokens then inputTokens else effective) as real / inputTokens as real
    else 0.0
  }

  function HitFrom(id: string, h: InstanceHit, inputTokens: int): HitInfo {
    HitInfo(id, inputTokens, h.longestMatched, RatioOf(Truncate(Credit(h)), inputTokens),
            h.gpu, h.cpu, h.disk, Truncate(Credit(h)))
  }

  /** `id` carries the greatest credit; ties leave several such instances. */
  ghost predicate IsBest(instances: map<string, InstanceHit>, id: string) {
    && id in instances && Credit(instances[id]) > -1.0
    && forall other :: other in instances ==> Credit(instances[other]) <= Credit(instances[id])
  }

  /** What bestHit may return, whatever the map's iteration order. */
  ghost predicate IsBestHit(input: Input, hi: HitInfo) {
    match input.hitOverride
    case Some(o) => hi == (if o.inputTokens == 0 then o.(inputTokens := input.inputTokens) else o)
    case None =>
      match input.query
      case None => hi == NoHit(input.inputTokens)
      case Some(instances) =>
        || (exists id :: IsBest(instances, id) && hi == HitFrom(id, instances[id], input.inputTokens))
        || (hi == NoHit(input.inputTokens) && forall id :: id in instances ==> Credit(instances[id]) <= -1.0)
  }

  /** The weighting inside bestHit's loop: cumulative counts made disjoint, then weighted. */
  method Weigh(inst: InstanceHit) returns (eff: real)
    ensures eff == Credit(inst)
  {
    var gpu := inst.gpu;
    var cpuOnly := inst.cpu - inst.gpu;
    var diskOnly := inst.disk - inst.cpu;
    if cpuOnly < 0 {
      cpuOnly := 0;
    }
    if diskOnly < 0 {
      diskOnly := 0;
    }
    eff := gpu as real * 1.0 + cpuOnly as real * 0.75 + diskOnly as real * 0.25;
  }

  /** The ratio at the end of bestHit: the credit's share of the input, at most 1. */
  method Share(effective: int, inputTokens: int) returns (ratio: real)
    ensures ratio == RatioOf(effective, inputTokens)
  {
    ratio := 0.0;
    if inputTokens > 0 {
      var eff := effective;
      if eff > inputTokens {
        eff := inputTokens;
      }
      ratio := eff as real / inputTokens as real;
    }
  }

  lemma NoShare(inputTokens: int)
    ensures RatioOf(0, inputTokens) == 0.0
  {
  }

  method BestHit(input: Input) returns (hi: HitInfo)
    ensures IsBestHit(input, hi)
  {
    if input.hitOverride.Some? {
      hi := input.hitOverride.value;
      if hi.inputTokens == 0 {
        hi := hi.(inputTokens := input.inputTokens);
      }
      return;
    }
    hi := NoHit(input.inputTokens);
    if input.query.None? {
      return;
    }
    var instances := input.query.value;
    var bestEff := -1.0;
    var rest := instances.Keys;
    ghost var best := "";
    while rest != {}
      invariant rest <= instances.Keys && bestEff >= -1.0
      invariant forall id :: id in instances && id !in rest ==> Credit(instances[id]) <= bestEff
      invariant bestEff == -1.0 ==> hi == NoHit(input.inputTokens)
      invariant bestEff > -1.0 ==> best in instances && bestEff == Credit(instances[best]) &&
                                   hi == HitFrom(best, instances[best], input.inputTokens).(hitRatio := 0.0)
      decreases |rest|
    {
      var id :| id in rest;
      rest := rest - {id};
      var inst := instances[id];
      var eff := Weigh(inst);
      if eff > bestEff {
        bestEff := eff;
        best := id;
        hi := hi.(instanceId := id, bestHitTokens := inst.longestMatched, gpuTokens := inst.gpu,
                  cpuTokens := inst.cpu, diskTokens := inst.disk, effectiveCachedTokens := Truncate(eff));
      }
    }
    var ratio := Share(hi.effectiveCachedTokens, input.inputTokens);
    hi := hi.(hitRatio := ratio);
    NoShare(input.inputTokens);
    assert bestEff > -1.0 ==> IsBest(instances, best);
  }

  // -------------------------------------------------------------- the verdict

  predicate IsEnabled(p: Policy) {
    p.enabled.None? || p.enabled.value
  }

  function DisplayName(p: Policy): string {
    if p.name != "" then p.name else p.ruleId
  }

  function KindOrDefault(a: Action): string {
    if a.kind == "" then "accept" else a.kind
  }

  function RejectStatusOrDefault(a: Action): int {
    if a.rejectStatus > 0 then a.rejectStatus else 429
  }

  function MinHitRatioOrDefault(a: Action): real {
    if a.minHitRatio.Some? then a.minHitRatio.value else 0.0
  }

  function OnLowHitOrDefault(a: Action): string {
    if a.onLowHit != "" then a.onLowHit else "reject"
  }

  function OnUncertainOrDefault(a: Action): string {
    if a.onUncertain != "" then a.onUncertain else "fallback_accept"
  }

  function ConditionValue(input: Input, hit: HitInfo, field: string): Option<Observed> {
    if field == "cluster_id" then Some(Text(input.clusterId))
    else if field == "model_id" then Some(Text(input.modelId))
    else if field == "tenant_id" then Some(Text(input.tenantId))
    else if field == "input_tokens" then Some(Number(input.inputTokens))
    else if field == "hit_ratio" then Some(Ratio(hit.hitRatio))
    else if field == "best_hit_tokens" then Some(Number(hit.bestHitTokens))
    else if field == "effective_cached_tokens" then Some(Number(hit.effectiveCachedTokens))
    else if field == "kv_event_state" then Some(Text(if input.isFresh then "available" else "stale"))
    else if field == "tokenized" then Some(Flag(input.tokenized))
    else if field == "hash_supported" then Some(Flag(input.hashSupported))
    else if field == "has_candidates" then Some(Flag(input.hasCandidates))
    else None
  }

  predicate Holds(m: Matcher, input: Input, hit: HitInfo, c: Condition) {
    var actual := ConditionValue(input, hit, c.field);
    actual.Some? && m(actual.value, c)
  }

  predicate Matches(m: Matcher, input: Input, hit: HitInfo, rule: Policy) {
    forall c :: c in rule.conditions ==> Holds(m, input, hit, c)
  }

  /** The rule is in force and applies to this request. */
  predicate Selected(m: Matcher, input: Input, hit: HitInfo, rule: Policy) {
    IsEnabled(rule) && rule.ruleId != "" && Matches(m, input, hit, rule)
  }

  function Uncertainty(input: Input): Option<Reason> {
    if !input.tokenized then Some(FallbackUnavailable)
    else if !input.hashSupported then Some(FallbackHashMismatch)
    else if !input.hasCandidates then Some(NoCandidates)
    else if !input.isFresh then Some(FallbackStale)
    else None
  }

  function Accepted(res: Result, reason: Reason, fallback: bool): Result {
    res.(decision := Accept, reason := reason, httpStatus := 200, fallback := fallback)
  }

  function Rejected(res: Result, reason: Reason, status: int): Result {
    res.(decision := Reject, reason := reason, httpStatus := if status <= 0 then 429 else status)
  }

  function ApplyOutcome(res: Result, outcome: string, reason: Reason, status: int, uncertainty: bool): Result {
    if outcome == "accept" then Accepted(res, reason, false)
    else if outcome == "fallback_accept" then Accepted(res, reason, true)
    else if outcome == "reject" then Rejected(res, reason, status)
    else if uncertainty then Accepted(res, reason, true)
    else Rejected(res, reason, status)
  }

  function ApplyAction(input: Input, res: Result, a: Action): Result {
    var kind, status := KindOrDefault(a), RejectStatusOrDefault(a);
    if kind == "accept" then Accepted(res, RuleAccepted, false)
    else if kind == "reject" then Rejected(res, RuleRejected, status)
    else if kind == "require_cache_hit" then
      var r := res.(minRequiredHitRatio := MinHitRatioOrDefault(a));
      match Uncertainty(input)
      case Some(reason) => ApplyOutcome(r, OnUncertainOrDefault(a), reason, status, true)
      case None =>
        if r.hit.hitRatio < r.minRequiredHitRatio
        then ApplyOutcome(r, OnLowHitOrDefault(a), CacheHitTooLow, status, false)
        else Accepted(r, CacheHitRequirement, false)
    else Rejected(res, UnknownAction, status)
  }

  /** The index of the first selected rule, or the length of the list. */
  function FirstSelected(m: Matcher, input: Input, hit: HitInfo, order: seq<Policy>): (n: nat)
    ensures n <= |order|
    ensures forall i :: 0 <= i < n ==> !Selected(m, input, hit, order[i])
    ensures n < |order| ==> Selected(m, input, hit, order[n])
  {
    if order == [] then 0
    else
      var n := FirstSelected(m, input, hit, Init(order));
      if n < |order| - 1 || Selected(m, input, hit, Last(order)) then n else n + 1
  }

  function NonEmptyIds(rules: seq<Policy>): seq<string> {
    if rules == [] then []
    else NonEmptyIds(Init(rules)) + if Last(rules).ruleId != "" then [Last(rules).ruleId] else []
  }

  /** The result so far when rule `n` of the order has matched. */
  function Matched(hit: HitInfo, order: seq<Policy>, n: nat): Result
    requires n < |order|
  {
    Result(Reject, NoMatchingRule, 0, false, hit, 0.0, order[n].ruleId, DisplayName(order[n]), order[n].priority,
           NonEmptyIds(order[..n + 1]))
  }

  /** The verdict for a hit, once the rules are in order. */
  function Verdict(m: Matcher, input: Input, hit: HitInfo, order: seq<Policy>): Result {
    var n := FirstSelected(m, input, hit, order);
    if n == |order| then
      Accepted(Result(Reject, NoMatchingRule, 0, false, hit, 0.0, "", "", 0, NonEmptyIds(order)), NoMatchingRule, false)
    else ApplyAction(input, Matched(hit, order, n), order[n].action)
  }

  /** matchesRule: the loop of the source over the conditions. */
  method MatchesRule(m: Matcher, input: Input, hit: HitInfo, rule: Policy) returns (ok: bool)
    ensures ok <==> Matches(m, input, hit, rule)
  {
    for i := 0 to |rule.conditions|
      invariant forall j :: 0 <= j < i ==> Holds(m, input, hit, rule.conditions[j])
    {
      if !Holds(m, input, hit, rule.conditions[i]) {
        return false;
      }
    }
    return true;
  }

  /**
   * Evaluate. The hit is some best hit and the rules are looked at in some sorted
   * order; RuleOrderIsIrrelevant and HitCreditIsWellDefined say how far neither matters.
   */
  method Evaluate(m: Matcher, input: Input) returns (res: Result, ghost order: seq<Policy>)
    ensures Sorting(input.rules, order)
    ensures IsBestHit(input, res.hit)
    ensures res == Verdict(m, input, res.hit, order)
  {
    var hit := BestHit(input);
    var rules := SortRules(input.rules);
    order := rules;
    res := Result(Reject, NoMatchingRule, 0, false, hit, 0.0, "", "", 0, []);
    for i := 0 to |rules|
      invariant forall j :: 0 <= j < i ==> !Selected(m, input, hit, rules[j])
      invariant res == Result(Reject, NoMatchingRule, 0, false, hit, 0.0, "", "", 0, NonEmptyIds(rules[..i]))
    {
      InitPrefix(rules, i);
      var rule := rules[i];
      if rule.ruleId != "" {
        res := res.(evaluatedRuleIds := res.evaluatedRuleIds + [rule.ruleId]);
      }
      if !IsEnabled(rule) || rule.ruleId == "" {
        continue;
      }
      var matching := MatchesRule(m, input, hit, rule);
      if !matching {
        continue;
      }
      res := res.(matchedRuleId := rule.ruleId, matchedRuleName := DisplayName(rule),
                  matchedRulePriority := rule.priority);
      res := ApplyAction(input, res, rule.action);
      ActionKeepsHit(input, hit, res, rule.action);
      return;
    }
    assert rules[..|rules|] == rules;
    res := Accepted(res, NoMatchingRule, false);
  }

  lemma ActionKeepsHit(input: Input, hit: HitInfo, res: Result, a: Action)
    ensures forall r: Result :: ApplyAction(input, r, a).hit == r.hit
  {
  }

  /**
   * What a response carries: an acceptance is a 200; a rejection is never a fallback and
   * has the deciding rule's own positive status, or 429; a fallback means the streams,
   * the tokens, the features or the candidates were in doubt, or a rule asks for it on a low hit.
   */
  lemma VerdictReport(m: Matcher, input: Input, hit: HitInfo, order: seq<Policy>)
    ensures var v, n := Verdict(m, input, hit, order), FirstSelected(m, input, hit, order);
            && (v.decision == Accept ==> v.httpStatus == 200)
            && (v.decision == Reject ==>
                  n < |order| && !v.fallback && v.httpStatus > 0 &&
                  v.httpStatus == (if order[n].action.rejectStatus > 0 then order[n].action.rejectStatus else 429))
            && (v.fallback ==> Uncertainty(input) == Some(v.reason) || v.reason == CacheHitTooLow)
  {
    var n := FirstSelected(m, input, hit, order);
    if n < |order| {
      ActionReport(input, Matched(hit, order, n), order[n].action);
    }
  }

  lemma ActionReport(input: Input, res: Result, a: Action)
    requires !res.fallback
    ensures var v := ApplyAction(input, res, a);
            && (v.decision == Accept ==> v.httpStatus == 200)
            && (v.decision == Reject ==> !v.fallback && v.httpStatus == RejectStatusOrDefault(a))
            && (v.fallback ==> Uncertainty(input) == Some(v.reason) || v.reason == CacheHitTooLow)
  {
  }

  // ------------------------------------------------- the verdict, case by case

  /** Which rules apply: enabled, named, and every condition true of the observed value of its field. */
  lemma SelectedMeans(m: Matcher, input: Input, hit: HitInfo, rule: Policy)
    ensures Selected(m, input, hit, rule) <==>
            && rule.enabled != Some(false) && rule.ruleId != ""
            && forall c :: c in rule.conditions ==>
                 ConditionValue(input, hit, c.field).Some? && m(ConditionValue(input, hit, c.field).value, c)
  {
  }

  /** Every field is read from its own part of the request or the hit; there are no others. */
  lemma FieldsAreObserved(input: Input, hit: HitInfo, field: string)
    ensures ConditionValue(input, hit, "cluster_id") == Some(Text(input.clusterId))
    ensures ConditionValue(input, hit, "model_id") == Some(Text(input.modelId))
    ensures ConditionValue(input, hit, "tenant_id") == Some(Text(input.tenantId))
    ensures ConditionValue(input, hit, "input_tokens") == Some(Number(input.inputTokens))
    ensures ConditionValue(input, hit, "hit_ratio") == Some(Ratio(hit.hitRatio))
    ensures ConditionValue(input, hit, "best_hit_tokens") == Some(Number(hit.bestHitTokens))
    ensures ConditionValue(input, hit, "effective_cached_tokens") == Some(Number(hit.effectiveCachedTokens))
    ensures ConditionValue(input, hit, "kv_event_state") == Some(Text(if input.isFresh then "available" else "stale"))
    ensures ConditionValue(input, hit, "tokenized") == Some(Flag(input.tokenized))
    ensures ConditionValue(input, hit, "hash_supported") == Some(Flag(input.hashSupported))
    ensures ConditionValue(input, hit, "has_candidates") == Some(Flag(input.hasCandidates))
    ensures ConditionValue(input, hit, field).Some? <==>
            field in ["cluster_id", "model_id", "tenant_id", "input_tokens", "hit_ratio", "best_hit_tokens",
                      "effective_cached_tokens", "kv_event_state", "tokenized", "hash_supported", "has_candidates"]
  {
    FieldNamesDiffer();
  }

  lemma FieldNamesDiffer()
    ensures "cluster_id" != "model_id" && "hit_ratio" != "hash_supported" && "tenant_id" != "tokenized"
    ensures "hash_supported" != "has_candidates"
  {
    assert "cluster_id"[0] != "model_id"[0] && "hit_ratio"[1] != "hash_supported"[1];
    assert "tenant_id"[1] != "tokenized"[1] && "hash_supported"[3] != "has_candidates"[3];
  }

  /** The deciding rule, if any, is named in the result with its display name, priority and the hit. */
  lemma DecidingRuleIsNamed(m: Matcher, input: Input, hit: HitInfo, order: seq<Policy>)
    ensures var v, n := Verdict(m, input, hit, order), FirstSelected(m, input, hit, order);
            && v.hit == hit
            && (n < |order| ==>
                  && v.matchedRuleId == order[n].ruleId && v.matchedRulePriority == order[n].priority
                  && v.matchedRuleName == (if order[n].name == "" then order[n].ruleId else order[n].name))
            && (n == |order| ==>
                  v.decision == Accept && v.reason == NoMatchingRule && v.httpStatus == 200 && !v.fallback)
  {
    ActionKeepsRule(input);
  }

  /** What a rejection by `a` is answered with. */
  ghost predicate RejectedWith(v: Result, a: Action) {
    v.decision == Reject && !v.fallback && v.httpStatus == if a.rejectStatus > 0 then a.rejectStatus else 429
  }

  ghost predicate AcceptedWith(v: Result, reason: Reason, fallback: bool) {
    v.decision == Accept && v.reason == reason && v.httpStatus == 200 && v.fallback == fallback
  }

  /** Rules that do not look at the cache decide alone: accept, the default, reject, and reject when unknown. */
  lemma PlainRuleDecides(m: Matcher, input: Input, hit: HitInfo, order: seq<Policy>)
    requires FirstSelected(m, input, hit, order) < |order|
    ensures var v, a := Verdict(m, input, hit, order), order[FirstSelected(m, input, hit, order)].action;
            && (a.kind in ["", "accept"] ==> AcceptedWith(v, RuleAccepted, false))
            && (a.kind == "reject" ==> RejectedWith(v, a) && v.reason == RuleRejected)
            && (a.kind !in ["", "accept", "reject", "require_cache_hit"] ==> RejectedWith(v, a) && v.reason == UnknownAction)
  {
  }

  /**
   * A certain request under require_cache_hit is answered by comparing the hit ratio with the
   * rule's minimum, 0 if it names none. Below it the request is rejected, unless the rule
   * says otherwise for a low hit; from it on it is accepted.
   */
  lemma CacheRuleDecides(m: Matcher, input: Input, hit: HitInfo, order: seq<Policy>)
    requires input.tokenized && input.hashSupported && input.hasCandidates && input.isFresh
    requires FirstSelected(m, input, hit, order) < |order|
    requires order[FirstSelected(m, input, hit, order)].action.kind == "require_cache_hit"
    ensures var v, a := Verdict(m, input, hit, order), order[FirstSelected(m, input, hit, order)].action;
            var least := if a.minHitRatio.Some? then a.minHitRatio.value else 0.0;
            && v.minRequiredHitRatio == least
            && (v.reason == CacheHitTooLow <==> hit.hitRatio < least)
            && (hit.hitRatio >= least ==> AcceptedWith(v, CacheHitRequirement, false))
            && (hit.hitRatio < least ==>
                  if a.onLowHit == "accept" then AcceptedWith(v, CacheHitTooLow, false)
                  else if a.onLowHit == "fallback_accept" then AcceptedWith(v, CacheHitTooLow, true)
                  else RejectedWith(v, a))
  {
  }

  /** Why a request is uncertain: the first of these that applies. */
  lemma UncertaintyMeans(input: Input)
    ensures Uncertainty(input).None? <==> input.tokenized && input.hashSupported && input.hasCandidates && input.isFresh
    ensures !input.tokenized ==> Uncertainty(input) == Some(FallbackUnavailable)
    ensures input.tokenized && !input.hashSupported ==> Uncertainty(input) == Some(FallbackHashMismatch)
    ensures input.tokenized && input.hashSupported && !input.hasCandidates ==> Uncertainty(input) == Some(NoCandidates)
    ensures input.tokenized && input.hashSupported && input.hasCandidates && !input.isFresh ==>
              Uncertainty(input) == Some(FallbackStale)
  {
  }

  /**
   * An uncertain request under require_cache_hit is never held against the hit: it is rejected
   * only if the rule says so for uncertainty, accepted outright if it says that, and in every
   * other case, the default included, accepted as a fallback.
   */
  lemma UncertainCacheRuleDecides(m: Matcher, input: Input, hit: HitInfo, order: seq<Policy>)
    requires !(input.tokenized && input.hashSupported && input.hasCandidates && input.isFresh)
    requires FirstSelected(m, input, hit, order) < |order|
    requires order[FirstSelected(m, input, hit, order)].action.kind == "require_cache_hit"
    ensures var v, a := Verdict(m, input, hit, order), order[FirstSelected(m, input, hit, order)].action;
            && Uncertainty(input) == Some(v.reason)
            && (if a.onUncertain == "reject" then RejectedWith(v, a)
                else AcceptedWith(v, v.reason, a.onUncertain != "accept"))
  {
  }

  // --------------------------------------------------- rule order is irrelevant

  /**
   * With distinct non-empty ids and a fixed hit, permuting the rules changes nothing:
   * any sorting of any permutation gives the same result.
   */
  lemma RuleOrderIsIrrelevant(m: Matcher, input: Input, hit: HitInfo, rules: seq<Policy>, rules': seq<Policy>,
                              order: seq<Policy>, order': seq<Policy>)
    requires multiset(rules) == multiset(rules') && DistinctIds(multiset(rules))
    requires Sorting(rules, order) && Sorting(rules', order')
    ensures Verdict(m, input, hit, order) == Verdict(m, input, hit, order')
  {
    SortingIsUnique(order, order');
  }

  /** The first selected rule of a sorting comes before every other selected rule. */
  lemma FirstBeatsOthers(m: Matcher, input: Input, hit: HitInfo, order: seq<Policy>, q: Policy)
    requires Sorted(order) && DistinctIds(multiset(order)) && q in order && Selected(m, input, hit, q)
    ensures var n := FirstSelected(m, input, hit, order);
            n < |order| && (q != order[n] ==> Before(order[n], q) && !Before(q, order[n]))
  {
    var n := FirstSelected(m, input, hit, order);
    var k :| 0 <= k < |order| && order[k] == q;
    if k != n {
      StrictlySorted(order, n, k);
    }
  }

  /**
   * The rule that decides is the unique greatest selected one under (priority
   * descending, id ascending); without one, the request is accepted.
   */
  lemma WinnerIsGreatest(m: Matcher, input: Input, hit: HitInfo, rules: seq<Policy>, order: seq<Policy>)
    requires DistinctIds(multiset(rules)) && Sorting(rules, order)
    ensures var v := Verdict(m, input, hit, order);
            && (v.matchedRuleId != "" <==> exists r :: r in rules && Selected(m, input, hit, r))
            && (forall r :: r in rules && Selected(m, input, hit, r) ==>
                  (v.matchedRuleId == r.ruleId <==>
                   forall q :: q in rules && Selected(m, input, hit, q) && q != r ==>
                     r.priority > q.priority || (r.priority == q.priority && Earlier(r.ruleId, q.ruleId))))
            && (v.matchedRuleId == "" ==> v.reason == NoMatchingRule && v.decision == Accept)
  {
    var n, v := FirstSelected(m, input, hit, order), Verdict(m, input, hit, order);
    assert forall r :: r in rules <==> r in multiset(rules);
    assert forall r :: r in order <==> r in multiset(order);
    ActionKeepsRule(input);
    if n < |order| {
      assert order[n] in rules && v.matchedRuleId == order[n].ruleId;
    }
    forall r | r in rules && Selected(m, input, hit, r)
      ensures v.matchedRuleId == r.ruleId <==>
              forall q :: q in rules && Selected(m, input, hit, q) && q != r ==>
                r.priority > q.priority || (r.priority == q.priority && Earlier(r.ruleId, q.ruleId))
    {
      FirstBeatsOthers(m, input, hit, order, r);
      forall q ensures Before(r, q) <==>
                       r.priority > q.priority || (r.priority == q.priority && Earlier(r.ruleId, q.ruleId)) {
        BeforeMeans(r, q);
      }
      forall q | q in rules && Selected(m, input, hit, q) && r == order[n] && q != r ensures Before(r, q) {
        FirstBeatsOthers(m, input, hit, order, q);
      }
    }
  }

  /** The evaluated ids are those of the sorted rules, in order, up to and including the winner. */
  lemma EvaluatedUpToWinner(m: Matcher, input: Input, hit: HitInfo, order: seq<Policy>)
    requires forall r :: r in order ==> r.ruleId != ""
    ensures var v := Verdict(m, input, hit, order);
            var ids := v.evaluatedRuleIds;
            && |ids| <= |order|
            && (forall i :: 0 <= i < |ids| ==> ids[i] == order[i].ruleId)
            && (v.matchedRuleId == "" ==> |ids| == |order|)
            && (v.matchedRuleId != "" ==> ids != [] && Last(ids) == v.matchedRuleId)
  {
    var n := FirstSelected(m, input, hit, order);
    ActionKeepsRule(input);
    AllIdsEvaluated(order);
    if n < |order| {
      AllIdsEvaluated(order[..n + 1]);
      assert order[n] in order;
    }
  }

  /** Rules without an id are never listed; the others are, as far as the list was looked at. */
  lemma EvaluatedIdsMean(m: Matcher, input: Input, hit: HitInfo, order: seq<Policy>, id: string)
    ensures var v, n := Verdict(m, input, hit, order), FirstSelected(m, input, hit, order);
            id in v.evaluatedRuleIds <==>
              id != "" && exists i :: 0 <= i < |order| && i <= n && order[i].ruleId == id
  {
    var n := FirstSelected(m, input, hit, order);
    ActionKeepsRule(input);
    if n < |order| {
      ListedIds(order[..n + 1], id);
      forall i | 0 <= i <= n ensures order[..n + 1][i] == order[i] {
      }
    } else {
      ListedIds(order, id);
    }
  }

  lemma {:induction false} ListedIds(rules: seq<Policy>, id: string)
    ensures id in NonEmptyIds(rules) <==> id != "" && exists i :: 0 <= i < |rules| && rules[i].ruleId == id
    decreases |rules|
  {
    if rules != [] {
      ListedIds(Init(rules), id);
      forall i | 0 <= i < |rules| - 1 ensures Init(rules)[i] == rules[i] {
      }
    }
  }

  lemma ActionKeepsRule(input: Input)
    ensures forall r: Result, a: Action {:trigger ApplyAction(input, r, a)} ::
              var v := ApplyAction(input, r, a);
              v.matchedRuleId == r.matchedRuleId && v.matchedRuleName == r.matchedRuleName &&
              v.matchedRulePriority == r.matchedRulePriority && v.hit == r.hit &&
              v.evaluatedRuleIds == r.evaluatedRuleIds
  {
  }

  lemma {:induction false} AllIdsEvaluated(rules: seq<Policy>)
    ensures (forall r :: r in rules ==> r.ruleId != "") ==>
              |NonEmptyIds(rules)| == |rules| &&
              forall i :: 0 <= i < |rules| ==> NonEmptyIds(rules)[i] == rules[i].ruleId
    decreases |rules|
  {
    if rules != [] {
      AllIdsEvaluated(Init(rules));
      assert forall r :: r in Init(rules) || r == Last(rules) ==> r in rules;
    }
  }

  // -------------------------------------------------- hit credit is well defined

  /** Whatever order the instances are visited in, the credit and the ratio are the same. */
  lemma CreditIgnoresIterationOrder(input: Input, a: HitInfo, b: HitInfo)
    requires IsBestHit(input, a) && IsBestHit(input, b)
    ensures a.effectiveCachedTokens == b.effectiveCachedTokens && a.hitRatio == b.hitRatio
    ensures a.inputTokens == b.inputTokens
  {
  }

  /** Credit in quarter tokens, for cumulative tier counts. */
  function Quarters(h: InstanceHit): int {
    h.gpu + 2 * h.cpu + h.disk
  }

  predicate Cumulative(h: InstanceHit) {
    0 <= h.gpu <= h.cpu <= h.disk == h.longestMatched
  }

  lemma CreditInQuarters(h: InstanceHit)
    requires Cumulative(h)
    ensures Credit(h) == Quarters(h) as real / 4.0
    ensures Truncate(Credit(h)) == Quarters(h) / 4
    ensures 0 <= Quarters(h) / 4 <= h.longestMatched
  {
    FloorOfQuarters(Quarters(h));
  }

  lemma FloorOfQuarters(n: int)
    ensures (n as real / 4.0).Floor == n / 4
  {
    var q := n / 4;
    assert n == 4 * q + n % 4;
    assert n as real / 4.0 == q as real + (n % 4) as real / 4.0;
  }

  /**
   * Hit credit is well defined. For instances answered by the index, the effective
   * cached tokens are floor(max (gpu + 2 cpu + disk) / 4) over the instances (0 when
   * there are none), they never exceed the longest matched prefix, and the ratio is
   * their share of the input, within [0, 1].
   */
  lemma HitCreditIsWellDefined(s: State, keys: seq<uint64>, blockSize: int, input: Input, hi: HitInfo)
    requires blockSize >= 0 && input.hitOverride.None?
    requires input.query == Some(QueryResult(s, keys, blockSize)) && IsBestHit(input, hi)
    ensures var q, eff := QueryResult(s, keys, blockSize), hi.effectiveCachedTokens;
            && (forall id :: id in q ==> Quarters(q[id]) / 4 <= eff)
            && (q != map[] ==> exists id :: id in q && eff == Quarters(q[id]) / 4)
            && (q == map[] ==> eff == 0)
            && (q != map[] ==> exists id :: id in q && eff <= q[id].longestMatched)
            && hi.hitRatio == RatioOf(eff, input.inputTokens)
            && 0.0 <= hi.hitRatio <= 1.0
  {
    var q := QueryResult(s, keys, blockSize);
    forall id | id in q
      ensures Cumulative(q[id]) && Credit(q[id]) == Quarters(q[id]) as real / 4.0
      ensures Truncate(Credit(q[id])) == Quarters(q[id]) / 4 <= q[id].longestMatched && 0 <= Quarters(q[id])
    {
      QueryIsLongestPrefix(s, keys, blockSize, id);
      CreditInQuarters(q[id]);
    }
    if id :| id in q {
      assert Credit(q[id]) > -1.0;
      var best :| IsBest(q, best) && hi == HitFrom(best, q[best], input.inputTokens);
      forall other | other in q ensures Quarters(q[other]) / 4 <= hi.effectiveCachedTokens {
        assert Quarters(q[other]) <= Quarters(q[best]);
      }
      RatioInUnit(hi.effectiveCachedTokens, input.inputTokens);
    } else {
      RatioInUnit(0, input.inputTokens);
    }
  }

  /** A preview's own hit is taken as it is, with the request's input length when it names none. */
  lemma OverrideIsTheHit(input: Input, o: HitInfo, hi: HitInfo)
    requires input.hitOverride == Some(o) && IsBestHit(input, hi)
    ensures hi.(inputTokens := o.inputTokens) == o
    ensures hi.inputTokens == if o.inputTokens != 0 then o.inputTokens else input.inputTokens
  {
  }

  /** And the hit reports an instance of the answer, with that instance's own counts. */
  lemma HitReportsItsInstance(s: State, keys: seq<uint64>, blockSize: int, input: Input, hi: HitInfo)
    requires blockSize >= 0 && input.hitOverride.None?
    requires input.query == Some(QueryResult(s, keys, blockSize)) && IsBestHit(input, hi)
    ensures var q := QueryResult(s, keys, blockSize);
            q != map[] ==>
              hi.instanceId in q && var h := q[hi.instanceId];
              hi.bestHitTokens == h.longestMatched && hi.gpuTokens == h.gpu && hi.cpuTokens == h.cpu &&
              hi.diskTokens == h.disk && hi.effectiveCachedTokens == Quarters(h) / 4
    ensures QueryResult(s, keys, blockSize) == map[] ==> hi == HitInfo("", input.inputTokens, 0, 0.0, 0, 0, 0, 0)
  {
    var q := QueryResult(s, keys, blockSize);
    forall id | id in q ensures Cumulative(q[id]) {
      AnswersAreCumulative(s, keys, blockSize, id);
    }
    BestInstanceIsReported(q, input, hi);
  }

  lemma AnswersAreCumulative(s: State, keys: seq<uint64>, blockSize: int, id: string)
    requires blockSize >= 0 && id in QueryResult(s, keys, blockSize)
    ensures Cumulative(QueryResult(s, keys, blockSize)[id])
  {
    QueryIsLongestPrefix(s, keys, blockSize, id);
  }

  /** The ratio is the credited tokens, at most the whole input, as a share of the input. */
  lemma RatioIsShareOfInput(s: State, keys: seq<uint64>, blockSize: int, input: Input, hi: HitInfo)
    requires blockSize >= 0 && input.hitOverride.None?
    requires input.query == Some(QueryResult(s, keys, blockSize)) && IsBestHit(input, hi)
    ensures IsShare(hi.hitRatio, hi.effectiveCachedTokens, input.inputTokens)
  {
    assert hi.hitRatio == RatioOf(hi.effectiveCachedTokens, input.inputTokens) by {
      HitCreditIsWellDefined(s, keys, blockSize, input, hi);
    }
    RatioIsShare(hi.effectiveCachedTokens, input.inputTokens);
  }

  /** `ratio` of the whole is the part, if it is the smaller; nothing of nothing. */
  predicate IsShare(ratio: real, part: int, whole: int) {
    if whole <= 0 then ratio == 0.0
    else ratio * whole as real == if part < whole then part as real else whole as real
  }

  lemma BestInstanceIsReported(q: map<string, InstanceHit>, input: Input, hi: HitInfo)
    requires input.hitOverride.None? && input.query == Some(q) && IsBestHit(input, hi)
    requires forall id :: id in q ==> Cumulative(q[id])
    ensures q != map[] ==>
              hi.instanceId in q && var h := q[hi.instanceId];
              hi.bestHitTokens == h.longestMatched && hi.gpuTokens == h.gpu && hi.cpuTokens == h.cpu &&
              hi.diskTokens == h.disk && hi.effectiveCachedTokens == Quarters(h) / 4
    ensures q == map[] ==> hi == HitInfo("", input.inputTokens, 0, 0.0, 0, 0, 0, 0)
  {
    if id :| id in q {
      CreditInQuarters(q[id]);
      assert Credit(q[id]) > -1.0;
      var best :| IsBest(q, best) && hi == HitFrom(best, q[best], input.inputTokens);
      CreditInQuarters(q[best]);
    }
  }

  lemma RatioIsShare(effective: int, inputTokens: int)
    ensures IsShare(RatioOf(effective, inputTokens), effective, inputTokens)
  {
  }

  lemma RatioInUnit(effective: int, inputTokens: int)
    requires effective >= 0
    ensures 0.0 <= RatioOf(effective, inputTokens) <= 1.0
  {
    if inputTokens > 0 {
      var n := if effective > inputTokens then inputTokens else effective;
      DivideMonotone(0.0, n as real, inputTokens as real);
      DivideMonotone(n as real, inputTokens as real, inputTokens as real);
    }
  }

  lemma DivideMonotone(a: real, b: real, c: real)
    requires a <= b && c > 0.0
    ensures a / c <= b / c
  {
  }

  // ------------------------------------------- token-only admission (gateway)

  predicate IsTokenOnlyCondition(field: string) {
    field in ["", "cluster_id", "model_id", "tenant_id", "input_tokens", "tokenized", "hash_supported", "has_candidates"]
  }

  predicate IsTokenOnly(p: Policy) {
    KindOrDefault(p.action) != "require_cache_hit" && forall c :: c in p.conditions ==> IsTokenOnlyCondition(c.field)
  }

  function TokenOnly(rules: seq<Policy>): seq<Policy> {
    if rules == [] then []
    else TokenOnly(Init(rules)) + if IsTokenOnly(Last(rules)) then [Last(rules)] else []
  }

  /** tokenOnlyPolicies */
  method TokenOnlyPolicies(rules: seq<Policy>) returns (out: seq<Policy>)
    ensures out == TokenOnly(rules)
    ensures forall p :: p in out <==> p in rules && IsTokenOnly(p)
    ensures forall p :: p in out ==> p.action.kind != "require_cache_hit"
  {
    out := [];
    for i := 0 to |rules|
      invariant out == TokenOnly(rules[..i])
      invariant forall p :: p in out <==> p in rules[..i] && IsTokenOnly(p)
    {
      InitPrefix(rules, i);
      var p := rules[i];
      assert rules[..i + 1] == rules[..i] + [p];
      if KindOrDefault(p.action) == "require_cache_hit" {
        continue;
      }
      var ok := true;
      var j := 0;
      while j < |p.conditions|
        invariant 0 <= j <= |p.conditions|
        invariant ok ==> forall k :: 0 <= k < j ==> IsTokenOnlyCondition(p.conditions[k].field)
        invariant !ok ==> exists c :: c in p.conditions && !IsTokenOnlyCondition(c.field)
      {
        if !IsTokenOnlyCondition(p.conditions[j].field) {
          ok := false;
          assert p.conditions[j] in p.conditions;
          break;
        }
        j := j + 1;
      }
      if ok {
        out := out + [p];
      }
    }
    assert rules[..|rules|] == rules;
  }

  /** The fields the filter lets through: the empty one, and those a request has whatever is cached. */
  lemma TokenOnlyFieldsExactly(field: string)
    ensures IsTokenOnlyCondition(field) <==>
            || field == ""
            || ((exists a: Input, hit :: ConditionValue(a, hit, field).Some?) &&
                forall a: Input, b: Input, hitA, hitB :: SameButCache(a, b) ==>
                  ConditionValue(a, hitA, field) == ConditionValue(b, hitB, field))
  {
    var low, high := NoHit(0), NoHit(0).(hitRatio := 1.0, bestHitTokens := 1, effectiveCachedTokens := 1);
    var stale := Input("", "", "", 0, [], None, None, false, true, true, true);
    var fresh' := stale.(isFresh := true);
    assert "stale"[0] != "available"[0];
    FieldsAreObserved(stale, low, field);
    FieldsAreObserved(fresh', high, field);
    assert SameButCache(stale, fresh');
    if IsTokenOnlyCondition(field) && field != "" {
      assert ConditionValue(stale, low, field).Some?;
      forall a: Input, b: Input, hitA, hitB | SameButCache(a, b)
        ensures ConditionValue(a, hitA, field) == ConditionValue(b, hitB, field)
      {
      }
    }
    if field != "" && !IsTokenOnlyCondition(field) && ConditionValue(stale, low, field).Some? {
      assert ConditionValue(stale, low, field) != ConditionValue(fresh', high, field);
    }
    forall a: Input, hit ensures ConditionValue(a, hit, field).Some? <==> ConditionValue(stale, low, field).Some? {
      FieldsAreObserved(a, hit, field);
    }
  }

  /** Requests that differ at most in what is known about the cache. */
  predicate SameButCache(a: Input, b: Input) {
    a.(query := b.query, hitOverride := b.hitOverride, isFresh := b.isFresh) == b
  }

  lemma TokenOnlyRule(m: Matcher, a: Input, b: Input, hitA: HitInfo, hitB: HitInfo, rule: Policy)
    requires SameButCache(a, b) && IsTokenOnly(rule)
    ensures Selected(m, a, hitA, rule) <==> Selected(m, b, hitB, rule)
  {
    forall c | c in rule.conditions ensures Holds(m, a, hitA, c) <==> Holds(m, b, hitB, c) {
      assert IsTokenOnlyCondition(c.field);
    }
  }

  lemma TokenOnlySelection(m: Matcher, a: Input, b: Input, hitA: HitInfo, hitB: HitInfo, order: seq<Policy>)
    requires SameButCache(a, b)
    requires forall p :: p in order ==> IsTokenOnly(p)
    ensures FirstSelected(m, b, hitB, order) == FirstSelected(m, a, hitA, order)
  {
    forall i | 0 <= i < |order|
      ensures Selected(m, a, hitA, order[i]) <==> Selected(m, b, hitB, order[i])
    {
      assert order[i] in order;
      TokenOnlyRule(m, a, b, hitA, hitB, order[i]);
    }
  }

  /**
   * Token-only admission ignores the cache: on rules that pass the gateway's filter the
   * verdict is the same for any query result, hit override and freshness; only the
   * echoed hit differs. So it does not matter that the gateway always claims freshness.
   */
  lemma TokenOnlyIgnoresCache(m: Matcher, a: Input, b: Input, hitA: HitInfo, hitB: HitInfo, order: seq<Policy>)
    requires SameButCache(a, b)
    requires forall p :: p in order ==> IsTokenOnly(p)
    ensures Verdict(m, a, hitA, order).(hit := hitB) == Verdict(m, b, hitB, order)
  {
    TokenOnlySelection(m, a, b, hitA, hitB, order);
    var n := FirstSelected(m, a, hitA, order);
    if n < |order| {
      assert order[n] in order;
    }
  }

  // ------------------------------------------- a better hit never hurts

  predicate IgnoresHit(p: Policy) {
    forall c :: c in p.conditions ==> c.field !in ["hit_ratio", "best_hit_tokens", "effective_cached_tokens"]
  }

  lemma RuleIgnoresHit(m: Matcher, a: Input, b: Input, hitA: HitInfo, hitB: HitInfo, rule: Policy)
    requires a.(query := b.query) == b && IgnoresHit(rule)
    ensures Selected(m, a, hitA, rule) <==> Selected(m, b, hitB, rule)
  {
    forall c | c in rule.conditions ensures Holds(m, a, hitA, c) <==> Holds(m, b, hitB, c) {
      assert c.field !in ["hit_ratio", "best_hit_tokens", "effective_cached_tokens"];
    }
  }

  lemma SelectionIgnoresHit(m: Matcher, a: Input, b: Input, hitA: HitInfo, hitB: HitInfo, order: seq<Policy>)
    requires a.(query := b.query) == b
    requires forall p :: p in order ==> IgnoresHit(p)
    ensures FirstSelected(m, b, hitB, order) == FirstSelected(m, a, hitA, order)
  {
    forall i | 0 <= i < |order|
      ensures Selected(m, a, hitA, order[i]) <==> Selected(m, b, hitB, order[i])
    {
      assert order[i] in order;
      RuleIgnoresHit(m, a, b, hitA, hitB, order[i]);
    }
  }

  lemma ActionPrefersBetterHit(a: Input, b: Input, res: Result, better: Result, action: Action)
    requires Uncertainty(a) == Uncertainty(b) && res.hit.hitRatio <= better.hit.hitRatio
    ensures ApplyAction(a, res, action).decision == Accept ==> ApplyAction(b, better, action).decision == Accept
  {
  }

  /**
   * On rules whose conditions do not look at the hit, a higher hit ratio is decided by
   * the same rule and never turns an accepted request into a rejected one.
   */
  lemma BetterHitNeverRejects(m: Matcher, a: Input, b: Input, hitA: HitInfo, hitB: HitInfo, order: seq<Policy>)
    requires a.(query := b.query) == b && hitA.hitRatio <= hitB.hitRatio
    requires forall p :: p in order ==> IgnoresHit(p)
    ensures Verdict(m, a, hitA, order).decision == Accept ==> Verdict(m, b, hitB, order).decision == Accept
    ensures Verdict(m, a, hitA, order).matchedRuleId == Verdict(m, b, hitB, order).matchedRuleId
  {
    SelectionIgnoresHit(m, a, b, hitA, hitB, order);
    ActionKeepsRule(a);
    ActionKeepsRule(b);
    var n := FirstSelected(m, a, hitA, order);
    if n < |order| {
      ActionPrefersBetterHit(a, b, Matched(hitA, order, n), Matched(hitB, order, n), order[n].action);
    }
  }

  // --------------------------------------------------------- uncertainty

  /** A rule that can turn away a request about which nothing certain is known. */
  predicate CanRejectBlindly(p: Policy) {
    var kind := KindOrDefault(p.action);
    (kind != "accept" && kind != "require_cache_hit") ||
    (kind == "require_cache_hit" && OnUncertainOrDefault(p.action) == "reject")
  }

  lemma UncertainAction(input: Input, res: Result, p: Policy)
    requires Uncertainty(input).Some?
    ensures ApplyAction(input, res, p.action).decision == Reject <==> CanRejectBlindly(p)
    ensures ApplyAction(input, res, p.action).reason != CacheHitTooLow
  {
  }

  /**
   * An uncertain request is rejected exactly when the deciding rule can reject blindly;
   * so it is always accepted when no rule's action is reject or unknown and no
   * on_uncertain outcome is reject.
   */
  lemma UncertainRequests(m: Matcher, input: Input, hit: HitInfo, order: seq<Policy>)
    requires Uncertainty(input).Some?
    ensures var n := FirstSelected(m, input, hit, order);
            Verdict(m, input, hit, order).decision == Reject <==> n < |order| && CanRejectBlindly(order[n])
    ensures (forall p :: p in order ==> !CanRejectBlindly(p)) ==> Verdict(m, input, hit, order).decision == Accept
    ensures Verdict(m, input, hit, order).reason != CacheHitTooLow
  {
    var n := FirstSelected(m, input, hit, order);
    if n < |order| {
      var rule := order[n];
      assert rule in order;
      UncertainAction(input, Matched(hit, order, n), rule);
    }
  }
}
