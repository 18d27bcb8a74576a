/**
 * The order in which admission looks at its rules: priority descending, then rule
 * id ascending (internal/admission/admission.go:151-157). With distinct ids this
 * order is total, so every sorting of the rules is the same list.
 */
module RuleOrder {
  import opened Basics

  datatype Condition = Condition(field: string, op: string, operand: string)

  datatype Action = Action(kind: string, minHitRatio: Option<real>, onLowHit: string, onUncertain: string, rejectStatus: int)

  datatype Policy = Policy(ruleId: string, name: string, priority: int, conditions: seq<Condition>,
                           action: Action, enabled: Option<bool>)

  /** Byte-wise string order. */
  predicate StrLess(a: string, b: string) {
    b != [] && (a == [] || a[0] < b[0] || (a[0] == b[0] && StrLess(a[1..], b[1..])))
  }

  predicate Before(a: Policy, b: Policy) {
    if a.priority != b.priority then a.priority > b.priority else StrLess(a.ruleId, b.ruleId)
  }

  lemma {:induction false} StrLessTransitive(a: string, b: string, c: string)
    requires StrLess(a, b) && StrLess(b, c)
    ensures StrLess(a, c)
    decreases |a|
  {
    if a != [] && a[0] == b[0] == c[0] {
      StrLessTransitive(a[1..], b[1..], c[1..]);
    }
  }

  lemma {:induction false} StrLessTotal(a: string, b: string)
    ensures a == b || StrLess(a, b) || StrLess(b, a)
    ensures !(StrLess(a, b) && StrLess(b, a))
    decreases |a|
  {
    if a != [] && b != [] && a[0] == b[0] {
      StrLessTotal(a[1..], b[1..]);
      assert a == [a[0]] + a[1..] && b == [b[0]] + b[1..];
    }
  }

  /** The same order read off the first difference: `a` ends there, or has the smaller character. */
  ghost predicate Earlier(a: string, b: string) {
    exists i :: 0 <= i <= |a| && i < |b| && a[..i] == b[..i] && (i == |a| || a[i] < b[i])
  }

  lemma {:induction false} StrLessIsEarlier(a: string, b: string)
    ensures StrLess(a, b) <==> Earlier(a, b)
    decreases |a|
  {
    if a != [] && b != [] && a[0] == b[0] {
      StrLessIsEarlier(a[1..], b[1..]);
      if StrLess(a, b) {
        var i :| 0 <= i <= |a[1..]| && i < |b[1..]| && a[1..][..i] == b[1..][..i] &&
          (i == |a[1..]| || a[1..][i] < b[1..][i]);
        LongerByOne(a, b, i);
      }
      if i :| 0 <= i <= |a| && i < |b| && a[..i] == b[..i] && (i == |a| || a[i] < b[i]) {
        assert i > 0;
        assert a[1..][..i - 1] == a[..i][1..] && b[1..][..i - 1] == b[..i][1..];
        assert Earlier(a[1..], b[1..]);
      }
    } else if StrLess(a, b) {
      assert a[..0] == b[..0];
    } else if i :| 0 <= i <= |a| && i < |b| && a[..i] == b[..i] && (i == |a| || a[i] < b[i]) {
      if i > 0 {
        SameStart(a, b, i);
      }
    }
  }

  lemma LongerByOne(a: string, b: string, i: nat)
    requires a != [] && b != [] && a[0] == b[0] && i <= |a[1..]| && i < |b[1..]| && a[1..][..i] == b[1..][..i]
    ensures a[..i + 1] == b[..i + 1]
  {
    assert a[..i + 1] == [a[0]] + a[1..][..i] && b[..i + 1] == [b[0]] + b[1..][..i];
  }

  lemma SameStart(a: string, b: string, i: nat)
    requires 0 < i <= |a| && i <= |b| && a[..i] == b[..i]
    ensures a[0] == b[0]
  {
    assert a[..i][0] == a[0] && b[..i][0] == b[0];
  }

  lemma BeforeMeans(a: Policy, b: Policy)
    ensures Before(a, b) <==> a.priority > b.priority || (a.priority == b.priority && Earlier(a.ruleId, b.ruleId))
  {
    StrLessIsEarlier(a.ruleId, b.ruleId);
  }

  /** What a sorting is: no priority rises along it, and no id among equal priorities comes earlier. */
  lemma SortingDescends(rules: seq<Policy>, order: seq<Policy>)
    requires Sorting(rules, order)
    ensures forall i, j :: 0 <= i < j < |order| ==> order[i].priority >= order[j].priority
    ensures forall i, j :: 0 <= i < j < |order| && order[i].priority == order[j].priority ==>
              !Earlier(order[j].ruleId, order[i].ruleId)
  {
    forall i, j | 0 <= i < j < |order|
      ensures order[i].priority >= order[j].priority
      ensures order[i].priority == order[j].priority ==> !Earlier(order[j].ruleId, order[i].ruleId)
    {
      BeforeMeans(order[j], order[i]);
    }
  }

  lemma BeforeTransitive(a: Policy, b: Policy, c: Policy)
    requires !Before(b, a) && !Before(c, b)
    ensures !Before(c, a)
  {
    StrLessTotal(a.ruleId, b.ruleId);
    StrLessTotal(b.ruleId, c.ruleId);
    StrLessTotal(a.ruleId, c.ruleId);
    if StrLess(a.ruleId, b.ruleId) && StrLess(b.ruleId, c.ruleId) {
      StrLessTransitive(a.ruleId, b.ruleId, c.ruleId);
    }
  }

  predicate Sorted(rules: seq<Policy>) {
    forall i, j :: 0 <= i < j < |rules| ==> !Before(rules[j], rules[i])
  }

  ghost predicate Sorting(rules: seq<Policy>, order: seq<Policy>) {
    multiset(order) == multiset(rules) && Sorted(order)
  }

  ghost predicate DistinctIds(rules: multiset<Policy>) {
    && (forall r :: r in rules ==> rules[r] == 1 && r.ruleId != "")
    && (forall a, b :: a in rules && b in rules && a.ruleId == b.ruleId ==> a == b)
  }

  /** sort.Slice: any algorithm may order equal elements differently; this one inserts. */
  method SortRules(rules: seq<Policy>) returns (order: seq<Policy>)
    ensures Sorting(rules, order)
    ensures forall i, j :: 0 <= i < j < |order| ==> order[i].priority >= order[j].priority
    ensures forall i, j :: 0 <= i < j < |order| && order[i].priority == order[j].priority ==>
              !Earlier(order[j].ruleId, order[i].ruleId)
  {
    order := [];
    for n := 0 to |rules|
      invariant multiset(order) == multiset(rules[..n])
      invariant Sorted(order)
    {
      order := InsertRule(order, rules[n]);
      assert rules[..n + 1] == rules[..n] + [rules[n]];
    }
    assert rules[..|rules|] == rules;
    SortingDescends(rules, order);
  }

  method InsertRule(order: seq<Policy>, r: Policy) returns (more: seq<Policy>)
    requires Sorted(order)
    ensures Sorted(more) && multiset(more) == multiset(order) + multiset{r}
  {
    var k := |order|;
    while k > 0 && Before(r, order[k - 1])
      invariant 0 <= k <= |order|
      invariant forall j :: k <= j < |order| ==> Before(r, order[j])
    {
      k := k - 1;
    }
    InsertKeepsSorted(order, k, r);
    assert order == order[..k] + order[k..];
    more := order[..k] + [r] + order[k..];
  }

  lemma InsertKeepsSorted(order: seq<Policy>, k: nat, r: Policy)
    requires k <= |order| && Sorted(order)
    requires k > 0 ==> !Before(r, order[k - 1])
    requires forall j :: k <= j < |order| ==> Before(r, order[j])
    ensures Sorted(order[..k] + [r] + order[k..])
  {
    var more := order[..k] + [r] + order[k..];
    forall i, j | 0 <= i < j < |more| ensures !Before(more[j], more[i]) {
      if j == k {
        if i < k - 1 {
          BeforeTransitive(order[i], order[k - 1], r);
        }
      } else if i == k {
        StrLessTotal(r.ruleId, order[j - 1].ruleId);
      }
    }
  }

  // ------------------------------------------------------- uniqueness

  lemma OccursTwice(s: seq<Policy>, i: nat, j: nat)
    requires i < j < |s| && s[i] == s[j]
    ensures multiset(s)[s[i]] >= 2
  {
    assert s == s[..i] + [s[i]] + s[i + 1..j] + [s[j]] + s[j + 1..];
    assert multiset(s) == multiset(s[..i]) + multiset([s[i]]) + multiset(s[i + 1..j]) + multiset([s[j]]) + multiset(s[j + 1..]);
  }

  /** With distinct ids, a sorted list is strictly sorted. */
  lemma StrictlySorted(order: seq<Policy>, i: nat, j: nat)
    requires Sorted(order) && DistinctIds(multiset(order)) && i < j < |order|
    ensures Before(order[i], order[j]) && !Before(order[j], order[i])
  {
    assert order[i] in multiset(order) && order[j] in multiset(order);
    if order[i] == order[j] {
      OccursTwice(order, i, j);
    }
    assert order[i].ruleId != order[j].ruleId;
    StrLessTotal(order[i].ruleId, order[j].ruleId);
  }

  /** Any two sortings of the same rules are the same list. */
  lemma {:induction false} SortingIsUnique(a: seq<Policy>, b: seq<Policy>)
    requires Sorted(a) && Sorted(b) && multiset(a) == multiset(b) && DistinctIds(multiset(a))
    ensures a == b
    decreases |a|
  {
    assert |multiset(a)| == |a| && |multiset(b)| == |b|;
    if a != [] {
      SameHead(a, b);
      WithoutHead(a);
      WithoutHead(b);
      SortingIsUnique(a[1..], b[1..]);
    }
  }

  lemma WithoutHead(s: seq<Policy>)
    requires s != []
    ensures s == [s[0]] + s[1..] && multiset(s[1..]) == multiset(s) - multiset{s[0]}
  {
    assert s == [s[0]] + s[1..];
  }

  lemma SameHead(a: seq<Policy>, b: seq<Policy>)
    requires Sorted(a) && Sorted(b) && multiset(a) == multiset(b) && DistinctIds(multiset(a))
    requires a != [] && b != []
    ensures a[0] == b[0]
  {
    assert a[0] in multiset(b) && b[0] in multiset(a);
    var j :| 0 <= j < |b| && b[j] == a[0];
    var i :| 0 <= i < |a| && a[i] == b[0];
    if i > 0 && j > 0 {
      StrictlySorted(a, 0, i);
    }
  }
}
