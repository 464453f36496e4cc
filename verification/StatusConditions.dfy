/** Status conditions: copying, sorting, updating and comparing them
    (pkg/helpers/apimachinery_status_conditions.go, LimitadorStatus.Equals and meta.SetStatusCondition). */
module StatusConditions {
  import opened Wrappers
  import opened Text
  import opened LimitadorTypes

  // ---------- sorting by type ----------

  function Insert(c: Condition, s: seq<Condition>): seq<Condition> {
    if s == [] || !Less(s[0].conditionType, c.conditionType) then [c] + s else [s[0]] + Insert(c, s[1..])
  }

  /** The result of sort.Slice; with unique types no other sorted order exists. */
  function SortByType(s: seq<Condition>): seq<Condition> {
    if s == [] then [] else Insert(s[0], SortByType(s[1..]))
  }

  ghost predicate UniqueTypes(s: seq<Condition>) {
    forall i, j | 0 <= i < j < |s| :: s[i].conditionType != s[j].conditionType
  }

  ghost predicate StrictlySorted(s: seq<Condition>) {
    forall i, j | 0 <= i < j < |s| :: Less(s[i].conditionType, s[j].conditionType)
  }

  lemma {:induction false} InsertKeepsElements(c: Condition, s: seq<Condition>)
    ensures multiset(Insert(c, s)) == multiset(s) + multiset{c}
  {
    if s != [] && Less(s[0].conditionType, c.conditionType) {
      InsertKeepsElements(c, s[1..]);
      assert s == [s[0]] + s[1..];
    }
  }

  lemma {:induction false} SortKeepsElements(s: seq<Condition>)
    ensures multiset(SortByType(s)) == multiset(s)
  {
    if s != [] {
      SortKeepsElements(s[1..]);
      InsertKeepsElements(s[0], SortByType(s[1..]));
      assert s == [s[0]] + s[1..];
    }
  }

  lemma InsertMembers(c: Condition, s: seq<Condition>)
    ensures forall x :: x in Insert(c, s) <==> x == c || x in s
  {
    InsertKeepsElements(c, s);
    forall x
      ensures x in Insert(c, s) <==> x == c || x in s
    {
      assert x in Insert(c, s) <==> x in multiset(Insert(c, s));
      assert x in s <==> x in multiset(s);
    }
  }

  lemma {:induction false} InsertSorts(c: Condition, s: seq<Condition>)
    requires StrictlySorted(s) && forall x | x in s :: x.conditionType != c.conditionType
    ensures StrictlySorted(Insert(c, s))
  {
    if s == [] {
    } else if Less(s[0].conditionType, c.conditionType) {
      InsertSorts(c, s[1..]);
      var t := Insert(c, s[1..]);
      InsertMembers(c, s[1..]);
      forall j | 0 <= j < |t|
        ensures Less(s[0].conditionType, t[j].conditionType)
      {
        assert t[j] in t;
        if t[j] != c {
          var k :| 0 <= k < |s[1..]| && s[1..][k] == t[j];
          assert s[k + 1] == t[j];
        }
      }
    } else {
      assert s[0] in s;
      LessTotal(c.conditionType, s[0].conditionType);
      forall j | 0 < j < |s|
        ensures Less(c.conditionType, s[j].conditionType)
      {
        LessTransitive(c.conditionType, s[0].conditionType, s[j].conditionType);
      }
    }
  }

  lemma {:induction false} SortSorts(s: seq<Condition>)
    requires UniqueTypes(s)
    ensures StrictlySorted(SortByType(s))
  {
    if s != [] {
      var t := s[1..];
      SortSorts(t);
      SortKeepsElements(t);
      forall x | x in SortByType(t)
        ensures x.conditionType != s[0].conditionType
      {
        assert x in multiset(SortByType(t));
        assert x in t;
        var k :| 0 <= k < |t| && t[k] == x;
        assert s[k + 1] == x;
      }
      InsertSorts(s[0], SortByType(t));
    }
  }

  lemma SortedHeadIsLeast(s: seq<Condition>, x: Condition)
    requires StrictlySorted(s) && x in s
    ensures x == s[0] || Less(s[0].conditionType, x.conditionType)
  {
  }

  lemma {:induction false} SortedFormUnique(s: seq<Condition>, t: seq<Condition>)
    requires StrictlySorted(s) && StrictlySorted(t) && multiset(s) == multiset(t)
    ensures s == t
  {
    if s == [] {
      assert |multiset(t)| == 0;
    } else {
      assert |multiset(t)| == |s|;
      SortedHeadsAgree(s, t);
      TailSorted(s);
      TailSorted(t);
      SortedFormUnique(s[1..], t[1..]);
    }
  }

  lemma SortedHeadsAgree(s: seq<Condition>, t: seq<Condition>)
    requires StrictlySorted(s) && StrictlySorted(t) && multiset(s) == multiset(t) && s != [] && t != []
    ensures s[0] == t[0]
  {
    hide StrictlySorted;
    assert s[0] in multiset(t) && t[0] in multiset(s);
    SortedHeadIsLeast(t, s[0]);
    SortedHeadIsLeast(s, t[0]);
    if s[0] != t[0] {
      LessTransitive(s[0].conditionType, t[0].conditionType, s[0].conditionType);
      LessIrreflexive(s[0].conditionType);
    }
  }

  lemma TailSorted(s: seq<Condition>)
    requires StrictlySorted(s) && s != []
    ensures StrictlySorted(s[1..]) && multiset(s[1..]) == multiset(s) - multiset{s[0]}
  {
    assert s == [s[0]] + s[1..];
  }

  // ---------- comparing statuses ----------

  /** The JSON of a condition list is modelled by the sorted list itself: serialisation is injective. */
  predicate Equals(s: LimitadorStatus, other: LimitadorStatus) {
    && s.observedGeneration == other.observedGeneration
    && SortByType(s.conditions) == SortByType(other.conditions)
    && s.service == other.service
  }

  /** Comparison by sorted serialisation is comparison up to the order of the conditions. */
  lemma EqualsIsCanonical(s: LimitadorStatus, other: LimitadorStatus)
    requires UniqueTypes(s.conditions) && UniqueTypes(other.conditions)
    ensures Equals(s, other) <==>
      && s.observedGeneration == other.observedGeneration
      && s.service == other.service
      && multiset(s.conditions) == multiset(other.conditions)
  {
    SortKeepsElements(s.conditions);
    SortKeepsElements(other.conditions);
    if multiset(s.conditions) == multiset(other.conditions) {
      SortSorts(s.conditions);
      SortSorts(other.conditions);
      SortedFormUnique(SortByType(s.conditions), SortByType(other.conditions));
    }
  }

  // ---------- meta.SetStatusCondition ----------

  /** Index of the first condition of type `t`, or the length when there is none. */
  function IndexOf(cs: seq<Condition>, t: string): (i: nat)
    ensures i <= |cs|
    ensures i < |cs| ==> cs[i].conditionType == t
    ensures forall j | 0 <= j < i :: cs[j].conditionType != t
  {
    if cs == [] || cs[0].conditionType == t then 0 else 1 + IndexOf(cs[1..], t)
  }

  function Stamped(c: Condition, now: nat): nat {
    if c.lastTransitionTime == 0 then now else c.lastTransitionTime
  }

  function Overlay(existing: Condition, c: Condition, now: nat): Condition {
    c.(lastTransitionTime :=
      if existing.status != c.status then Stamped(c, now) else existing.lastTransitionTime)
  }

  function SetCondition(cs: seq<Condition>, c: Condition, now: nat): seq<Condition> {
    var i := IndexOf(cs, c.conditionType);
    if i == |cs| then cs + [c.(lastTransitionTime := Stamped(c, now))]
    else cs[i := Overlay(cs[i], c, now)]
  }

  /** Setting a condition keeps types unique, changes no condition of another type and drops none. */
  lemma SetConditionKeepsOthers(cs: seq<Condition>, c: Condition, now: nat)
    requires UniqueTypes(cs)
    ensures UniqueTypes(SetCondition(cs, c, now))
    ensures forall x: Condition | x.conditionType != c.conditionType :: x in SetCondition(cs, c, now) <==> x in cs
    ensures exists x :: (x in SetCondition(cs, c, now) && x.conditionType == c.conditionType
                         && x.status == c.status && x.reason == c.reason && x.message == c.message
                         && x.observedGeneration == c.observedGeneration)
  {
    var i := IndexOf(cs, c.conditionType);
    var r := SetCondition(cs, c, now);
    assert r[i] in r;
    forall x: Condition | x.conditionType != c.conditionType
      ensures x in r <==> x in cs
    {
      if x in cs {
        var k :| 0 <= k < |cs| && cs[k] == x;
        assert r[k] == x;
      }
      if x in r {
        var k :| 0 <= k < |r| && r[k] == x;
        assert k != i;
        assert cs[k] == x;
      }
    }
  }

  // ---------- the Go functions, on slices ----------

  /** A LimitadorStatus behind a pointer; the slice of conditions is an array of its own. */
  class StatusObject {
    var observedGeneration: int
    var conditions: array<Condition>
    var service: Option<LimitadorService>

    ghost function Value(): LimitadorStatus
      reads this, conditions
    {
      LimitadorStatus(observedGeneration, conditions[..], service)
    }

    constructor (observedGeneration: int, conditions: array<Condition>, service: Option<LimitadorService>)
      ensures this.conditions == conditions
      ensures this.observedGeneration == observedGeneration && this.service == service
    {
      this.observedGeneration, this.conditions, this.service := observedGeneration, conditions, service;
    }
  }

  /** The slice that decoding a list of conditions fills. */
  method SliceOf(conditions: seq<Condition>) returns (r: array<Condition>)
    ensures fresh(r) && r[..] == conditions
  {
    r := new Condition[|conditions|](i requires 0 <= i < |conditions| => conditions[i]);
  }

  method DeepCopyConditions(conditions: array<Condition>) returns (copied: array<Condition>)
    ensures fresh(copied) && copied[..] == conditions[..]
  {
    copied := new Condition[conditions.Length](_ => Condition("", Unknown, 0, 0, "", ""));
    for idx := 0 to conditions.Length
      invariant copied[..idx] == conditions[..idx]
      invariant fresh(copied)
    {
      copied[idx] := conditions[idx];
    }
  }

  method SortSlice(a: array<Condition>)
    modifies a
    ensures a[..] == SortByType(old(a[..]))
  {
    var sorted := SortByType(a[..]);
    SortKeepsElements(a[..]);
    assert |multiset(sorted)| == |sorted| && |multiset(a[..])| == |a[..]|;
    for i := 0 to a.Length
      invariant a[..i] == sorted[..i]
    {
      a[i] := sorted[i];
    }
  }

  /** Sorts a copy: the caller's slice stays as it is (nothing is in the modifies clause). */
  method ConditionMarshal(conditions: array<Condition>) returns (json: seq<Condition>)
    ensures json == SortByType(conditions[..])
  {
    var condCopy := DeepCopyConditions(conditions);
    SortSlice(condCopy);
    json := condCopy[..];
  }

  method StatusEquals(s: StatusObject, other: StatusObject) returns (equal: bool)
    ensures equal == Equals(s.Value(), other.Value())
  {
    if s.observedGeneration != other.observedGeneration {
      return false;
    }
    var current := ConditionMarshal(s.conditions);
    var theirs := ConditionMarshal(other.conditions);
    if current != theirs {
      return false;
    }
    if s.service != other.service {
      return false;
    }
    return true;
  }

  /** In place when the type is there; otherwise the slice grows into a new array. */
  method SetStatusCondition(status: StatusObject, c: Condition, now: nat)
    modifies status`conditions, status.conditions
    ensures status.conditions[..] == SetCondition(old(status.conditions[..]), c, now)
    ensures status.conditions == old(status.conditions) || fresh(status.conditions)
  {
    var cs := status.conditions;
    var i := 0;
    while i < cs.Length && cs[i].conditionType != c.conditionType
      invariant 0 <= i <= cs.Length
      invariant forall j | 0 <= j < i :: cs[j].conditionType != c.conditionType
    {
      i := i + 1;
    }
    assert i == IndexOf(cs[..], c.conditionType);
    if i == cs.Length {
      status.conditions := SliceOf(cs[..] + [c.(lastTransitionTime := Stamped(c, now))]);
      return;
    }
    ghost var before := cs[..];
    if cs[i].status != c.status {
      cs[i] := cs[i].(status := c.status, lastTransitionTime := Stamped(c, now));
    }
    if cs[i].reason != c.reason {
      cs[i] := cs[i].(reason := c.reason);
    }
    if cs[i].message != c.message {
      cs[i] := cs[i].(message := c.message);
    }
    if cs[i].observedGeneration != c.observedGeneration {
      cs[i] := cs[i].(observedGeneration := c.observedGeneration);
    }
    assert cs[i] == Overlay(before[i], c, now);
    assert cs[..] == before[i := Overlay(before[i], c, now)];
  }
}
