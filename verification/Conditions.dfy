/**
 The condition manager of pkg/apis/condition_set.go.

 `StatusConditions` is the object behind the accessor, `ConditionManager` the object whose
 methods replace its list. Every method is proved equal to a function on lists; what those
 functions guarantee is proved in the modules ConditionLists and ConditionRuns.
 */
module Conditions {
  import opened Texts

  type ConditionType = string

  datatype ConditionStatus = ConditionTrue | ConditionFalse | ConditionUnknown

  datatype Severity = SeverityError | SeverityWarning | SeverityInfo

  datatype Condition = Condition(
    ctype: ConditionType,
    status: ConditionStatus,
    severity: Severity,
    time: int,
    reason: Reason,
    message: Message)

  datatype ConditionSet = ConditionSet(happy: ConditionType, dependents: seq<ConditionType>)
  {
    predicate IsTerminal(t: ConditionType) {
      t in dependents || t == happy
    }

    function SeverityOf(t: ConditionType): Severity {
      if IsTerminal(t) then SeverityError else SeverityInfo
    }

    // What newConditionSet establishes.
    predicate Valid() {
      && happy !in dependents
      && NoDuplicates(dependents)
    }

    function Mark(t: ConditionType, status: ConditionStatus, reason: Reason, message: Message): Condition {
      Condition(t, status, SeverityOf(t), 0, reason, message)
    }
  }

  predicate NoDuplicates<T(==)>(s: seq<T>) {
    forall i, j :: 0 <= i < j < |s| ==> s[i] != s[j]
  }

  /******* List functions *******/

  function Find(s: seq<Condition>, t: ConditionType): Option<Condition> {
    if s == [] then None
    else if s[0].ctype == t then Some(s[0])
    else Find(s[1..], t)
  }

  predicate HasStatus(s: seq<Condition>, t: ConditionType, status: ConditionStatus) {
    var c := Find(s, t);
    c.Some? && c.value.status == status
  }

  function Without(s: seq<Condition>, t: ConditionType): seq<Condition> {
    if s == [] then []
    else if s[|s| - 1].ctype != t then Without(s[..|s| - 1], t) + [s[|s| - 1]]
    else Without(s[..|s| - 1], t)
  }

  // Go compares strings bytewise.
  predicate Less(a: string, b: string) {
    b != "" && (a == "" || a[0] < b[0] || (a[0] == b[0] && Less(a[1..], b[1..])))
  }

  function InsertByType(c: Condition, s: seq<Condition>): seq<Condition> {
    if s == [] || Less(c.ctype, s[0].ctype) then [c] + s
    else [s[0]] + InsertByType(c, s[1..])
  }

  function SortByType(s: seq<Condition>): seq<Condition> {
    if s == [] then [] else InsertByType(s[|s| - 1], SortByType(s[..|s| - 1]))
  }

  // Latest first; a condition goes behind those of the same time, as in the insertion sort that
  // sort.Slice runs on fewer than twelve elements.
  function InsertByTime(c: Condition, s: seq<Condition>): seq<Condition> {
    if s == [] || c.time > s[0].time then [c] + s
    else [s[0]] + InsertByTime(c, s[1..])
  }

  function SortByTime(s: seq<Condition>): seq<Condition> {
    if s == [] then [] else InsertByTime(s[|s| - 1], SortByTime(s[..|s| - 1]))
  }

  function FirstWith(s: seq<Condition>, status: ConditionStatus): Option<Condition> {
    if s == [] then None
    else if s[0].status == status then Some(s[0])
    else FirstWith(s[1..], status)
  }

  predicate Relevant(cs: ConditionSet, c: Condition) {
    c.severity == SeverityError && c.ctype != cs.happy
  }

  function RelevantOf(cs: ConditionSet, s: seq<Condition>): seq<Condition> {
    if s == [] then []
    else if Relevant(cs, s[|s| - 1]) then RelevantOf(cs, s[..|s| - 1]) + [s[|s| - 1]]
    else RelevantOf(cs, s[..|s| - 1])
  }

  /******* What the operations compute *******/

  predicate SameButTime(a: Condition, b: Condition) {
    a.(time := b.time) == b
  }

  function Set(s: seq<Condition>, cond: Condition, now: int): seq<Condition> {
    if exists i :: 0 <= i < |s| && s[i].ctype == cond.ctype && SameButTime(cond, s[i]) then s
    else SortByType(Without(s, cond.ctype) + [cond.(time := now)])
  }

  const Bare: Condition := Condition("", ConditionUnknown, SeverityError, 0, NoReason, NoMessage)

  function Unhappy(cs: ConditionSet, s: seq<Condition>): Option<Condition> {
    if |cs.dependents| == 0 then None
    else
      var sorted := SortByTime(RelevantOf(cs, s));
      if FirstWith(sorted, ConditionFalse).Some? then FirstWith(sorted, ConditionFalse)
      else if FirstWith(sorted, ConditionUnknown).Some? then FirstWith(sorted, ConditionUnknown)
      else if |cs.dependents| > |sorted| then Some(Bare)
      else None
  }

  function Recompute(cs: ConditionSet, s: seq<Condition>, t: ConditionType, now: int): seq<Condition> {
    match Unhappy(cs, s)
    case Some(c) => Set(s, cs.Mark(cs.happy, c.status, c.reason, c.message), now)
    case None => if t != cs.happy then Set(s, cs.Mark(cs.happy, ConditionTrue, NoReason, NoMessage), now) else s
  }

  function AfterMarkTrue(cs: ConditionSet, s: seq<Condition>, t: ConditionType, reason: Reason, message: Message, now: int): seq<Condition> {
    Recompute(cs, Set(s, cs.Mark(t, ConditionTrue, reason, message), now), t, now)
  }

  function AfterMarkFalse(cs: ConditionSet, s: seq<Condition>, t: ConditionType, reason: Reason, message: Message, now: int): seq<Condition> {
    var s1 := Set(s, cs.Mark(t, ConditionFalse, reason, message), now);
    if t in cs.dependents then Set(s1, cs.Mark(cs.happy, ConditionFalse, reason, message), now) else s1
  }

  predicate SomeDependentFalse(cs: ConditionSet, s: seq<Condition>) {
    exists i :: 0 <= i < |cs.dependents| && HasStatus(s, cs.dependents[i], ConditionFalse)
  }

  function AfterMarkUnknown(cs: ConditionSet, s: seq<Condition>, t: ConditionType, reason: Reason, message: Message, now: int): seq<Condition> {
    var s1 := Set(s, cs.Mark(t, ConditionUnknown, reason, message), now);
    if SomeDependentFalse(cs, s1) then
      if HasStatus(s1, cs.happy, ConditionFalse) then s1
      else AfterMarkFalse(cs, s1, cs.happy, reason, message, now)
    else if t in cs.dependents then
      Set(s1, cs.Mark(cs.happy, ConditionUnknown, reason, message), now)
    else s1
  }

  function AfterClear(cs: ConditionSet, s: seq<Condition>, t: ConditionType): seq<Condition> {
    if cs.IsTerminal(t) || Find(s, t).None? then s else SortByType(Without(s, t))
  }

  function FillIn(s: seq<Condition>, types: seq<ConditionType>, status: ConditionStatus, now: int): seq<Condition> {
    if types == [] then s
    else
      FillInOne(FillIn(s, types[..|types| - 1], status, now), types[|types| - 1], status, now)
  }

  function FillInOne(s: seq<Condition>, t: ConditionType, status: ConditionStatus, now: int): seq<Condition> {
    if Find(s, t).Some? then s else Set(s, Condition(t, status, SeverityError, 0, NoReason, NoMessage), now)
  }

  lemma FillInStep(s: seq<Condition>, types: seq<ConditionType>, i: nat, status: ConditionStatus, now: int)
    requires i < |types|
    ensures FillIn(s, types[..i + 1], status, now) == FillInOne(FillIn(s, types[..i], status, now), types[i], status, now)
  {
    assert types[..i + 1][..i] == types[..i];
  }

  function AfterInitialize(cs: ConditionSet, s: seq<Condition>, now: int): seq<Condition> {
    var s1 := if Find(s, cs.happy).Some? then s
              else Set(s, Condition(cs.happy, ConditionUnknown, SeverityError, 0, NoReason, NoMessage), now);
    FillIn(s1, cs.dependents, if HasStatus(s, cs.happy, ConditionTrue) then ConditionTrue else ConditionUnknown, now)
  }

  /******* newConditionSet *******/

  // The dependents without the happy type, each at the place of its first occurrence.
  function Dedup(happy: ConditionType, dependents: seq<ConditionType>): seq<ConditionType> {
    if dependents == [] then []
    else
      var deps, d := Dedup(happy, dependents[..|dependents| - 1]), dependents[|dependents| - 1];
      if d == happy || d in deps then deps else deps + [d]
  }

  method NewConditionSet(happy: ConditionType, dependents: seq<ConditionType>) returns (cs: ConditionSet)
    ensures cs == ConditionSet(happy, Dedup(happy, dependents))
    ensures cs.Valid()
    ensures forall t :: t in cs.dependents <==> t in dependents && t != happy
  {
    var deps: seq<ConditionType> := [];
    for k := 0 to |dependents|
      invariant deps == Dedup(happy, dependents[..k])
    {
      var d := dependents[k];
      assert dependents[..k + 1][..k] == dependents[..k];
      var seen := Contains(deps, d);
      if d == happy || seen { continue; }
      deps := deps + [d];
    }
    assert dependents[..|dependents|] == dependents;
    DedupMeaning(happy, dependents);
    cs := ConditionSet(happy, deps);
  }

  lemma {:induction false} DedupMeaning(happy: ConditionType, dependents: seq<ConditionType>)
    ensures ConditionSet(happy, Dedup(happy, dependents)).Valid()
    ensures forall t :: t in Dedup(happy, dependents) <==> t in dependents && t != happy
  {
    if dependents != [] {
      assert dependents == dependents[..|dependents| - 1] + [dependents[|dependents| - 1]];
      DedupMeaning(happy, dependents[..|dependents| - 1]);
    }
  }

  method Contains(types: seq<ConditionType>, t: ConditionType) returns (found: bool)
    ensures found <==> t in types
  {
    for i := 0 to |types|
      invariant t !in types[..i]
    {
      if types[i] == t { return true; }
    }
    return false;
  }

  /******* The manager *******/

  class StatusConditions {
    var conditions: seq<Condition>

    constructor ()
      ensures conditions == []
    {
      conditions := [];
    }
  }

  class ConditionManager {
    const cs: ConditionSet
    const accessor: StatusConditions

    constructor (cs: ConditionSet, accessor: StatusConditions)
      ensures this.cs == cs && this.accessor == accessor
    {
      this.cs := cs;
      this.accessor := accessor;
    }

    method GetCondition(t: ConditionType) returns (c: Option<Condition>)
      ensures c == Find(accessor.conditions, t)
    {
      var s := accessor.conditions;
      for i := 0 to |s|
        invariant Find(s, t) == Find(s[i..], t)
      {
        if s[i].ctype == t { return Some(s[i]); }
      }
      return None;
    }

    method IsHappy() returns (b: bool)
      ensures b <==> HasStatus(accessor.conditions, cs.happy, ConditionTrue)
    {
      var c := GetCondition(cs.happy);
      b := c.Some? && c.value.status == ConditionTrue;
    }

    method SetCondition(cond: Condition, now: int)
      modifies accessor
      ensures accessor.conditions == Set(old(accessor.conditions), cond, now)
    {
      var t := cond.ctype;
      var s := accessor.conditions;
      var conditions: seq<Condition> := [];
      for i := 0 to |s|
        invariant conditions == Without(s[..i], t)
        invariant forall k :: 0 <= k < i ==> !(s[k].ctype == t && SameButTime(cond, s[k]))
        invariant accessor.conditions == s
      {
        assert s[..i + 1][..i] == s[..i];
        if s[i].ctype != t {
          conditions := conditions + [s[i]];
        } else if cond.(time := s[i].time) == s[i] {
          // only the transition time would change
          return;
        }
      }
      assert s[..|s|] == s;
      accessor.conditions := SortByType(conditions + [cond.(time := now)]);
    }

    method ClearCondition(t: ConditionType) returns (ok: bool)
      modifies accessor
      ensures ok <==> !cs.IsTerminal(t)
      ensures accessor.conditions == AfterClear(cs, old(accessor.conditions), t)
    {
      if cs.IsTerminal(t) { return false; }
      var c := GetCondition(t);
      if c.None? { return true; }
      var s := accessor.conditions;
      var conditions: seq<Condition> := [];
      for i := 0 to |s|
        invariant conditions == Without(s[..i], t)
      {
        assert s[..i + 1][..i] == s[..i];
        if s[i].ctype != t { conditions := conditions + [s[i]]; }
      }
      assert s[..|s|] == s;
      accessor.conditions := SortByType(conditions);
      return true;
    }

    method FindUnhappyDependent() returns (c: Option<Condition>)
      ensures c == Unhappy(cs, accessor.conditions)
    {
      if |cs.dependents| == 0 { return None; }
      var conditions := FilterTerminal();
      // sort set conditions by time
      var sorted := SortByTime(conditions);
      SortByTimeLength(conditions);
      c := FirstWithStatus(sorted, ConditionFalse);
      if c.Some? { return; }
      c := FirstWithStatus(sorted, ConditionUnknown);
      if c.Some? { return; }
      if |cs.dependents| > |conditions| { return Some(Bare); }
      return None;
    }

    // The filter runs in place on a copy of the list.
    method FilterTerminal() returns (r: seq<Condition>)
      ensures r == RelevantOf(cs, accessor.conditions)
    {
      var s := accessor.conditions;
      var copy := new Condition[|s|](i requires 0 <= i < |s| => s[i]);
      var n := 0;
      for i := 0 to |s|
        invariant n <= i
        invariant forall k :: i <= k < |s| ==> copy[k] == s[k]
        invariant copy[..n] == RelevantOf(cs, s[..i])
      {
        assert s[..i + 1][..i] == s[..i];
        if copy[i].severity == SeverityError && copy[i].ctype != cs.happy {
          copy[n] := copy[i];
          n := n + 1;
        }
      }
      assert s[..|s|] == s;
      r := copy[..n];
    }

    static method FirstWithStatus(s: seq<Condition>, status: ConditionStatus) returns (c: Option<Condition>)
      ensures c == FirstWith(s, status)
    {
      for i := 0 to |s|
        invariant FirstWith(s, status) == FirstWith(s[i..], status)
      {
        if s[i].status == status { return Some(s[i]); }
      }
      return None;
    }

    method RecomputeHappiness(t: ConditionType, now: int)
      modifies accessor
      ensures accessor.conditions == Recompute(cs, old(accessor.conditions), t, now)
    {
      var c := FindUnhappyDependent();
      if c.Some? {
        SetCondition(cs.Mark(cs.happy, c.value.status, c.value.reason, c.value.message), now);
      } else if t != cs.happy {
        SetCondition(cs.Mark(cs.happy, ConditionTrue, NoReason, NoMessage), now);
      }
    }

    method MarkTrue(t: ConditionType, now: int)
      modifies accessor
      ensures accessor.conditions == AfterMarkTrue(cs, old(accessor.conditions), t, NoReason, NoMessage, now)
    {
      SetCondition(cs.Mark(t, ConditionTrue, NoReason, NoMessage), now);
      RecomputeHappiness(t, now);
    }

    method MarkTrueWithReason(t: ConditionType, reason: Reason, message: Message, now: int)
      modifies accessor
      ensures accessor.conditions == AfterMarkTrue(cs, old(accessor.conditions), t, reason, message, now)
    {
      SetCondition(cs.Mark(t, ConditionTrue, reason, message), now);
      RecomputeHappiness(t, now);
    }

    method MarkFalse(t: ConditionType, reason: Reason, message: Message, now: int)
      requires cs.Valid()
      modifies accessor
      ensures accessor.conditions == AfterMarkFalse(cs, old(accessor.conditions), t, reason, message, now)
    {
      var types := [t];
      for i := 0 to |cs.dependents|
        invariant types == if t in cs.dependents[..i] then [t, cs.happy] else [t]
      {
        if cs.dependents[i] == t { types := types + [cs.happy]; }
      }
      assert cs.dependents[..|cs.dependents|] == cs.dependents;
      SetCondition(cs.Mark(types[0], ConditionFalse, reason, message), now);
      if |types| == 2 {
        SetCondition(cs.Mark(types[1], ConditionFalse, reason, message), now);
      }
    }

    method MarkUnknown(t: ConditionType, reason: Reason, message: Message, now: int)
      requires cs.Valid()
      modifies accessor
      ensures accessor.conditions == AfterMarkUnknown(cs, old(accessor.conditions), t, reason, message, now)
    {
      SetCondition(cs.Mark(t, ConditionUnknown, reason, message), now);
      var isDependent := false;
      ghost var s1 := accessor.conditions;
      for i := 0 to |cs.dependents|
        invariant accessor.conditions == s1
        invariant isDependent <==> t in cs.dependents[..i]
        invariant forall k :: 0 <= k < i ==> !HasStatus(s1, cs.dependents[k], ConditionFalse)
      {
        var c := GetCondition(cs.dependents[i]);
        if c.Some? && c.value.status == ConditionFalse {
          assert HasStatus(s1, cs.dependents[i], ConditionFalse);
          var happy := GetCondition(cs.happy);
          if !(happy.Some? && happy.value.status == ConditionFalse) {
            MarkFalse(cs.happy, reason, message, now);
          }
          return;
        }
        if cs.dependents[i] == t { isDependent := true; }
      }
      if isDependent {
        SetCondition(cs.Mark(cs.happy, ConditionUnknown, reason, message), now);
      }
    }

    method InitializeConditions(now: int)
      modifies accessor
      ensures accessor.conditions == AfterInitialize(cs, old(accessor.conditions), now)
    {
      var happy := GetCondition(cs.happy);
      var status := if happy.Some? && happy.value.status == ConditionTrue then ConditionTrue else ConditionUnknown;
      if happy.None? {
        SetCondition(Condition(cs.happy, ConditionUnknown, SeverityError, 0, NoReason, NoMessage), now);
      }
      ghost var s1 := accessor.conditions;
      for i := 0 to |cs.dependents|
        invariant accessor.conditions == FillIn(s1, cs.dependents[..i], status, now)
      {
        FillInStep(s1, cs.dependents, i, status, now);
        InitializeTerminalCondition(cs.dependents[i], status, now);
      }
      assert cs.dependents[..|cs.dependents|] == cs.dependents;
    }

    method InitializeTerminalCondition(t: ConditionType, status: ConditionStatus, now: int)
      modifies accessor
      ensures accessor.conditions == FillInOne(old(accessor.conditions), t, status, now)
    {
      var c := GetCondition(t);
      if c.Some? { return; }
      SetCondition(Condition(t, status, SeverityError, 0, NoReason, NoMessage), now);
    }
  }

  lemma {:induction false} InsertByTimeLength(c: Condition, s: seq<Condition>)
    ensures |InsertByTime(c, s)| == |s| + 1
  {
    if s != [] { InsertByTimeLength(c, s[1..]); }
  }

  lemma {:induction false} SortByTimeLength(s: seq<Condition>)
    ensures |SortByTime(s)| == |s|
  {
    if s != [] {
      SortByTimeLength(s[..|s| - 1]);
      InsertByTimeLength(s[|s| - 1], SortByTime(s[..|s| - 1]));
    }
  }
}
