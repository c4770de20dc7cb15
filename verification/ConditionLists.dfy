/**
 What one SetCondition does to a list, and what findUnhappyDependent finds in one.
 */
module ConditionLists {
  import opened Texts
  import opened Conditions

  /******* Order on condition types *******/

  lemma {:induction false} LessTransitive(a: string, b: string, c: string)
    requires Less(a, b) && Less(b, c)
    ensures Less(a, c)
  {
    if a != "" && a[0] == b[0] && b[0] == c[0] {
      LessTransitive(a[1..], b[1..], c[1..]);
    }
  }

  lemma {:induction false} LessTotal(a: string, b: string)
    ensures a == b ==> !Less(a, b)
    ensures a != b ==> (Less(a, b) <==> !Less(b, a))
  {
    if a != "" && b != "" {
      assert a == [a[0]] + a[1..] && b == [b[0]] + b[1..];
      LessTotal(a[1..], b[1..]);
    }
  }

  /******* Well-formed lists *******/

  predicate Distinct(s: seq<Condition>) {
    forall i, j :: 0 <= i < j < |s| ==> s[i].ctype != s[j].ctype
  }

  predicate Sorted(s: seq<Condition>) {
    forall i, j :: 0 <= i < j < |s| ==> Less(s[i].ctype, s[j].ctype)
  }

  // The severity of every condition tells whether its type is terminal.
  predicate Tagged(cs: ConditionSet, s: seq<Condition>) {
    forall c :: c in s ==> c.severity == cs.SeverityOf(c.ctype)
  }

  ghost predicate WellFormed(cs: ConditionSet, s: seq<Condition>) {
    cs.Valid() && Sorted(s) && Tagged(cs, s)
  }

  lemma SortedDistinct(s: seq<Condition>)
    requires Sorted(s)
    ensures Distinct(s)
  {
    forall i, j | 0 <= i < j < |s| ensures s[i].ctype != s[j].ctype {
      LessTotal(s[i].ctype, s[j].ctype);
    }
  }

  lemma {:induction false} FindSound(s: seq<Condition>, t: ConditionType)
    ensures Find(s, t).Some? ==> Find(s, t).value in s && Find(s, t).value.ctype == t
    ensures Find(s, t).None? ==> forall c :: c in s ==> c.ctype != t
  {
    if s != [] { FindSound(s[1..], t); }
  }

  lemma FindUnique(s: seq<Condition>, c: Condition)
    requires Distinct(s) && c in s
    ensures Find(s, c.ctype) == Some(c)
  {
    FindSound(s, c.ctype);
  }

  // Two lists without repeated types that hold the same conditions answer every lookup alike.
  lemma FindSame(s: seq<Condition>, s': seq<Condition>, t: ConditionType)
    requires Distinct(s) && Distinct(s')
    requires forall c: Condition :: c.ctype == t ==> (c in s <==> c in s')
    ensures Find(s, t) == Find(s', t)
  {
    FindSound(s, t);
    FindSound(s', t);
  }

  /******* Removing and sorting *******/

  lemma {:induction false} WithoutMembers(s: seq<Condition>, t: ConditionType)
    ensures forall c :: c in Without(s, t) <==> c in s && c.ctype != t
  {
    if s != [] {
      assert s == s[..|s| - 1] + [s[|s| - 1]];
      WithoutMembers(s[..|s| - 1], t);
    }
  }

  lemma {:induction false} WithoutSorted(s: seq<Condition>, t: ConditionType)
    requires Sorted(s)
    ensures Sorted(Without(s, t))
  {
    if s != [] {
      WithoutSorted(s[..|s| - 1], t);
      WithoutMembers(s[..|s| - 1], t);
    }
  }

  lemma {:induction false} InsertByTypeMembers(c: Condition, s: seq<Condition>)
    ensures forall x :: x in InsertByType(c, s) <==> x == c || x in s
  {
    if s != [] && !Less(c.ctype, s[0].ctype) {
      assert s == [s[0]] + s[1..];
      InsertByTypeMembers(c, s[1..]);
    }
  }

  lemma {:induction false} InsertByTypeSorted(c: Condition, s: seq<Condition>)
    requires Sorted(s) && forall x :: x in s ==> x.ctype != c.ctype
    ensures Sorted(InsertByType(c, s))
  {
    if s == [] {
    } else if Less(c.ctype, s[0].ctype) {
      forall j | 0 <= j < |s| ensures Less(c.ctype, s[j].ctype) {
        if j > 0 { LessTransitive(c.ctype, s[0].ctype, s[j].ctype); }
      }
    } else {
      InsertByTypeSorted(c, s[1..]);
      InsertByTypeMembers(c, s[1..]);
      LessTotal(c.ctype, s[0].ctype);
      assert s[0] in s;
      assert forall x :: x in InsertByType(c, s[1..]) ==> Less(s[0].ctype, x.ctype);
    }
  }

  // A list that is already sorted is left alone.
  lemma {:induction false} InsertLast(c: Condition, s: seq<Condition>)
    requires forall x :: x in s ==> Less(x.ctype, c.ctype)
    ensures InsertByType(c, s) == s + [c]
  {
    if s != [] {
      assert s[0] in s;
      LessTotal(c.ctype, s[0].ctype);
      InsertLast(c, s[1..]);
    }
  }

  lemma {:induction false} SortOfSorted(s: seq<Condition>)
    requires Sorted(s)
    ensures SortByType(s) == s
  {
    if s != [] {
      var last := s[|s| - 1];
      SortOfSorted(s[..|s| - 1]);
      InsertLast(last, s[..|s| - 1]);
      assert s == s[..|s| - 1] + [last];
    }
  }

  /******* SetCondition on a list *******/

  predicate Unchanged(s: seq<Condition>, cond: Condition) {
    Find(s, cond.ctype).Some? && SameButTime(cond, Find(s, cond.ctype).value)
  }

  lemma SetCases(s: seq<Condition>, cond: Condition, now: int)
    requires Sorted(s)
    ensures Unchanged(s, cond) ==> Set(s, cond, now) == s
    ensures !Unchanged(s, cond) ==> Set(s, cond, now) == InsertByType(cond.(time := now), Without(s, cond.ctype))
  {
    SortedDistinct(s);
    FindSound(s, cond.ctype);
    if Unchanged(s, cond) {
      var i :| 0 <= i < |s| && s[i] == Find(s, cond.ctype).value;
      assert s[i].ctype == cond.ctype && SameButTime(cond, s[i]);
    } else {
      forall i | 0 <= i < |s| && s[i].ctype == cond.ctype ensures !SameButTime(cond, s[i]) {
        FindUnique(s, s[i]);
      }
      var rest := Without(s, cond.ctype);
      WithoutSorted(s, cond.ctype);
      SortOfSorted(rest);
      assert (rest + [cond.(time := now)])[..|rest|] == rest;
    }
  }

  // The condition as the list holds it afterwards.
  function Stamped(s: seq<Condition>, cond: Condition, now: int): Condition {
    if Unchanged(s, cond) then Find(s, cond.ctype).value else cond.(time := now)
  }

  // SetCondition is a last-writer-wins update of the map from types to conditions.
  lemma SetMeaning(cs: ConditionSet, s: seq<Condition>, cond: Condition, now: int)
    requires WellFormed(cs, s) && cond.severity == cs.SeverityOf(cond.ctype)
    ensures WellFormed(cs, Set(s, cond, now))
    ensures forall t :: Find(Set(s, cond, now), t) ==
                        if t == cond.ctype then Some(Stamped(s, cond, now)) else Find(s, t)
    ensures SameButTime(cond, Stamped(s, cond, now))
  {
    SetCases(s, cond, now);
    var s' := Set(s, cond, now);
    if !Unchanged(s, cond) {
      var rest := Without(s, cond.ctype);
      var c' := cond.(time := now);
      WithoutSorted(s, cond.ctype);
      WithoutMembers(s, cond.ctype);
      InsertByTypeSorted(c', rest);
      InsertByTypeMembers(c', rest);
      SortedDistinct(s);
      SortedDistinct(s');
      forall t ensures Find(s', t) == if t == cond.ctype then Some(c') else Find(s, t) {
        if t == cond.ctype { FindUnique(s', c'); } else { FindSame(s, s', t); }
      }
    }
  }

  lemma ClearMeaning(cs: ConditionSet, s: seq<Condition>, t: ConditionType)
    requires WellFormed(cs, s)
    ensures WellFormed(cs, AfterClear(cs, s, t))
    ensures forall u :: Find(AfterClear(cs, s, t), u) ==
                        if u == t && !cs.IsTerminal(t) then None else Find(s, u)
  {
    var s' := AfterClear(cs, s, t);
    if !cs.IsTerminal(t) && Find(s, t).Some? {
      WithoutSorted(s, t);
      WithoutMembers(s, t);
      SortOfSorted(Without(s, t));
      SortedDistinct(s);
      SortedDistinct(s');
      forall u ensures Find(s', u) == if u == t then None else Find(s, u) {
        FindSound(s', u);
        if u != t { FindSame(s, s', u); }
      }
    }
  }

  /******* findUnhappyDependent *******/

  lemma {:induction false} RelevantMembers(cs: ConditionSet, s: seq<Condition>)
    ensures forall c :: c in RelevantOf(cs, s) <==> c in s && Relevant(cs, c)
  {
    if s != [] {
      assert s == s[..|s| - 1] + [s[|s| - 1]];
      RelevantMembers(cs, s[..|s| - 1]);
    }
  }

  lemma {:induction false} RelevantDistinct(cs: ConditionSet, s: seq<Condition>)
    requires Distinct(s)
    ensures Distinct(RelevantOf(cs, s))
  {
    if s != [] {
      var r, last := RelevantOf(cs, s[..|s| - 1]), s[|s| - 1];
      RelevantDistinct(cs, s[..|s| - 1]);
      RelevantMembers(cs, s[..|s| - 1]);
      assert forall c :: c in r ==> c.ctype != last.ctype;
      assert forall i :: 0 <= i < |r| ==> r[i] in r;
    }
  }

  predicate LatestFirst(s: seq<Condition>) {
    forall i, j :: 0 <= i < j < |s| ==> s[i].time >= s[j].time
  }

  lemma {:induction false} InsertByTimeMeaning(c: Condition, s: seq<Condition>)
    requires LatestFirst(s)
    ensures LatestFirst(InsertByTime(c, s))
    ensures forall x :: x in InsertByTime(c, s) <==> x == c || x in s
  {
    if s != [] && c.time <= s[0].time {
      assert s == [s[0]] + s[1..];
      InsertByTimeMeaning(c, s[1..]);
      var r := InsertByTime(c, s[1..]);
      assert forall x :: x in r ==> s[0].time >= x.time;
      assert forall i :: 0 <= i < |r| ==> r[i] in r;
    }
  }

  lemma {:induction false} SortByTimeMeaning(s: seq<Condition>)
    ensures LatestFirst(SortByTime(s))
    ensures forall c :: c in SortByTime(s) <==> c in s
    ensures |SortByTime(s)| == |s|
  {
    SortByTimeLength(s);
    if s != [] {
      assert s == s[..|s| - 1] + [s[|s| - 1]];
      SortByTimeMeaning(s[..|s| - 1]);
      InsertByTimeMeaning(s[|s| - 1], SortByTime(s[..|s| - 1]));
    }
  }

  lemma {:induction false} FirstWithMeaning(s: seq<Condition>, status: ConditionStatus)
    requires LatestFirst(s)
    ensures FirstWith(s, status).None? ==> forall c :: c in s ==> c.status != status
    ensures FirstWith(s, status).Some? ==>
              && FirstWith(s, status).value in s
              && FirstWith(s, status).value.status == status
              && forall c :: c in s && c.status == status ==> c.time <= FirstWith(s, status).value.time
  {
    if s != [] {
      assert s == [s[0]] + s[1..];
      FirstWithMeaning(s[1..], status);
    }
  }

  // The plain definition: every dependent is looked up by its type.
  predicate AllTrue(cs: ConditionSet, s: seq<Condition>) {
    forall d :: d in cs.dependents ==> HasStatus(s, d, ConditionTrue)
  }

  predicate AnyFalse(cs: ConditionSet, s: seq<Condition>) {
    exists d :: d in cs.dependents && HasStatus(s, d, ConditionFalse)
  }

  predicate AnyUnknown(cs: ConditionSet, s: seq<Condition>) {
    exists d :: d in cs.dependents && HasStatus(s, d, ConditionUnknown)
  }

  // False beats Unknown beats True; a missing dependent counts as Unknown.
  function Aggregate(cs: ConditionSet, s: seq<Condition>): ConditionStatus {
    if AnyFalse(cs, s) then ConditionFalse
    else if AllTrue(cs, s) then ConditionTrue
    else ConditionUnknown
  }

  // c is a dependent's condition of that status, and none of that status is later.
  ghost predicate LatestOf(cs: ConditionSet, s: seq<Condition>, status: ConditionStatus, c: Condition) {
    && c.ctype in cs.dependents && Find(s, c.ctype) == Some(c) && c.status == status
    && forall d :: d in cs.dependents && HasStatus(s, d, status) ==> Find(s, d).value.time <= c.time
  }

  lemma RelevantAreDependents(cs: ConditionSet, s: seq<Condition>, c: Condition)
    requires WellFormed(cs, s)
    ensures c in RelevantOf(cs, s) <==> c.ctype in cs.dependents && Find(s, c.ctype) == Some(c)
  {
    RelevantMembers(cs, s);
    SortedDistinct(s);
    FindSound(s, c.ctype);
    if c in s { FindUnique(s, c); }
  }

  function Types(s: seq<Condition>): seq<ConditionType> {
    seq(|s|, i requires 0 <= i < |s| => s[i].ctype)
  }

  // Counting the types of a list without repetitions.
  lemma {:induction false} CountBySet(types: seq<ConditionType>)
    requires NoDuplicates(types)
    ensures |(set t | t in types)| == |types|
  {
    if types != [] {
      var init, last := types[..|types| - 1], types[|types| - 1];
      CountBySet(init);
      assert types == init + [last];
      assert (set t | t in types) == (set t | t in init) + {last};
    }
  }

  // The test len(dependents) > len(conditions) asks exactly whether some dependent is missing.
  lemma CountTest(cs: ConditionSet, s: seq<Condition>)
    requires WellFormed(cs, s)
    ensures |cs.dependents| > |RelevantOf(cs, s)| <==> exists d :: d in cs.dependents && Find(s, d).None?
  {
    var r := RelevantOf(cs, s);
    SortedDistinct(s);
    RelevantDistinct(cs, s);
    CountBySet(Types(r));
    CountBySet(cs.dependents);
    var present, all := set t | t in Types(r), set d | d in cs.dependents;
    assert |present| == |r| && |all| == |cs.dependents|;
    forall t ensures t in present <==> t in all && Find(s, t).Some? {
      if t in present {
        var i :| 0 <= i < |Types(r)| && Types(r)[i] == t;
        RelevantAreDependents(cs, s, r[i]);
      }
      if t in all && Find(s, t).Some? {
        FindSound(s, t);
        RelevantAreDependents(cs, s, Find(s, t).value);
        var i :| 0 <= i < |r| && r[i] == Find(s, t).value;
        assert Types(r)[i] == t;
      }
    }
    assert all == present + (all - present);
    assert |all| == |present| + |all - present|;
    if |all| > |present| {
      var d :| d in all - present;
      assert Find(s, d).None?;
    } else {
      assert all - present == {};
    }
  }

  // findUnhappyDependent against the plain definition.
  lemma UnhappyMeaning(cs: ConditionSet, s: seq<Condition>)
    requires WellFormed(cs, s) && cs.dependents != []
    ensures Unhappy(cs, s).None? <==> AllTrue(cs, s)
    ensures AnyFalse(cs, s) ==>
              Unhappy(cs, s).Some? && LatestOf(cs, s, ConditionFalse, Unhappy(cs, s).value)
    ensures !AnyFalse(cs, s) && AnyUnknown(cs, s) ==>
              Unhappy(cs, s).Some? && LatestOf(cs, s, ConditionUnknown, Unhappy(cs, s).value)
    ensures !AnyFalse(cs, s) && !AnyUnknown(cs, s) && !AllTrue(cs, s) ==> Unhappy(cs, s) == Some(Bare)
    ensures Unhappy(cs, s).Some? ==> Unhappy(cs, s).value.status == Aggregate(cs, s)
  {
    var r := RelevantOf(cs, s);
    var sorted := SortByTime(r);
    SortByTimeMeaning(r);
    FirstWithMeaning(sorted, ConditionFalse);
    FirstWithMeaning(sorted, ConditionUnknown);
    CountTest(cs, s);
    forall c: Condition ensures c in sorted <==> c.ctype in cs.dependents && Find(s, c.ctype) == Some(c) {
      RelevantAreDependents(cs, s, c);
    }
    forall d | d in cs.dependents && Find(s, d).Some? ensures Find(s, d).value in sorted {
      FindSound(s, d);
    }
  }

  // Without the dedup of newConditionSet the count test reports a dependent missing when none is.
  lemma CountTestNeedsDedup(happy: ConditionType, d: ConditionType, time: int)
    requires d != happy
    ensures var cs := ConditionSet(happy, [d, d]);
            var s := [cs.Mark(d, ConditionTrue, NoReason, NoMessage).(time := time)];
            !cs.Valid() && AllTrue(cs, s) && Unhappy(cs, s) == Some(Bare)
  {
    var cs := ConditionSet(happy, [d, d]);
    var c := cs.Mark(d, ConditionTrue, NoReason, NoMessage).(time := time);
    var s := [c];
    assert cs.dependents[0] == cs.dependents[1];
    assert RelevantOf(cs, s[..0]) == [];
    assert RelevantOf(cs, s) == s;
    assert SortByTime(s[..0]) == [];
    assert SortByTime(s) == s;
    assert FirstWith(s[1..], ConditionFalse) == None && FirstWith(s[1..], ConditionUnknown) == None;
  }
}
