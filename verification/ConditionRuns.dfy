/**
 Operations and whole runs of the condition manager: the happy condition always equals the
 aggregate of the dependents, and every other type behaves like an entry of a map.
 */
module ConditionRuns {
  import opened Texts
  import opened Conditions
  import opened ConditionLists

  datatype Op =
    | Initialize(now: int)
    | Mark(t: ConditionType, status: ConditionStatus, reason: Reason, message: Message, now: int)
    | Clear(t: ConditionType)

  function Apply(cs: ConditionSet, s: seq<Condition>, op: Op): seq<Condition> {
    match op
    case Initialize(now) => AfterInitialize(cs, s, now)
    case Mark(t, ConditionTrue, reason, message, now) => AfterMarkTrue(cs, s, t, reason, message, now)
    case Mark(t, ConditionFalse, reason, message, now) => AfterMarkFalse(cs, s, t, reason, message, now)
    case Mark(t, ConditionUnknown, reason, message, now) => AfterMarkUnknown(cs, s, t, reason, message, now)
    case Clear(t) => AfterClear(cs, s, t)
  }

  function Run(cs: ConditionSet, s: seq<Condition>, ops: seq<Op>): seq<Condition> {
    if ops == [] then s else Apply(cs, Run(cs, s, ops[..|ops| - 1]), ops[|ops| - 1])
  }

  // Marks are never applied to the happy type itself.
  predicate Legal(cs: ConditionSet, op: Op) {
    op.Mark? ==> op.t != cs.happy
  }

  ghost predicate Consistent(cs: ConditionSet, s: seq<Condition>) {
    && WellFormed(cs, s)
    && (Find(s, cs.happy).Some? ==> Find(s, cs.happy).value.status == Aggregate(cs, s))
    && (Find(s, cs.happy).None? ==> forall d :: d in cs.dependents ==> Find(s, d).None?)
    // a happy True carries no reason
    && (HasStatus(s, cs.happy, ConditionTrue) ==>
          Find(s, cs.happy).value.reason == NoReason && Find(s, cs.happy).value.message == NoMessage)
  }

  // What a type's entry says, whatever the time of its last transition.
  datatype Entry = Missing | Entry(status: ConditionStatus, reason: Reason, message: Message)

  function EntryOf(s: seq<Condition>, t: ConditionType): Entry {
    match Find(s, t)
    case None => Missing
    case Some(c) => Entry(c.status, c.reason, c.message)
  }

  /******* One mark *******/

  // A mark sets its own entry, leaves every other entry but the happy one, and keeps the invariant.
  lemma MarkMeaning(cs: ConditionSet, s: seq<Condition>, op: Op)
    requires Consistent(cs, s) && op.Mark? && op.t != cs.happy
    ensures Consistent(cs, Apply(cs, s, op))
    ensures forall u :: u != op.t && u != cs.happy ==> Find(Apply(cs, s, op), u) == Find(s, u)
    ensures EntryOf(Apply(cs, s, op), op.t) == Entry(op.status, op.reason, op.message)
    ensures op.t in cs.dependents ==> Find(Apply(cs, s, op), cs.happy).Some?
    ensures op.t !in cs.dependents && op.status != ConditionTrue ==>
              Find(Apply(cs, s, op), cs.happy) == Find(s, cs.happy)
  {
    var mark := cs.Mark(op.t, op.status, op.reason, op.message);
    var s1 := Set(s, mark, op.now);
    SetMeaning(cs, s, mark, op.now);
    match op.status
    case ConditionTrue => MarkTrueMeaning(cs, s1, op.t, op.now);
    case ConditionFalse =>
      if op.t in cs.dependents {
        SetMeaning(cs, s1, cs.Mark(cs.happy, ConditionFalse, op.reason, op.message), op.now);
        assert HasStatus(Apply(cs, s, op), op.t, ConditionFalse);
      }
    case ConditionUnknown => MarkUnknownMeaning(cs, s, s1, op);
  }

  lemma MarkTrueMeaning(cs: ConditionSet, s1: seq<Condition>, t: ConditionType, now: int)
    requires WellFormed(cs, s1) && t != cs.happy
    ensures Consistent(cs, Recompute(cs, s1, t, now))
    ensures forall u :: u != cs.happy ==> Find(Recompute(cs, s1, t, now), u) == Find(s1, u)
    ensures Find(Recompute(cs, s1, t, now), cs.happy).Some?
  {
    if cs.dependents != [] { UnhappyMeaning(cs, s1); }
    match Unhappy(cs, s1)
    case Some(c) => SetMeaning(cs, s1, cs.Mark(cs.happy, c.status, c.reason, c.message), now);
    case None => SetMeaning(cs, s1, cs.Mark(cs.happy, ConditionTrue, NoReason, NoMessage), now);
    var s' := Recompute(cs, s1, t, now);
    assert forall d :: d in cs.dependents ==> StatusOf(s', d) == StatusOf(s1, d);
    SameStatuses(cs, s', s1);
  }

  lemma MarkUnknownMeaning(cs: ConditionSet, s: seq<Condition>, s1: seq<Condition>, op: Op)
    requires Consistent(cs, s) && op.Mark? && op.t != cs.happy && op.status == ConditionUnknown
    requires s1 == Set(s, cs.Mark(op.t, op.status, op.reason, op.message), op.now)
    ensures var s' := AfterMarkUnknown(cs, s, op.t, op.reason, op.message, op.now);
            && Consistent(cs, s')
            && (forall u :: u != cs.happy ==> Find(s', u) == Find(s1, u))
            && (op.t in cs.dependents ==> Find(s', cs.happy).Some?)
            && (op.t !in cs.dependents ==> Find(s', cs.happy) == Find(s, cs.happy))
  {
    SetMeaning(cs, s, cs.Mark(op.t, op.status, op.reason, op.message), op.now);
    if SomeDependentFalse(cs, s1) {
      // that dependent was False before, so the happy condition is False already
      var i :| 0 <= i < |cs.dependents| && HasStatus(s1, cs.dependents[i], ConditionFalse);
      var d := cs.dependents[i];
      assert d != op.t && Find(s1, d) == Find(s, d);
      assert d in cs.dependents && HasStatus(s, d, ConditionFalse);
      assert AnyFalse(cs, s) && AnyFalse(cs, s1);
    } else if op.t in cs.dependents {
      var s' := Set(s1, cs.Mark(cs.happy, ConditionUnknown, op.reason, op.message), op.now);
      SetMeaning(cs, s1, cs.Mark(cs.happy, ConditionUnknown, op.reason, op.message), op.now);
      assert HasStatus(s', op.t, ConditionUnknown);
      assert forall d :: d in cs.dependents ==> Find(s', d) == Find(s1, d);
      assert !AnyFalse(cs, s') by { NoneFalse(cs, s1, s'); }
    } else {
      assert forall d :: d in cs.dependents ==> StatusOf(s1, d) == StatusOf(s, d);
      SameStatuses(cs, s1, s);
    }
  }

  lemma NoneFalse(cs: ConditionSet, s1: seq<Condition>, s': seq<Condition>)
    requires !SomeDependentFalse(cs, s1) && forall d :: d in cs.dependents ==> Find(s', d) == Find(s1, d)
    ensures !AnyFalse(cs, s')
  {
    forall d | d in cs.dependents ensures !HasStatus(s', d, ConditionFalse) {
      var i :| 0 <= i < |cs.dependents| && cs.dependents[i] == d;
      assert !HasStatus(s1, cs.dependents[i], ConditionFalse);
    }
  }

  function StatusOf(s: seq<Condition>, t: ConditionType): Option<ConditionStatus> {
    match Find(s, t)
    case None => None
    case Some(c) => Some(c.status)
  }

  lemma SameStatuses(cs: ConditionSet, x: seq<Condition>, y: seq<Condition>)
    requires forall d :: d in cs.dependents ==> StatusOf(x, d) == StatusOf(y, d)
    ensures Aggregate(cs, x) == Aggregate(cs, y)
  {
    assert forall d, st :: d in cs.dependents ==> (HasStatus(x, d, st) <==> StatusOf(x, d) == Some(st));
    assert forall d, st :: d in cs.dependents ==> (HasStatus(y, d, st) <==> StatusOf(y, d) == Some(st));
  }

  /******* InitializeConditions *******/

  lemma {:induction false} FillInMeaning(cs: ConditionSet, s: seq<Condition>, types: seq<ConditionType>, status: ConditionStatus, now: int)
    requires WellFormed(cs, s) && forall t :: t in types ==> cs.IsTerminal(t)
    ensures WellFormed(cs, FillIn(s, types, status, now))
    ensures forall t :: Find(s, t).Some? || t !in types ==> Find(FillIn(s, types, status, now), t) == Find(s, t)
    ensures forall t :: Find(s, t).None? && t in types ==>
                          EntryOf(FillIn(s, types, status, now), t) == Entry(status, NoReason, NoMessage)
  {
    if types != [] {
      var init, t := types[..|types| - 1], types[|types| - 1];
      assert types == init + [t];
      FillInMeaning(cs, s, init, status, now);
      var s1 := FillIn(s, init, status, now);
      SetMeaning(cs, s1, Condition(t, status, SeverityError, 0, NoReason, NoMessage), now);
    }
  }

  // InitializeConditions only adds: what is there stays, and afterwards nothing is missing.
  lemma InitializeMeaning(cs: ConditionSet, s: seq<Condition>, now: int)
    requires WellFormed(cs, s)
    ensures WellFormed(cs, AfterInitialize(cs, s, now))
    ensures forall t :: Find(s, t).Some? || !cs.IsTerminal(t) ==> Find(AfterInitialize(cs, s, now), t) == Find(s, t)
    ensures forall t :: cs.IsTerminal(t) && Find(s, t).None? ==>
                          EntryOf(AfterInitialize(cs, s, now), t) ==
                          Entry(if HasStatus(s, cs.happy, ConditionTrue) then ConditionTrue else ConditionUnknown, NoReason, NoMessage)
  {
    var s1 := if Find(s, cs.happy).Some? then s
              else Set(s, Condition(cs.happy, ConditionUnknown, SeverityError, 0, NoReason, NoMessage), now);
    if Find(s, cs.happy).None? {
      SetMeaning(cs, s, Condition(cs.happy, ConditionUnknown, SeverityError, 0, NoReason, NoMessage), now);
    }
    FillInMeaning(cs, s1, cs.dependents, if HasStatus(s, cs.happy, ConditionTrue) then ConditionTrue else ConditionUnknown, now);
  }

  lemma {:induction false} FillInNothing(s: seq<Condition>, types: seq<ConditionType>, status: ConditionStatus, now: int)
    requires forall t :: t in types ==> Find(s, t).Some?
    ensures FillIn(s, types, status, now) == s
  {
    if types != [] { FillInNothing(s, types[..|types| - 1], status, now); }
  }

  lemma InitializeIdempotent(cs: ConditionSet, s: seq<Condition>, now: int, later: int)
    requires WellFormed(cs, s)
    ensures AfterInitialize(cs, AfterInitialize(cs, s, now), later) == AfterInitialize(cs, s, now)
  {
    InitializeMeaning(cs, s, now);
    var s' := AfterInitialize(cs, s, now);
    assert forall t :: cs.IsTerminal(t) && Find(s, t).None? ==> EntryOf(s', t).Entry?;
    FillInNothing(s', cs.dependents, if HasStatus(s', cs.happy, ConditionTrue) then ConditionTrue else ConditionUnknown, later);
  }

  // A happy True that no present dependent contradicts is made good for every dependent.
  lemma InitializeRestores(cs: ConditionSet, s: seq<Condition>, now: int)
    requires WellFormed(cs, s)
    requires HasStatus(s, cs.happy, ConditionTrue) ==>
               forall d :: d in cs.dependents && Find(s, d).Some? ==> HasStatus(s, d, ConditionTrue)
    ensures HasStatus(AfterInitialize(cs, s, now), cs.happy, ConditionTrue) ==> AllTrue(cs, AfterInitialize(cs, s, now))
  {
    InitializeMeaning(cs, s, now);
    var s' := AfterInitialize(cs, s, now);
    if HasStatus(s', cs.happy, ConditionTrue) {
      forall d | d in cs.dependents ensures HasStatus(s', d, ConditionTrue) {
        if Find(s, d).None? { assert EntryOf(s', d).status == ConditionTrue; }
      }
    }
  }

  lemma InitializeConsistent(cs: ConditionSet, s: seq<Condition>, now: int)
    requires Consistent(cs, s) && cs.dependents != []
    ensures Consistent(cs, AfterInitialize(cs, s, now))
    ensures forall d :: d in cs.dependents ==>
                          EntryOf(AfterInitialize(cs, s, now), d) ==
                          if Find(s, d).None? then Entry(ConditionUnknown, NoReason, NoMessage) else EntryOf(s, d)
    ensures Find(AfterInitialize(cs, s, now), cs.happy).Some?
  {
    InitializeMeaning(cs, s, now);
    var s' := AfterInitialize(cs, s, now);
    assert forall d :: d in cs.dependents && Find(s, d).None? ==> EntryOf(s', d) == Entry(ConditionUnknown, NoReason, NoMessage);
    assert AnyFalse(cs, s) <==> AnyFalse(cs, s') by {
      forall d | d in cs.dependents ensures HasStatus(s, d, ConditionFalse) <==> HasStatus(s', d, ConditionFalse) {}
    }
    assert cs.dependents[0] in cs.dependents;
    if Find(s, cs.happy).None? { assert EntryOf(s', cs.happy) == Entry(ConditionUnknown, NoReason, NoMessage); }
  }

  /******* Runs *******/

  lemma ApplyConsistent(cs: ConditionSet, s: seq<Condition>, op: Op)
    requires Consistent(cs, s) && cs.dependents != [] && Legal(cs, op)
    ensures Consistent(cs, Apply(cs, s, op))
  {
    match op
    case Initialize(now) => InitializeConsistent(cs, s, now);
    case Mark(_, _, _, _, _) => MarkMeaning(cs, s, op);
    case Clear(t) => ClearMeaning(cs, s, t);
  }

  // Over every run from the empty list the happy condition is exactly the aggregate, and while it
  // is absent no dependent is present; the list stays sorted without repeated types.
  lemma {:induction false} RunConsistent(cs: ConditionSet, ops: seq<Op>)
    requires cs.Valid() && cs.dependents != [] && forall op :: op in ops ==> Legal(cs, op)
    ensures Consistent(cs, Run(cs, [], ops))
  {
    if ops != [] {
      var init := ops[..|ops| - 1];
      assert forall op :: op in init ==> op in ops;
      RunConsistent(cs, init);
      ApplyConsistent(cs, Run(cs, [], init), ops[|ops| - 1]);
    }
  }

  // Marking the happy type directly is what would break it.
  lemma HappyMarkBreaksIt(cs: ConditionSet, s: seq<Condition>, reason: Reason, message: Message, now: int)
    requires Consistent(cs, s) && AllTrue(cs, s) && cs.dependents != []
    ensures var s' := Apply(cs, s, Mark(cs.happy, ConditionFalse, reason, message, now));
            HasStatus(s', cs.happy, ConditionFalse) && Aggregate(cs, s') == ConditionTrue
  {
    SetMeaning(cs, s, cs.Mark(cs.happy, ConditionFalse, reason, message), now);
    var s' := Apply(cs, s, Mark(cs.happy, ConditionFalse, reason, message, now));
    assert forall d :: d in cs.dependents ==> Find(s', d) == Find(s, d);
    assert forall d :: d in cs.dependents ==> HasStatus(s, d, ConditionTrue);
  }

  // Exactly when a mark on the happy type leaves it at the aggregate: True always does, because it
  // is recomputed; False only when some dependent is False; Unknown unless all are True.
  lemma HappyMarkIff(cs: ConditionSet, s: seq<Condition>, op: Op)
    requires Consistent(cs, s) && cs.dependents != [] && op.Mark? && op.t == cs.happy
    ensures var s' := Apply(cs, s, op);
            HasStatus(s', cs.happy, Aggregate(cs, s')) <==>
              match op.status
              case ConditionTrue => true
              case ConditionFalse => Aggregate(cs, s) == ConditionFalse
              case ConditionUnknown => Aggregate(cs, s) != ConditionTrue
  {
    var mark := cs.Mark(cs.happy, op.status, op.reason, op.message);
    var s1 := Set(s, mark, op.now);
    SetMeaning(cs, s, mark, op.now);
    HappyAside(cs, s, s1);
    match op.status
    case ConditionFalse =>
    case ConditionTrue => HappyMarkTrue(cs, s1, op.now);
    case ConditionUnknown =>
      if SomeDependentFalse(cs, s1) {
        var i :| 0 <= i < |cs.dependents| && HasStatus(s1, cs.dependents[i], ConditionFalse);
        assert cs.dependents[i] in cs.dependents && AnyFalse(cs, s1);
        SetMeaning(cs, s1, cs.Mark(cs.happy, ConditionFalse, op.reason, op.message), op.now);
        HappyAside(cs, s1, Apply(cs, s, op));
      }
  }

  lemma HappyAside(cs: ConditionSet, s: seq<Condition>, s': seq<Condition>)
    requires cs.Valid() && forall u :: u != cs.happy ==> Find(s', u) == Find(s, u)
    ensures Aggregate(cs, s') == Aggregate(cs, s)
  {
    assert forall d :: d in cs.dependents ==> StatusOf(s', d) == StatusOf(s, d);
    SameStatuses(cs, s', s);
  }

  lemma HappyMarkTrue(cs: ConditionSet, s1: seq<Condition>, now: int)
    requires WellFormed(cs, s1) && cs.dependents != [] && HasStatus(s1, cs.happy, ConditionTrue)
    ensures var s' := Recompute(cs, s1, cs.happy, now); HasStatus(s', cs.happy, Aggregate(cs, s'))
  {
    UnhappyMeaning(cs, s1);
    match Unhappy(cs, s1)
    case None =>
    case Some(c) =>
      SetMeaning(cs, s1, cs.Mark(cs.happy, c.status, c.reason, c.message), now);
      HappyAside(cs, s1, Recompute(cs, s1, cs.happy, now));
  }

  /******* Map laws *******/

  // Marks on distinct dependents commute on all statuses, the happy one included.
  lemma MarksCommute(cs: ConditionSet, s: seq<Condition>, a: Op, b: Op)
    requires Consistent(cs, s) && a.Mark? && b.Mark? && a.t != b.t
    requires a.t in cs.dependents && b.t in cs.dependents
    ensures forall t :: StatusOf(Apply(cs, Apply(cs, s, a), b), t) == StatusOf(Apply(cs, Apply(cs, s, b), a), t)
  {
    MarkMeaning(cs, s, a);
    MarkMeaning(cs, Apply(cs, s, a), b);
    MarkMeaning(cs, s, b);
    MarkMeaning(cs, Apply(cs, s, b), a);
    var x, y := Apply(cs, Apply(cs, s, a), b), Apply(cs, Apply(cs, s, b), a);
    assert EntryOf(x, a.t) == EntryOf(Apply(cs, s, a), a.t);
    assert EntryOf(y, b.t) == EntryOf(Apply(cs, s, b), b.t);
    forall t | t != cs.happy ensures StatusOf(x, t) == StatusOf(y, t) {
      if t == a.t || t == b.t { assert EntryOf(x, t) == EntryOf(y, t); }
    }
    SameStatuses(cs, x, y);
  }

  // Repeating a mark leaves the whole list alone, transition times included.
  lemma MarkRepeats(cs: ConditionSet, s: seq<Condition>, op: Op, later: int)
    requires Consistent(cs, s) && op.Mark? && op.t != cs.happy
    ensures Apply(cs, Apply(cs, s, op), op.(now := later)) == Apply(cs, s, op)
  {
    var s1 := Set(s, cs.Mark(op.t, op.status, op.reason, op.message), op.now);
    var s' := Apply(cs, s, op);
    MarkMeaning(cs, s, op);
    SetMeaning(cs, s, cs.Mark(op.t, op.status, op.reason, op.message), op.now);
    FindSound(s', op.t);
    assert EntryOf(s', op.t) == Entry(op.status, op.reason, op.message);
    RepeatSet(cs, s', cs.Mark(op.t, op.status, op.reason, op.message), later);
    match op.status
    case ConditionTrue => RecomputeRepeats(cs, s1, op.t, op.now, later);
    case ConditionFalse =>
      if op.t in cs.dependents {
        SetMeaning(cs, s1, cs.Mark(cs.happy, ConditionFalse, op.reason, op.message), op.now);
        RepeatSet(cs, s', cs.Mark(cs.happy, ConditionFalse, op.reason, op.message), later);
      }
    case ConditionUnknown => MarkUnknownRepeats(cs, s, s1, s', op, later);
  }

  lemma MarkUnknownRepeats(cs: ConditionSet, s: seq<Condition>, s1: seq<Condition>, s': seq<Condition>, op: Op, later: int)
    requires Consistent(cs, s) && op.Mark? && op.t != cs.happy && op.status == ConditionUnknown
    requires s1 == Set(s, cs.Mark(op.t, op.status, op.reason, op.message), op.now)
    requires s' == AfterMarkUnknown(cs, s, op.t, op.reason, op.message, op.now) && Consistent(cs, s')
    requires Set(s', cs.Mark(op.t, op.status, op.reason, op.message), later) == s'
    ensures AfterMarkUnknown(cs, s', op.t, op.reason, op.message, later) == s'
  {
    SetMeaning(cs, s, cs.Mark(op.t, op.status, op.reason, op.message), op.now);
    if SomeDependentFalse(cs, s1) {
      var i :| 0 <= i < |cs.dependents| && HasStatus(s1, cs.dependents[i], ConditionFalse);
      var d := cs.dependents[i];
      assert d != op.t && Find(s1, d) == Find(s, d);
      assert d in cs.dependents && HasStatus(s, d, ConditionFalse);
      assert AnyFalse(cs, s);
      assert HasStatus(s1, cs.happy, ConditionFalse);
    } else if op.t in cs.dependents {
      SetMeaning(cs, s1, cs.Mark(cs.happy, ConditionUnknown, op.reason, op.message), op.now);
      RepeatSet(cs, s', cs.Mark(cs.happy, ConditionUnknown, op.reason, op.message), later);
      NoneFalse(cs, s1, s');
      assert forall i :: 0 <= i < |cs.dependents| ==> cs.dependents[i] in cs.dependents;
      assert !SomeDependentFalse(cs, s');
    }
  }

  // A condition that already says the same is not touched.
  lemma RepeatSet(cs: ConditionSet, s: seq<Condition>, cond: Condition, now: int)
    requires WellFormed(cs, s) && Find(s, cond.ctype).Some? && SameButTime(cond, Find(s, cond.ctype).value)
    ensures Set(s, cond, now) == s
  {
    SetCases(s, cond, now);
  }

  lemma RecomputeRepeats(cs: ConditionSet, s1: seq<Condition>, t: ConditionType, now: int, later: int)
    requires WellFormed(cs, s1) && t != cs.happy
    ensures Recompute(cs, Recompute(cs, s1, t, now), t, later) == Recompute(cs, s1, t, now)
  {
    hide Unhappy, Set, Find, WellFormed, Less;
    var mark := match Unhappy(cs, s1)
      case Some(c) => cs.Mark(cs.happy, c.status, c.reason, c.message)
      case None => cs.Mark(cs.happy, ConditionTrue, NoReason, NoMessage);
    UnhappyIgnoresHappy(cs, s1, mark, now);
    RepeatedSet(cs, s1, mark, now, later);
  }

  lemma RepeatedSet(cs: ConditionSet, s: seq<Condition>, mark: Condition, now: int, later: int)
    requires WellFormed(cs, s) && mark.ctype == cs.happy && mark.severity == cs.SeverityOf(cs.happy)
    ensures Set(Set(s, mark, now), mark, later) == Set(s, mark, now)
  {
    SetMeaning(cs, s, mark, now);
    RepeatSet(cs, Set(s, mark, now), mark, later);
  }

  lemma UnhappyIgnoresHappy(cs: ConditionSet, s: seq<Condition>, mark: Condition, now: int)
    requires WellFormed(cs, s) && mark.ctype == cs.happy
    ensures Unhappy(cs, Set(s, mark, now)) == Unhappy(cs, s)
  {
    RelevantIgnoresHappy(cs, s, mark, now);
  }

  // findUnhappyDependent does not see the happy condition, so setting it changes nothing there.
  lemma RelevantIgnoresHappy(cs: ConditionSet, s: seq<Condition>, mark: Condition, now: int)
    requires WellFormed(cs, s) && mark.ctype == cs.happy
    ensures RelevantOf(cs, Set(s, mark, now)) == RelevantOf(cs, s)
  {
    SetCases(s, mark, now);
    if !Unchanged(s, mark) {
      RelevantOfInsert(cs, mark.(time := now), Without(s, cs.happy));
      RelevantOfWithout(cs, s);
    }
  }

  lemma {:induction false} RelevantOfConcat(cs: ConditionSet, a: seq<Condition>, b: seq<Condition>)
    ensures RelevantOf(cs, a + b) == RelevantOf(cs, a) + RelevantOf(cs, b)
  {
    if b == [] {
      assert a + b == a;
    } else {
      var init, last := b[..|b| - 1], b[|b| - 1];
      assert (a + b)[..|a + b| - 1] == a + init;
      RelevantOfConcat(cs, a, init);
    }
  }

  lemma {:induction false} RelevantOfInsert(cs: ConditionSet, c: Condition, s: seq<Condition>)
    requires c.ctype == cs.happy
    ensures RelevantOf(cs, InsertByType(c, s)) == RelevantOf(cs, s)
  {
    assert RelevantOf(cs, [c]) == [] by { assert [c][..0] == []; }
    if s == [] || Less(c.ctype, s[0].ctype) {
      RelevantOfConcat(cs, [c], s);
    } else {
      assert s == [s[0]] + s[1..];
      RelevantOfInsert(cs, c, s[1..]);
      RelevantOfConcat(cs, [s[0]], InsertByType(c, s[1..]));
      RelevantOfConcat(cs, [s[0]], s[1..]);
    }
  }

  lemma {:induction false} RelevantOfWithout(cs: ConditionSet, s: seq<Condition>)
    ensures RelevantOf(cs, Without(s, cs.happy)) == RelevantOf(cs, s)
  {
    if s != [] {
      var init, last := s[..|s| - 1], s[|s| - 1];
      RelevantOfWithout(cs, init);
      if last.ctype != cs.happy {
        var w := Without(init, cs.happy);
        assert (w + [last])[..|w|] == w;
      }
    }
  }
}
