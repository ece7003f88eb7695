/**
 The count-based SQL reducers that turn member outcomes into an action class and action
 outcomes into a plan class, and exactly when they agree with one another.
 */
module Reducers {
  import opened Publication
  import Evidence

  /** The counters every reducer reads. */
  datatype Tally = Tally(total: nat, rejected: nat, partial: nat, unresolved: nat, internal: nat, accepted: nat)

  /** The counters account for every row: all of them have an outcome. */
  predicate Full(t: Tally) {
    t.total == t.rejected + t.partial + t.unresolved + t.internal + t.accepted
  }

  predicate NeedsAttention(t: Tally) { t.unresolved > 0 || t.internal > 0 }

  /** The reducer the resolution path runs over the members of an action. */
  function ResolvedActionClass(members: Tally): ResultClass {
    if NeedsAttention(members) then Unresolved
    else if members.rejected == members.total then Rejected
    else if members.rejected > 0 && members.accepted > 0 then Partial
    else Success
  }

  /** The reducer the dispatch path runs over the actions of a plan. */
  function DispatchedPlanClass(actions: Tally): ResultClass {
    if NeedsAttention(actions) then Unresolved
    else if actions.rejected == actions.total then Rejected
    else if actions.rejected > 0 && actions.accepted > 0 then Partial
    else Success
  }

  /** The reducer the resolution path runs over the actions of a plan. */
  function ResolvedPlanClass(actions: Tally): ResultClass {
    if NeedsAttention(actions) then Unresolved
    else if actions.rejected == actions.total then Rejected
    else if actions.rejected > 0 || actions.partial > 0 then Partial
    else Success
  }

  // ---------------------------------------------------------------- counting a sequence of classes

  /** COUNT(*) FILTER (WHERE outcome_class = c). */
  function Count(classes: seq<ResultClass>, c: ResultClass): nat {
    if classes == [] then 0
    else
      var n := |classes| - 1;
      Count(classes[..n], c) + (if classes[n] == c then 1 else 0)
  }

  function TallyOf(classes: seq<ResultClass>): Tally {
    Tally(|classes|, Count(classes, Rejected), Count(classes, Partial), Count(classes, Unresolved),
          Count(classes, InternalError), Count(classes, Success) + Count(classes, Skipped))
  }

  lemma {:induction false} CountZero(classes: seq<ResultClass>, c: ResultClass)
    ensures Count(classes, c) == 0 <==> c !in classes
  {
    if classes != [] {
      var n := |classes| - 1;
      CountZero(classes[..n], c);
      assert classes == classes[..n] + [classes[n]];
    }
  }

  lemma {:induction false} TallyIsFull(classes: seq<ResultClass>)
    ensures Full(TallyOf(classes))
  {
    if classes != [] {
      TallyIsFull(classes[..|classes| - 1]);
    }
  }

  lemma CountsMeaning(classes: seq<ResultClass>)
    ensures forall c :: Count(classes, c) == 0 <==> c !in classes
    ensures Full(TallyOf(classes))
  {
    forall c ensures Count(classes, c) == 0 <==> c !in classes { CountZero(classes, c); }
    TallyIsFull(classes);
  }

  // ---------------------------------------------------------------- agreement

  /** The polling fold and the SQL reducer give an action the same class exactly on these members. */
  lemma ActionReducersAgreeIff(members: seq<ResultClass>)
    requires members != []
    ensures Evidence.ActionClass(members) == ResolvedActionClass(TallyOf(members)) <==>
            Partial !in members || Unresolved in members || InternalError in members
  {
    CountsMeaning(members);
    if Unresolved in members || InternalError in members {
      var bad := if Unresolved in members then Unresolved else InternalError;
      var i :| 0 <= i < |members| && members[i] == bad;
      assert !Evidence.Accepts(members[i]) && !members[i].Rejected?;
    } else if Partial in members {
      var i :| 0 <= i < |members| && members[i] == Partial;
      assert !Evidence.Accepts(members[i]) && !members[i].Rejected?;
    } else {
      assert forall i :: 0 <= i < |members| ==> members[i] in members;
      if Rejected in members {
        var i :| 0 <= i < |members| && members[i] == Rejected;
        assert !Evidence.Accepts(members[i]);
      }
    }
  }

  /** Exactly when dispatch and resolution reduce a plan to the same class. */
  lemma PlanReducersAgreeIff(actions: seq<ResultClass>)
    ensures DispatchedPlanClass(TallyOf(actions)) == ResolvedPlanClass(TallyOf(actions)) <==>
            || Unresolved in actions || InternalError in actions
            || Partial !in actions
            || (Rejected in actions && (Success in actions || Skipped in actions))
  {
    CountsMeaning(actions);
  }

  /** A plan of one rejected and one partial action ends as a success on the dispatch path only. */
  lemma PlanReducersDiffer()
    ensures DispatchedPlanClass(TallyOf([Rejected, Partial])) == Success
    ensures ResolvedPlanClass(TallyOf([Rejected, Partial])) == Partial
  {
    var pair := [Rejected, Partial];
    assert pair[..1] == [Rejected] && pair[..1][..0] == [];
    assert forall c :: Count(pair, c) == Count([Rejected], c) + (if c == Partial then 1 else 0);
  }

  // ---------------------------------------------------------------- the classes the rules give

  predicate All(classes: seq<ResultClass>, c: ResultClass) { forall i :: 0 <= i < |classes| ==> classes[i] == c }

  lemma {:induction false} CountAll(classes: seq<ResultClass>, c: ResultClass)
    ensures Count(classes, c) <= |classes| && (Count(classes, c) == |classes| <==> All(classes, c))
  {
    if classes != [] {
      var n := |classes| - 1;
      CountAll(classes[..n], c);
      assert forall i :: 0 <= i < n ==> classes[..n][i] == classes[i];
    }
  }

  /** What the counters tell about the classes. */
  lemma Counters(classes: seq<ResultClass>)
    ensures var t := TallyOf(classes);
            && (t.unresolved > 0 <==> Unresolved in classes) && (t.internal > 0 <==> InternalError in classes)
            && (t.rejected > 0 <==> Rejected in classes) && (t.partial > 0 <==> Partial in classes)
            && (t.accepted > 0 <==> Success in classes || Skipped in classes)
            && (t.rejected == t.total <==> All(classes, Rejected))
  {
    CountZero(classes, Unresolved);
    CountZero(classes, InternalError);
    CountZero(classes, Rejected);
    CountZero(classes, Partial);
    CountZero(classes, Success);
    CountZero(classes, Skipped);
    CountAll(classes, Rejected);
  }

  /** Attention first; all rejected; some rejected beside some accepted; anything else is a success. */
  lemma ActionClassOf(members: seq<ResultClass>)
    ensures ResolvedActionClass(TallyOf(members)) ==
            if Unresolved in members || InternalError in members then Unresolved
            else if All(members, Rejected) then Rejected
            else if Rejected in members && (Success in members || Skipped in members) then Partial
            else Success
  {
    Counters(members);
  }

  /** The dispatch rule gives a plan the same class from its actions. */
  lemma DispatchedClassOf(actions: seq<ResultClass>)
    ensures DispatchedPlanClass(TallyOf(actions)) ==
            if Unresolved in actions || InternalError in actions then Unresolved
            else if All(actions, Rejected) then Rejected
            else if Rejected in actions && (Success in actions || Skipped in actions) then Partial
            else Success
  {
    Counters(actions);
  }

  /** The resolution rule also calls a plan partial for a partial action, or a rejected one beside anything. */
  lemma ResolvedClassOf(actions: seq<ResultClass>)
    ensures ResolvedPlanClass(TallyOf(actions)) ==
            if Unresolved in actions || InternalError in actions then Unresolved
            else if All(actions, Rejected) then Rejected
            else if Rejected in actions || Partial in actions then Partial
            else Success
  {
    Counters(actions);
  }
}
