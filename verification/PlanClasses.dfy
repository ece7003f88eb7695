/**
 The stored class of a finished plan is always a reduction of the current classes of its actions: by the dispatch rule
 until a member of the plan is resolved, and by the resolution rule from then on.
 */
module PlanClasses {
  import opened Common
  import opened Publication
  import opened Tables
  import opened Transactions
  import opened Slots
  import opened Folds
  import opened Invariant
  import opened Preservation
  import opened Journal
  import Evidence
  import Reducers

  /** The plans that had a member of theirs resolved are reduced by the one rule, all others by the other. */
  ghost function CurrentClass(db: Tables, p: int, resolved: set<int>): ResultClass {
    if p in resolved then Reducers.ResolvedPlanClass(PlanTally(db, p)) else Reducers.DispatchedPlanClass(PlanTally(db, p))
  }

  /** The class of a finished plan follows from its actions as they are now; a resolved plan is finished. */
  ghost predicate PlanClassOk(db: Tables, p: int, resolved: set<int>)
    requires p in db.plans
  {
    && (p in resolved ==> db.plans[p].state.PlanTerminal?)
    && (db.plans[p].state.PlanTerminal? && ActionsOf(db, p) != {} ==> db.plans[p].outcome == Some(CurrentClass(db, p, resolved)))
  }

  ghost predicate PlanClassesOk(db: Tables, resolved: set<int>) {
    && resolved <= db.plans.Keys
    && forall p :: p in db.plans ==> PlanClassOk(db, p, resolved)
  }

  /** The plans resolved so far, once the transaction has committed. */
  ghost function ResolvedAfter(db: Tables, tx: Tx, resolved: set<int>): set<int> {
    if tx.TxResolve? && tx.a in db.actions then resolved + {db.actions[tx.a].plan} else resolved
  }

  /** A tally looks at the actions of its plan only. */
  lemma SameTally(db: Tables, next: Tables, p: int)
    requires forall a :: InPlan(next, p, a) <==> InPlan(db, p, a)
    requires forall a :: InPlan(db, p, a) && InPlan(next, p, a) ==> next.actions[a].outcome == db.actions[a].outcome
    ensures ActionsOf(next, p) == ActionsOf(db, p) && PlanTally(next, p) == PlanTally(db, p)
  {
    forall cls ensures WithClass(next, p, cls) == WithClass(db, p, cls) { }
  }

  lemma ClassesWithin(db: Tables, next: Tables, q: int, resolved: set<int>)
    requires PlanClassesOk(db, resolved) && Within(db, next, q) && (q in db.plans ==> PlanClassOk(next, q, resolved))
    ensures PlanClassesOk(next, resolved)
  {
    forall p | p in next.plans ensures PlanClassOk(next, p, resolved) {
      if p != q {
        assert PlanClassOk(db, p, resolved);
        SameTally(db, next, p);
      }
    }
  }

  /** The same when `q` is resolved for the first time or again. */
  lemma MarkedWithin(db: Tables, next: Tables, q: int, resolved: set<int>)
    requires PlanClassesOk(db, resolved) && Within(db, next, q) && q in db.plans && PlanClassOk(next, q, resolved + {q})
    ensures PlanClassesOk(next, resolved + {q})
  {
    forall p | p in next.plans ensures PlanClassOk(next, p, resolved + {q}) {
      if p != q {
        assert PlanClassOk(db, p, resolved);
        SameTally(db, next, p);
      }
    }
  }

  lemma ReducedClass(db: Tables, q: int, resolved: set<int>)
    requires q in db.plans && q !in resolved && (db.plans[q].state.Executing? || db.plans[q].state.Awaiting?)
    ensures PlanClassOk(Reduce(db, q), q, resolved)
  {
    SameTally(db, Reduce(db, q), q);
  }

  /** The plan is left open, or reduced. */
  lemma ReduceClasses(db: Tables, next: Tables, q: int, resolved: set<int>)
    requires PlanClassesOk(db, resolved) && Within(db, next, q) && next.plans == db.plans && q in db.plans
    requires db.plans[q].state.Executing? || db.plans[q].state.Awaiting?
    ensures PlanClassesOk(Reduce(next, q), resolved)
  {
    ReducedClass(next, q, resolved);
    ClassesWithin(db, Reduce(next, q), q, resolved);
  }

  // ---------------------------------------------------------------- transactions

  lemma OpenRowClasses(db: Tables, next: Tables, a: int, resolved: set<int>)
    requires PlansOk(db) && PlanClassesOk(db, resolved) && a in db.actions && a in next.actions
    requires db.actions[a].attempt.Some? && !Finished(db.actions[a].state)
    requires next.plans == db.plans && next.actions == db.actions[a := next.actions[a]] && next.actions[a].plan == db.actions[a].plan
    ensures PlanClassesOk(next, resolved)
  {
    OpenMeansExecuting(db, a);
    ClassesWithin(db, next, db.actions[a].plan, resolved);
  }

  lemma CloseClasses(start: Tables, db: Tables, a: int, cls: ResultClass, resolved: set<int>)
    requires ReadyToClose(start, db, a) && PlanClassesOk(start, resolved)
    ensures PlanClassesOk(Close(db, a, cls), resolved)
  {
    ClosedActions(start, db, a, cls);
    OpenMeansExecuting(start, a);
    ReduceClasses(start, Closed(db, a, cls), start.actions[a].plan, resolved);
  }

  lemma RejectClasses(db: Tables, a: int, s: Submission, now: int, resolved: set<int>)
    requires Inv(db) && PlanClassesOk(db, resolved) && CanReject(db, a, s, now)
    ensures PlanClassesOk(Reject(db, a, s, now), resolved)
  {
    var answered, settled := RecordAnswer(db, a, s, now), Rejections(db, a, s, now).value;
    assert ActionOk(db.actions[a]);
    AnswerKeepsSlots(db, a, s, now);
    RejectMembersKeeps(answered, a, |db.actions[a].members|, s.members);
    assert AllSettled(settled.actions[a]);
    CloseClasses(db, settled, a, RejectionClass(db.actions[a].members, s.members), resolved);
  }

  lemma PollClasses(db: Tables, a: int, results: seq<MemberResult>, resolved: set<int>)
    requires Inv(db) && PlanClassesOk(db, resolved) && CanPoll(db, a, results)
    requires forall i :: 0 <= i < |results| ==> Evidential(results[i])
    ensures PlanClassesOk(Poll(db, a, results), resolved)
  {
    PollSettles(db, a, results);
    OpenRowClasses(db, Poll(db, a, results), a, resolved);
  }

  lemma ConcludeClasses(db: Tables, a: int, results: seq<MemberResult>, cls: ResultClass, resolved: set<int>)
    requires Inv(db) && PlanClassesOk(db, resolved) && CanConclude(db, a, results)
    requires forall i :: 0 <= i < |results| ==> Evidential(results[i])
    ensures PlanClassesOk(Conclude(db, a, results, cls), resolved)
  {
    PollSettles(db, a, results);
    assert ActionOk(db.actions[a]);
    CloseClasses(db, Poll(db, a, results), a, cls, resolved);
  }

  lemma InsertClasses(db: Tables, p: int, drafts: map<int, Action>, identities: seq<IdentityDraft>, cls: ResultClass, resolved: set<int>)
    requires Inv(db) && PlanClassesOk(db, resolved) && CanInsertPlan(db, p, drafts, identities)
    ensures PlanClassesOk(InsertPlan(db, p, drafts, identities, cls), resolved)
  {
    var next := InsertPlan(db, p, drafts, identities, cls);
    forall q | q in next.plans ensures PlanClassOk(next, q, resolved) {
      if q != p {
        assert PlanClassOk(db, q, resolved);
        SameTally(db, next, q);
      } else if drafts == map[] {
        assert ActionsOf(next, p) == {} by { assert forall a :: a in db.actions ==> db.actions[a].plan in db.plans; }
      }
    }
  }

  lemma AbortClasses(db: Tables, p: int, resolved: set<int>)
    requires Inv(db) && PlanClassesOk(db, resolved) && CanAbort(db, p)
    ensures PlanClassesOk(Abort(db, p), resolved)
  {
    AbortedPlanExecutes(db, p);
    ReduceClasses(db, AbortRows(db, p), p, resolved);
  }

  lemma SkipMediaClasses(db: Tables, a: int, resolved: set<int>)
    requires Inv(db) && PlanClassesOk(db, resolved) && CanSkipMedia(db, a)
    ensures PlanClassesOk(SkipMediaAction(db, a), resolved)
  {
    var next := db.(actions := db.actions[a := Skip(db.actions[a])]);
    assert ActionOk(db.actions[a]);
    SkippedPlanOpen(db, next, a);
    ReduceClasses(db, next, db.actions[a].plan, resolved);
  }

  lemma FinishMediaClasses(start: Tables, db: Tables, a: int, o: Outcome, resolved: set<int>)
    requires Inv(start) && PlanClassesOk(start, resolved) && a in start.actions && start.actions[a].attempt.Some? && !Finished(start.actions[a].state)
    requires IsMedia(db, a) && KeyOf(db.actions[a], 0) in db.identities
    requires db == start.(actions := start.actions[a := start.actions[a].(attempt := db.actions[a].attempt)])
    ensures PlanClassesOk(FinishMedia(db, a, o), resolved)
  {
    OpenMeansExecuting(start, a);
    ReduceClasses(start, MediaEnded(db, a, o), start.actions[a].plan, resolved);
  }

  lemma ResolveClasses(db: Tables, a: int, i: nat, revision: nat, ruling: Ruling, resolved: set<int>)
    requires Inv(db) && PlanClassesOk(db, resolved) && Resolvable(db, a, i, revision) && RulingProved(db, a, i, ruling) && AllSettled(db.actions[a])
    ensures PlanClassesOk(Resolve(db, a, i, ruling), resolved + {db.actions[a].plan})
  {
    var corrected := Corrected(db, a, i, ruling);
    CorrectedKeeps(db, a, i, revision, ruling);
    ResolvedClass(corrected, a, resolved);
    MarkedWithin(db, Resolved(corrected, a), db.actions[a].plan, resolved);
  }

  lemma ResolvedClass(db: Tables, a: int, resolved: set<int>)
    requires a in db.actions && AllSettled(db.actions[a]) && db.actions[a].plan in db.plans
    ensures PlanClassOk(Resolved(db, a), db.actions[a].plan, resolved + {db.actions[a].plan})
  {
    var p, next := db.actions[a].plan, Resolved(db, a);
    SameTally(next.(plans := db.plans), next, p);
  }

  lemma StartClasses(db: Tables, next: Tables, a: int, resolved: set<int>)
    requires PlanClassesOk(db, resolved) && a in db.actions && a in next.actions && db.actions[a].plan in db.plans
    requires next.actions == db.actions[a := next.actions[a]] && next.actions[a].plan == db.actions[a].plan
    requires PlanOpen(db, db.actions[a].plan) && next.plans == db.plans[db.actions[a].plan := Plan(Executing, None)]
    ensures PlanClassesOk(next, resolved)
  {
    ClassesWithin(db, next, db.actions[a].plan, resolved);
  }

  lemma MediaClasses(db: Tables, tx: Tx, now: int, resolved: set<int>)
    requires Inv(db) && PlanClassesOk(db, resolved) && Can(db, tx, now)
    requires tx.TxBeginMedia? || tx.TxSkipMedia? || tx.TxRecordMedia? || tx.TxSchedule? || tx.TxConcludeMedia?
    ensures PlanClassesOk(Do(db, tx, now), resolved)
  {
    match tx
    case TxBeginMedia(a, _, baseline) => StartClasses(db, BeginMedia(db, a, baseline, now), a, resolved);
    case TxSkipMedia(a) => SkipMediaClasses(db, a, resolved);
    case TxRecordMedia(a, _, s, o) => FinishMediaClasses(db, RecordAnswer(db, a, s, now), a, o, resolved);
    case TxSchedule(a, s) => OpenRowClasses(db, ScheduleVisibility(db, a, s, now), a, resolved);
    case TxConcludeMedia(a, _, o) => FinishMediaClasses(db, db, a, o, resolved);
  }

  lemma ProductClasses(db: Tables, tx: Tx, now: int, resolved: set<int>)
    requires Inv(db) && PlanClassesOk(db, resolved) && Can(db, tx, now) && FromEvidence(tx)
    requires tx.TxBeginAttempt? || tx.TxAwait? || tx.TxReject? || tx.TxBeginRetry? || tx.TxRecordRetry? || tx.TxPoll? || tx.TxConclude?
    ensures PlanClassesOk(Do(db, tx, now), resolved)
  {
    assert ActionOk(db.actions[tx.a]);
    match tx
    case TxBeginAttempt(a, baseline) => StartClasses(db, BeginAttempt(db, a, baseline, now), a, resolved);
    case TxReject(a, s) => RejectClasses(db, a, s, now, resolved);
    case TxPoll(a, results) => PollClasses(db, a, results, resolved);
    case TxConclude(a, results, cls) => ConcludeClasses(db, a, results, cls, resolved);
    case TxAwait(a, s) => OpenRowClasses(db, AwaitEvidence(db, a, s, now), a, resolved);
    case TxBeginRetry(a) => OpenRowClasses(db, BeginRetry(db, a, now), a, resolved);
    case TxRecordRetry(a, s) => OpenRowClasses(db, RecordRetry(db, a, s, now), a, resolved);
  }

  /** Every transaction keeps every finished plan's class the one its rule gives; a resolution changes the rule. */
  lemma CommitKeepsPlanClasses(db: Tables, tx: Tx, now: int, resolved: set<int>)
    requires Inv(db) && PlanClassesOk(db, resolved) && Can(db, tx, now) && FromEvidence(tx)
    ensures PlanClassesOk(Do(db, tx, now), ResolvedAfter(db, tx, resolved))
  {
    if tx.TxInsertPlan? {
      InsertClasses(db, tx.plan, tx.drafts, tx.identities, tx.preflight, resolved);
    } else if tx.TxSupersede? {
      ClassesWithin(db, Supersede(db, tx.plan), tx.plan, resolved);
    } else if tx.TxAbort? {
      AbortClasses(db, tx.plan, resolved);
    } else if tx.TxResolve? {
      ResolveClasses(db, tx.a, tx.i, tx.revision, tx.ruling, resolved);
    } else if tx.TxBeginMedia? || tx.TxSkipMedia? || tx.TxRecordMedia? || tx.TxSchedule? || tx.TxConcludeMedia? {
      MediaClasses(db, tx, now, resolved);
    } else {
      ProductClasses(db, tx, now, resolved);
    }
  }

  // ---------------------------------------------------------------- when the two rules differ

  ghost predicate HasClass(db: Tables, p: int, cls: ResultClass) {
    exists a :: a in db.actions && InPlan(db, p, a) && db.actions[a].outcome == Some(cls)
  }

  lemma HasClassIff(db: Tables, p: int, cls: ResultClass)
    ensures |WithClass(db, p, cls)| > 0 <==> HasClass(db, p, cls)
  {
    if a :| a in db.actions && InPlan(db, p, a) && db.actions[a].outcome == Some(cls) {
      assert a in WithClass(db, p, cls);
    }
    if |WithClass(db, p, cls)| > 0 {
      var a :| a in WithClass(db, p, cls);
      assert a in db.actions && InPlan(db, p, a) && db.actions[a].outcome == Some(cls);
    }
  }

  /** The counters of a plan account for every action once all of them have a class. */
  lemma PlanTallyIsFull(db: Tables, p: int)
    requires forall a :: a in db.actions && InPlan(db, p, a) ==> db.actions[a].outcome.Some?
    ensures Reducers.Full(PlanTally(db, p))
  {
    var found := WithClass(db, p, Rejected) + WithClass(db, p, Partial) + WithClass(db, p, Unresolved);
    var rest := WithClass(db, p, InternalError) + WithClass(db, p, Success) + WithClass(db, p, Skipped);
    forall a | a in ActionsOf(db, p) ensures a in found + rest {
      match db.actions[a].outcome.value
      case Rejected => assert a in WithClass(db, p, Rejected);
      case Partial => assert a in WithClass(db, p, Partial);
      case Unresolved => assert a in WithClass(db, p, Unresolved);
      case InternalError => assert a in WithClass(db, p, InternalError);
      case Success => assert a in WithClass(db, p, Success);
      case Skipped => assert a in WithClass(db, p, Skipped);
    }
    assert ActionsOf(db, p) == found + rest;
    ThreeParts(WithClass(db, p, Rejected), WithClass(db, p, Partial), WithClass(db, p, Unresolved));
    ThreeParts(WithClass(db, p, InternalError), WithClass(db, p, Success), WithClass(db, p, Skipped));
    assert found !! rest;
  }

  lemma ThreeParts(x: set<int>, y: set<int>, z: set<int>)
    requires x !! y && x !! z && y !! z
    ensures |x + y + z| == |x| + |y| + |z|
  {
    assert x + y !! z;
  }

  /** On the actions of a finished plan the dispatch rule and the resolution rule agree exactly in these cases. */
  lemma PlanRulesAgreeIff(db: Tables, p: int)
    requires Inv(db) && p in db.plans && db.plans[p].state.PlanTerminal?
    ensures Reducers.DispatchedPlanClass(PlanTally(db, p)) == Reducers.ResolvedPlanClass(PlanTally(db, p)) <==>
            || HasClass(db, p, Unresolved) || HasClass(db, p, InternalError)
            || !HasClass(db, p, Partial)
            || (HasClass(db, p, Rejected) && (HasClass(db, p, Success) || HasClass(db, p, Skipped)))
  {
    assert PlanOk(db, p);
    forall a | a in db.actions && InPlan(db, p, a) ensures db.actions[a].outcome.Some? {
      assert ActionOk(db.actions[a]) && Finished(db.actions[a].state);
    }
    PlanTallyIsFull(db, p);
    HasClassIff(db, p, Unresolved);
    HasClassIff(db, p, InternalError);
    HasClassIff(db, p, Partial);
    HasClassIff(db, p, Rejected);
    HasClassIff(db, p, Success);
    HasClassIff(db, p, Skipped);
  }
}
