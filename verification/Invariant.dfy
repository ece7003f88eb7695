/** What every committed transaction of the publication journal keeps. */
module Invariant {
  import opened Common
  import opened Publication
  import opened Tables
  import opened Transactions
  import opened Slots
  import opened Folds
  import Evidence
  import Reducers
  import Submissions

  // ---------------------------------------------------------------- one action

  predicate RetryOk(act: Action) {
    act.retry.Some? ==>
      && IsProduct(act.kind) && Answered(act)
      && Unreadable(act.attempt.value.answer.value.submission)
      && act.attempt.value.answer.value.at + RetryDelay <= act.retry.value.startedAt
  }

  /** How far an action has come decides which of its rows exist. */
  predicate Lifecycle(act: Action) {
    match act.state
    case Planned => act.attempt.None? && act.retry.None? && act.outcome.None? && AllPending(act)
    case Dispatching => act.attempt.Some? && act.attempt.value.answer.None? && act.retry.None? &&
                        act.outcome.None? && AllPending(act)
    case Reconciling => Answered(act) && act.outcome.None? && (act.kind.UploadMedia? ==> AllPending(act)) &&
                        !act.attempt.value.answer.value.submission.disposition.RejectedProven?
    case Terminal => (act.attempt.Some? ==> Answered(act)) && act.outcome.Some? && AllSettled(act)
    case Superseded => act.attempt.None? && act.outcome == Some(Skipped) && AllSettled(act)
  }

  ghost predicate ActionOk(act: Action) {
    && act.members != [] && Evidence.GoodIds(act.members)
    && (act.kind.UploadMedia? ==> |act.members| == 1)
    && KeysOk(act) && RetryOk(act) && Lifecycle(act)
  }

  ghost predicate ActionsOk(db: Tables) {
    forall a :: a in db.actions ==> ActionOk(db.actions[a])
  }

  // ---------------------------------------------------------------- plans

  predicate PlanOk(db: Tables, p: int)
    requires p in db.plans
  {
    match db.plans[p].state
    case Awaiting => !Attempted(db, p)
    case Executing => Attempted(db, p) && Unfinished(db, p)
    case PlanTerminal => !Unfinished(db, p)
    case PlanSuperseded => !Attempted(db, p) && !Unfinished(db, p)
  }

  ghost predicate PlansOk(db: Tables) {
    && (forall a :: a in db.actions ==> db.actions[a].plan in db.plans)
    && (forall p :: p in db.plans ==> PlanOk(db, p))
  }

  ghost predicate Inv(db: Tables) {
    ActionsOk(db) && SlotsOk(db) && PlansOk(db)
  }

  /** Plan `q` and its actions are all that changed; no attempt row is lost. */
  ghost predicate Within(db: Tables, next: Tables, q: int) {
    && next.actions.Keys == db.actions.Keys && next.plans.Keys == db.plans.Keys
    && (forall a :: a in db.actions ==> next.actions[a].plan == db.actions[a].plan)
    && (forall a :: a in db.actions && db.actions[a].plan != q ==> next.actions[a] == db.actions[a])
    && (forall p :: p in db.plans && p != q ==> next.plans[p] == db.plans[p])
  }

  lemma OtherPlan(db: Tables, next: Tables, q: int, p: int)
    requires Within(db, next, q) && p in db.plans && p != q && PlanOk(db, p)
    ensures PlanOk(next, p)
  {
    assert forall a :: InPlan(next, p, a) <==> InPlan(db, p, a);
    if Attempted(db, p) {
      var a :| a in db.actions && InPlan(db, p, a) && db.actions[a].attempt.Some?;
      assert InPlan(next, p, a);
    }
    if Unfinished(db, p) {
      var a :| a in db.actions && InPlan(db, p, a) && !Finished(db.actions[a].state);
      assert InPlan(next, p, a);
    }
  }

  lemma PlansWithin(db: Tables, next: Tables, q: int)
    requires PlansOk(db) && Within(db, next, q) && (q in db.plans ==> PlanOk(next, q))
    ensures PlansOk(next)
  {
    forall p | p in next.plans ensures PlanOk(next, p) {
      if p != q { OtherPlan(db, next, q, p); }
    }
  }

  /** A plan with an open attempted action is executing. */
  lemma OpenMeansExecuting(db: Tables, a: int)
    requires PlansOk(db) && a in db.actions && db.actions[a].attempt.Some? && !Finished(db.actions[a].state)
    ensures db.actions[a].plan in db.plans && db.plans[db.actions[a].plan].state.Executing?
  {
    var p := db.actions[a].plan;
    assert InPlan(db, p, a) && PlanOk(db, p);
  }

  /** One row of an executing plan changed and it is still open. */
  lemma StillExecuting(db: Tables, next: Tables, a: int)
    requires PlansOk(db) && a in db.actions && db.actions[a].attempt.Some? && !Finished(db.actions[a].state)
    requires Within(db, next, db.actions[a].plan) && next.plans == db.plans
    requires next.actions[a].attempt.Some? && !Finished(next.actions[a].state)
    ensures PlansOk(next)
  {
    OpenMeansExecuting(db, a);
    assert InPlan(next, db.actions[a].plan, a);
    PlansWithin(db, next, db.actions[a].plan);
  }

  lemma ReducedPlanOk(db: Tables, q: int)
    requires q in db.plans
    requires if db.plans[q].state.Executing? then Attempted(db, q) else db.plans[q].state.Awaiting? && !Attempted(db, q)
    ensures PlanOk(Reduce(db, q), q)
  {
    SameActions(db, Reduce(db, q), q);
    if Attempted(db, q) {
      var a :| a in db.actions && InPlan(db, q, a) && db.actions[a].attempt.Some?;
      assert a in ActionsOf(db, q);
    }
  }

  /** Closing a plan that may have run out of open actions restores its lifecycle. */
  lemma ReduceRestores(db: Tables, next: Tables, q: int)
    requires PlansOk(db) && Within(db, next, q) && next.plans == db.plans && q in db.plans
    requires if db.plans[q].state.Executing? then Attempted(next, q) else db.plans[q].state.Awaiting? && !Attempted(next, q)
    ensures PlansOk(Reduce(next, q))
    ensures Reduce(next, q).actions == next.actions && Reduce(next, q).identities == next.identities
  {
    ReducedPlanOk(next, q);
    PlansWithin(db, Reduce(next, q), q);
  }

  lemma SameActions(db: Tables, next: Tables, q: int)
    requires db.actions == next.actions
    ensures Attempted(db, q) == Attempted(next, q) && Unfinished(db, q) == Unfinished(next, q)
  {
    assert forall a :: InPlan(next, q, a) <==> InPlan(db, q, a);
  }
}
