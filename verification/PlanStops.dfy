/** What stopping a plan and finishing its last action do, row by row. */
module PlanStops {
  import opened Common
  import opened Publication
  import opened Tables
  import opened Transactions
  import opened Slots
  import opened Invariant
  import opened Preservation

  /** The row ended with the class, and every member that had no result now has this one. */
  predicate EndedWith(x: Action, y: Action, state: ActionState, cls: ResultClass, code: SafeCode) {
    && y.state == state && y.outcome == Some(cls) && y.revision == x.revision + 1
    && y.plan == x.plan && y.seller == x.seller && y.kind == x.kind && y.request == x.request
    && y.attempt == x.attempt && y.retry == x.retry && |y.members| == |x.members|
    && forall i :: 0 <= i < |x.members| ==>
         y.members[i] == if x.members[i].outcome.None? then x.members[i].(outcome := Some(Outcome(cls, code, 0))) else x.members[i]
  }

  /** Superseding a plan skips all its actions and ends it; nothing was sent, and nothing else changes. */
  lemma SupersedeEnds(db: Tables, p: int, a: int)
    requires CanSupersede(db, p)
    ensures var next := Supersede(db, p);
            && next.plans == db.plans[p := Plan(PlanSuperseded, Some(Skipped))]
            && next.identities == db.identities && next.batches == db.batches && (a in next.actions <==> a in db.actions)
            && (a in db.actions && db.actions[a].plan == p ==>
                  EndedWith(db.actions[a], next.actions[a], Superseded, Skipped, RecheckRemoteChanged) && db.actions[a].attempt.None?)
            && (a in db.actions && db.actions[a].plan != p ==> next.actions[a] == db.actions[a])
  {
    if a in db.actions && db.actions[a].plan == p {
      assert InPlan(db, p, a);
    }
  }

  /** A plan can be superseded exactly while it awaits authorization, all its actions are planned and none was attempted. */
  lemma SupersedableIff(db: Tables, p: int)
    requires Inv(db)
    ensures CanSupersede(db, p) <==>
            p in db.plans && db.plans[p].state == Awaiting &&
            forall a :: a in db.actions && db.actions[a].plan == p ==> db.actions[a].state == Planned
  {
    if p in db.plans && db.plans[p].state == Awaiting {
      assert PlanOk(db, p);
    }
    forall a | a in db.actions && db.actions[a].plan == p ensures InPlan(db, p, a) { }
  }

  /** Aborting a plan ends its planned actions, products as unresolved and media as skipped, and no action that was begun. */
  lemma AbortEnds(db: Tables, p: int, a: int)
    requires a in db.actions
    ensures var (x, next) := (db.actions[a], Abort(db, p));
            && next.actions.Keys == db.actions.Keys && next.batches == db.batches
            && (x.plan == p && x.state == Planned && x.kind == UploadMedia ==>
                  EndedWith(x, next.actions[a], Terminal, Skipped, AttributionUnavailable))
            && (x.plan == p && x.state == Planned && x.kind != UploadMedia ==>
                  EndedWith(x, next.actions[a], Terminal, Unresolved, PlanChangedAfterDispatch))
            && (!(x.plan == p && x.state == Planned) ==> next.actions[a] == x)
  {
  }

  /** It locks exactly the identities that are missing and free and that a planned product of the plan was to create. */
  lemma AbortBlocks(db: Tables, p: int, k: Key)
    requires k in db.identities
    ensures var (x, next) := (db.identities[k], Abort(db, p).identities);
            && k in next && next.Keys == db.identities.Keys
            && (if x.state == RemoteMissing && x.active == None && PlannedFor(db, p, k)
                then next[k] == x.(state := BlockedUncertain) else next[k] == x)
  {
    if WantedBy(db, p, k) {
      var a :| a in db.actions && Abortable(db, p, a) && IsProduct(db.actions[a].kind) && k in Keys(db.actions[a]);
      var i :| 0 <= i < |Keys(db.actions[a])| && Keys(db.actions[a])[i] == k;
      assert ProductFor(db, p, a, i, k);
    }
    if PlannedFor(db, p, k) {
      var a, i: nat :| ProductFor(db, p, a, i, k);
      assert Abortable(db, p, a) && IsProduct(db.actions[a].kind) && Keys(db.actions[a])[i] == k;
    }
  }

  /** Member `i` of the planned product `a` of the plan has this identity. */
  predicate ProductFor(db: Tables, p: int, a: int, i: nat, k: Key) {
    && a in db.actions && db.actions[a].plan == p && db.actions[a].kind != UploadMedia && db.actions[a].state == Planned
    && i < |db.actions[a].members| && db.actions[a].seller == k.seller && db.actions[a].members[i].vendor == k.vendor
  }

  ghost predicate PlannedFor(db: Tables, p: int, k: Key) { exists a, i: nat :: ProductFor(db, p, a, i, k) }

  /** A plan can be aborted exactly when one of its actions was attempted and one of its products is still planned. */
  lemma AbortableIff(db: Tables, p: int)
    ensures CanAbort(db, p) <==>
            && p in db.plans
            && (exists a :: a in db.actions && db.actions[a].plan == p && db.actions[a].attempt.Some?)
            && (exists a :: a in db.actions && db.actions[a].plan == p && db.actions[a].kind != UploadMedia && db.actions[a].state == Planned)
  {
    if a :| a in db.actions && db.actions[a].plan == p && db.actions[a].attempt.Some? { assert InPlan(db, p, a); }
    if a :| a in db.actions && db.actions[a].plan == p && db.actions[a].kind != UploadMedia && db.actions[a].state == Planned {
      assert Abortable(db, p, a) && IsProduct(db.actions[a].kind);
    }
  }

  /** No other plan is touched, and this one is closed exactly when none of its actions is open any more. */
  lemma ReduceEnds(db: Tables, p: int, q: int)
    requires q in db.plans
    ensures var next := Reduce(db, p);
            && next.actions == db.actions && next.identities == db.identities && next.batches == db.batches && next.plans.Keys == db.plans.Keys
            && (q != p ==> next.plans[q] == db.plans[q])
            && (next.plans[q] != db.plans[q] ==> next.plans[q].state == PlanTerminal && db.plans[q].state == Executing)
            && (q == p && db.plans[q].state == Executing ==>
                  (next.plans[q].state == PlanTerminal <==>
                     (exists a :: a in db.actions && db.actions[a].plan == p) &&
                     forall a :: a in db.actions && db.actions[a].plan == p ==> db.actions[a].state == Terminal || db.actions[a].state == Superseded))
  {
    if a :| a in db.actions && db.actions[a].plan == p {
      assert a in ActionsOf(db, p);
    }
    if Unfinished(db, p) {
      var a :| a in db.actions && InPlan(db, p, a) && !Finished(db.actions[a].state);
    }
    forall a | a in db.actions && db.actions[a].plan == p && db.actions[a].state != Terminal && db.actions[a].state != Superseded
      ensures Unfinished(db, p)
    {
      assert InPlan(db, p, a) && !Finished(db.actions[a].state);
    }
  }

  /** A freshly drafted action: nothing done, distinct members without results, and one member if it is media. */
  predicate Fresh(act: Action, p: int) {
    && act.plan == p && act.state == Planned && act.revision == 0 && act.outcome == None && act.attempt == None && act.retry == None
    && |act.members| >= 1 && (act.kind == UploadMedia ==> |act.members| == 1)
    && (forall m :: m in act.members ==> m.id >= 1 && m.outcome == None && !m.attributed)
    && (forall i, j :: 0 <= i < |act.members| && 0 <= j < |act.members| && act.members[i].id == act.members[j].id ==> i == j)
  }

  /** A plan can be inserted exactly when it and its actions are new and fresh, and its identities were really observed. */
  lemma InsertableIff(db: Tables, p: int, drafts: map<int, Action>, identities: seq<IdentityDraft>)
    ensures CanInsertPlan(db, p, drafts, identities) <==>
            && p !in db.plans && (forall a :: a in drafts ==> a !in db.actions && Fresh(drafts[a], p))
            && (forall d :: d in identities ==> d.state == RemoteMissing || d.state == RemotePresent || d.state == RemoteConflict)
  {
    forall a | a in drafts ensures DraftOk(drafts[a], p) <==> Fresh(drafts[a], p) {
      FreshIff(drafts[a], p);
    }
    assert forall i :: 0 <= i < |identities| ==> identities[i] in identities;
  }

  lemma FreshIff(act: Action, p: int)
    ensures DraftOk(act, p) <==> Fresh(act, p)
  {
    assert forall i :: 0 <= i < |act.members| ==> act.members[i] in act.members;
  }

  /** A new plan waits for authorization, or ends at once with its preflight class when it has nothing to do. */
  lemma InsertStarts(db: Tables, p: int, drafts: map<int, Action>, identities: seq<IdentityDraft>, preflight: ResultClass, a: int)
    requires CanInsertPlan(db, p, drafts, identities)
    ensures var next := InsertPlan(db, p, drafts, identities, preflight);
            && p !in db.plans
            && next.plans == db.plans[p := if |drafts| == 0 then Plan(PlanTerminal, Some(preflight)) else Plan(Awaiting, None)]
            && (a in next.actions <==> a in db.actions || a in drafts)
            && (a in db.actions ==> a !in drafts && next.actions[a] == db.actions[a])
            && (a in drafts ==> next.actions[a] == drafts[a] && drafts[a].plan == p && drafts[a].state == Planned && drafts[a].attempt.None?)
  {
  }

  /** An attempt can begin exactly for a planned product whose codes are distinct and whose identities are all missing and free. */
  lemma BeginnableIff(db: Tables, a: int)
    requires Inv(db)
    ensures CanBeginAttempt(db, a) <==>
            && a in db.actions && db.actions[a].kind != UploadMedia && db.actions[a].state == Planned
            && (forall i, j :: 0 <= i < j < |db.actions[a].members| ==> db.actions[a].members[i].vendor != db.actions[a].members[j].vendor)
            && forall i :: 0 <= i < |db.actions[a].members| ==>
                 KeyOf(db.actions[a], i) in db.identities && db.identities[KeyOf(db.actions[a], i)].state == RemoteMissing &&
                 db.identities[KeyOf(db.actions[a], i)].active == None
  {
    if a in db.actions {
      var act := db.actions[a];
      assert ActionOk(act) && act.plan in db.plans && PlanOk(db, act.plan);
      if act.state == Planned {
        assert InPlan(db, act.plan, a) && !Finished(act.state) && Unfinished(db, act.plan);
      }
      BindReachesAllIff(db.identities, Keys(act));
      forall i, j | 0 <= i < j < |act.members| ensures Keys(act)[i] != Keys(act)[j] <==> act.members[i].vendor != act.members[j].vendor { }
      assert forall i :: 0 <= i < |act.members| ==> Keys(act)[i] == KeyOf(act, i);
    }
  }

  /** The rows an attempt begins with: a fresh attempt, an executing plan, and the action's identities in its hands. */
  lemma BeginStarts(db: Tables, a: int, baseline: Option<Stamp>, now: int, i: nat)
    requires CanBeginAttempt(db, a) && i < |db.actions[a].members|
    ensures var (x, next) := (db.actions[a], BeginAttempt(db, a, baseline, now));
            && x.state == Planned && x.attempt.None? && next.plans == db.plans[x.plan := Plan(Executing, None)]
            && next.actions == db.actions[a := x.(state := Dispatching, revision := x.revision + 1, attempt := Some(Attempt(now, baseline, None)))]
            && KeyOf(x, i) in db.identities && db.identities[KeyOf(x, i)].state == RemoteMissing && db.identities[KeyOf(x, i)].active == None
            && next.identities[KeyOf(x, i)] == db.identities[KeyOf(x, i)].(state := MutationPending, active := Some(a))
  {
    BindReachesAllIff(db.identities, Keys(db.actions[a]));
    assert Keys(db.actions[a])[i] == KeyOf(db.actions[a], i);
  }
}
