/** Every transaction of the publication journal keeps the invariant. */
module Preservation {
  import opened Common
  import opened Publication
  import opened Tables
  import opened Transactions
  import opened Slots
  import opened Folds
  import opened Invariant
  import Evidence
  import Reducers
  import Submissions

  // ---------------------------------------------------------------- planning

  lemma {:induction false} UpsertKeeps(identities: map<Key, Identity>, drafts: seq<IdentityDraft>)
    requires forall i :: 0 <= i < |drafts| ==> Observed(drafts[i].state)
    ensures identities.Keys <= Upsert(identities, drafts).Keys
    ensures forall k :: k in Upsert(identities, drafts) ==>
      if k in identities then
        && Upsert(identities, drafts)[k].active == identities[k].active
        && (|| Upsert(identities, drafts)[k].state == identities[k].state
            || !(identities[k].state.MutationPending? || identities[k].state.BlockedUncertain?))
      else Upsert(identities, drafts)[k].active.None?
  {
    if drafts != [] {
      UpsertKeeps(identities, drafts[..|drafts| - 1]);
    }
  }

  lemma InsertPlanKeeps(db: Tables, p: int, drafts: map<int, Action>, identities: seq<IdentityDraft>, cls: ResultClass)
    requires Inv(db) && CanInsertPlan(db, p, drafts, identities)
    ensures Inv(InsertPlan(db, p, drafts, identities, cls))
  {
    var next := InsertPlan(db, p, drafts, identities, cls);
    UpsertKeeps(db.identities, identities);
    assert ActionsOk(next) by {
      forall a | a in next.actions ensures ActionOk(next.actions[a]) {
        if a in drafts { assert DraftOk(drafts[a], p); } else { assert ActionOk(db.actions[a]); }
      }
    }
    InsertSlots(db, next, p, drafts);
    InsertPlans(db, next, p, drafts);
  }

  lemma InsertSlots(db: Tables, next: Tables, p: int, drafts: map<int, Action>)
    requires SlotsOk(db) && next.actions == db.actions + drafts
    requires forall a :: a in drafts ==> a !in db.actions && drafts[a].attempt.None?
    requires db.identities.Keys <= next.identities.Keys
    requires forall k :: k in next.identities ==>
      if k in db.identities then
        && next.identities[k].active == db.identities[k].active
        && (|| next.identities[k].state == db.identities[k].state
            || !(db.identities[k].state.MutationPending? || db.identities[k].state.BlockedUncertain?))
      else next.identities[k].active.None?
    ensures SlotsOk(next)
  {
    SlotsFrame(db, next);
  }

  lemma InsertPlans(db: Tables, next: Tables, p: int, drafts: map<int, Action>)
    requires PlansOk(db) && p !in db.plans && next.actions == db.actions + drafts
    requires forall a :: a in drafts ==> a !in db.actions && drafts[a].plan == p && drafts[a].attempt.None?
    requires p in next.plans && next.plans == db.plans[p := next.plans[p]]
    requires next.plans[p].state == if drafts == map[] then PlanTerminal else Awaiting
    ensures PlansOk(next)
  {
    forall q | q in next.plans ensures PlanOk(next, q) {
      if q != p {
        assert forall a :: InPlan(next, q, a) <==> InPlan(db, q, a);
        assert PlanOk(db, q);
        assert Attempted(next, q) == Attempted(db, q) && Unfinished(next, q) == Unfinished(db, q);
      }
    }
  }

  // ---------------------------------------------------------------- the product attempt

  lemma BeginAttemptKeeps(db: Tables, a: int, baseline: Option<Stamp>, now: int)
    requires Inv(db) && CanBeginAttempt(db, a)
    ensures Inv(BeginAttempt(db, a, baseline, now))
  {
    var next := BeginAttempt(db, a, baseline, now);
    var p := db.actions[a].plan;
    assert ActionOk(db.actions[a]);
    BeginKeepsSlots(db, a, baseline, now);
    assert ActionOk(next.actions[a]);
    assert InPlan(next, p, a);
    PlansWithin(db, next, p);
  }

  lemma AwaitEvidenceKeeps(db: Tables, a: int, s: Submission, now: int)
    requires Inv(db) && CanAwaitEvidence(db, a, s)
    ensures Inv(AwaitEvidence(db, a, s, now))
  {
    var next := AwaitEvidence(db, a, s, now);
    assert ActionOk(db.actions[a]);
    assert ActionOk(next.actions[a]);
    assert forall b :: b in db.actions ==> SameClaims(db.actions[b], next.actions[b]);
    SlotsFrame(db, next);
    StillExecuting(db, next, a);
  }

  /** What is true of the tables between settling the last member of `a` and closing the action. */
  ghost predicate ReadyToClose(start: Tables, db: Tables, a: int) {
    && Inv(start) && a in start.actions && start.actions[a].attempt.Some? && !Finished(start.actions[a].state)
    && db.plans == start.plans && db.actions.Keys == start.actions.Keys
    && (forall b :: b in db.actions && b != a ==> db.actions[b] == start.actions[b])
    && SlotsOk(db)
    && var act := db.actions[a];
       && act.plan == start.actions[a].plan && IsProduct(act.kind) && Answered(act) && AllSettled(act)
       && act.members != [] && Evidence.GoodIds(act.members) && KeysOk(act) && RetryOk(act)
  }

  lemma SkippedOk(act: Action)
    requires ActionOk(act) && act.state.Planned? && act.kind.UploadMedia?
    ensures ActionOk(Skip(act)) && SameClaims(act, Skip(act))
  {
    assert Evidence.GoodIds(Skip(act).members);
  }

  /** The actions once `a` and the media that waited for it in vain are finished. */
  function Closed(db: Tables, a: int, cls: ResultClass): Tables
    requires a in db.actions
  {
    var act := db.actions[a];
    var skipped := SkipMedia(db, act.plan, act.seller, act.members);
    skipped.(actions := skipped.actions[a := Finish(act, Terminal, cls)])
  }

  lemma ClosedActions(start: Tables, db: Tables, a: int, cls: ResultClass)
    requires ReadyToClose(start, db, a)
    ensures ActionsOk(Closed(db, a, cls))
    ensures forall b :: b in db.actions ==> SameClaims(db.actions[b], Closed(db, a, cls).actions[b])
    ensures Within(start, Closed(db, a, cls), start.actions[a].plan)
  {
    var act, next := db.actions[a], Closed(db, a, cls);
    forall b | b in next.actions
      ensures ActionOk(next.actions[b]) && SameClaims(db.actions[b], next.actions[b])
      ensures next.actions[b].plan == db.actions[b].plan
    {
      if b != a {
        assert ActionOk(start.actions[b]);
        if Hopeless(db, act.plan, act.seller, act.members, db.actions[b]) { SkippedOk(db.actions[b]); }
      }
    }
  }

  lemma CloseKeeps(start: Tables, db: Tables, a: int, cls: ResultClass)
    requires ReadyToClose(start, db, a)
    ensures Inv(Close(db, a, cls))
  {
    var p := db.actions[a].plan;
    var next := Closed(db, a, cls);
    ClosedActions(start, db, a, cls);
    SlotsFrame(db, Reduce(next, p));
    OpenMeansExecuting(start, a);
    assert InPlan(next, p, a);
    ReduceRestores(start, next, p);
  }

  lemma AnswerKeepsSlots(db: Tables, a: int, s: Submission, now: int)
    requires SlotsOk(db) && InDispatch(db, a)
    ensures SlotsOk(RecordAnswer(db, a, s, now))
  {
    SlotsFrame(db, RecordAnswer(db, a, s, now));
  }

  lemma RejectKeeps(db: Tables, a: int, s: Submission, now: int)
    requires Inv(db) && CanReject(db, a, s, now)
    ensures Inv(Reject(db, a, s, now))
  {
    var answered, settled := RecordAnswer(db, a, s, now), Rejections(db, a, s, now).value;
    assert ActionOk(db.actions[a]);
    AnswerKeepsSlots(db, a, s, now);
    RejectMembersKeeps(answered, a, |db.actions[a].members|, s.members);
    assert AllSettled(settled.actions[a]);
    CloseKeeps(db, settled, a, RejectionClass(db.actions[a].members, s.members));
  }

  // ---------------------------------------------------------------- the retry

  lemma RetryKeeps(db: Tables, next: Tables, a: int)
    requires Inv(db) && a in db.actions && db.actions[a].state.Reconciling?
    requires next.plans == db.plans && next.identities == db.identities && a in next.actions
    requires next.actions == db.actions[a := db.actions[a].(retry := next.actions[a].retry, revision := next.actions[a].revision)]
    requires RetryOk(next.actions[a])
    ensures Inv(next)
  {
    assert ActionOk(db.actions[a]) && ActionOk(next.actions[a]);
    assert forall b :: b in db.actions ==> SameClaims(db.actions[b], next.actions[b]);
    SlotsFrame(db, next);
    StillExecuting(db, next, a);
  }

  lemma BeginRetryKeeps(db: Tables, a: int, now: int)
    requires Inv(db) && CanBeginRetry(db, a, now)
    ensures Inv(BeginRetry(db, a, now))
  {
    RetryKeeps(db, BeginRetry(db, a, now), a);
  }

  lemma RecordRetryKeeps(db: Tables, a: int, s: Submission, now: int)
    requires Inv(db) && CanRecordRetry(db, a, s)
    ensures Inv(RecordRetry(db, a, s, now))
  {
    assert ActionOk(db.actions[a]);
    RetryKeeps(db, RecordRetry(db, a, s, now), a);
  }

  // ---------------------------------------------------------------- reconciliation

  lemma PollSettles(db: Tables, a: int, results: seq<MemberResult>)
    requires Inv(db) && CanPoll(db, a, results)
    requires forall i :: 0 <= i < |results| ==> Evidential(results[i])
    ensures var next := Poll(db, a, results);
            && OnlyMembers(db, next, a) && SlotsOk(next) && KeysOk(next.actions[a])
            && next.actions[a].members == AllApplied(db.actions[a].members, results)
            && Evidence.GoodIds(next.actions[a].members)
  {
    assert ActionOk(db.actions[a]);
    RecordAllKeeps(db, a, results);
  }

  lemma PollKeeps(db: Tables, a: int, results: seq<MemberResult>)
    requires Inv(db) && CanPoll(db, a, results)
    requires forall i :: 0 <= i < |results| ==> Evidential(results[i])
    ensures Inv(Poll(db, a, results))
  {
    var next := Poll(db, a, results);
    PollSettles(db, a, results);
    assert ActionOk(db.actions[a]);
    assert ActionOk(next.actions[a]);
    StillExecuting(db, next, a);
  }

  lemma ConcludeKeeps(db: Tables, a: int, results: seq<MemberResult>, cls: ResultClass)
    requires Inv(db) && CanConclude(db, a, results)
    requires forall i :: 0 <= i < |results| ==> Evidential(results[i])
    ensures Inv(Conclude(db, a, results, cls))
  {
    PollSettles(db, a, results);
    assert ActionOk(db.actions[a]);
    CloseKeeps(db, Poll(db, a, results), a, cls);
  }

  // ---------------------------------------------------------------- stopping a plan

  lemma SupersededOk(act: Action, o: Outcome)
    requires ActionOk(act) && act.state.Planned?
    ensures ActionOk(Finish(act, Superseded, Skipped).(members := SettleAll(act.members, o)))
  {
    assert Evidence.GoodIds(SettleAll(act.members, o));
  }

  lemma SupersedeKeeps(db: Tables, p: int)
    requires Inv(db) && CanSupersede(db, p)
    ensures Inv(Supersede(db, p))
  {
    var next := Supersede(db, p);
    forall a | a in next.actions
      ensures ActionOk(next.actions[a]) && SameClaims(db.actions[a], next.actions[a])
    {
      assert ActionOk(db.actions[a]);
      if InPlan(db, p, a) { SupersededOk(db.actions[a], Outcome(Skipped, RecheckRemoteChanged, 0)); }
    }
    SlotsFrame(db, next);
    assert !Attempted(next, p) && !Unfinished(next, p);
    PlansWithin(db, next, p);
  }

  lemma AbortedOk(act: Action)
    requires ActionOk(act) && act.state.Planned?
    ensures ActionOk(AbortAction(act)) && SameClaims(act, AbortAction(act))
  {
    assert Evidence.GoodIds(AbortAction(act).members);
  }

  lemma AbortedActions(db: Tables, p: int)
    requires ActionsOk(db)
    ensures ActionsOk(AbortRows(db, p))
    ensures forall a :: a in db.actions ==> SameClaims(db.actions[a], AbortRows(db, p).actions[a])
  {
    var next := AbortRows(db, p);
    forall a | a in next.actions
      ensures ActionOk(next.actions[a]) && SameClaims(db.actions[a], next.actions[a])
    {
      assert ActionOk(db.actions[a]);
      if Abortable(db, p, a) { AbortedOk(db.actions[a]); }
    }
  }

  lemma AbortedSlots(db: Tables, p: int)
    requires SlotsOk(db)
    requires forall a :: a in db.actions ==> SameClaims(db.actions[a], AbortRows(db, p).actions[a])
    ensures SlotsOk(AbortRows(db, p))
  {
    SlotsFrame(db, AbortRows(db, p));
  }

  lemma AbortKeeps(db: Tables, p: int)
    requires Inv(db) && CanAbort(db, p)
    ensures Inv(Abort(db, p))
  {
    AbortedActions(db, p);
    AbortedSlots(db, p);
    ReduceKeepsSlots(AbortRows(db, p), p);
    AbortedPlans(db, p);
  }

  lemma AbortedPlans(db: Tables, p: int)
    requires Inv(db) && CanAbort(db, p)
    ensures PlansOk(Abort(db, p)) && Abort(db, p).actions == AbortRows(db, p).actions
  {
    var next := AbortRows(db, p);
    AbortedPlanExecutes(db, p);
    assert Within(db, next, p) by {
      forall a | a in db.actions
        ensures next.actions[a].plan == db.actions[a].plan
        ensures db.actions[a].plan != p ==> next.actions[a] == db.actions[a]
      {
      }
    }
    ReduceRestores(db, next, p);
  }

  lemma ReduceKeepsSlots(db: Tables, p: int)
    requires SlotsOk(db)
    ensures SlotsOk(Reduce(db, p))
  {
    SlotsFrame(db, Reduce(db, p));
  }

  lemma AbortedPlanExecutes(db: Tables, p: int)
    requires Inv(db) && CanAbort(db, p)
    ensures db.plans[p].state.Executing? && Attempted(AbortRows(db, p), p)
  {
    assert PlanOk(db, p);
    var a :| a in db.actions && InPlan(db, p, a) && db.actions[a].attempt.Some?;
    var b :| b in db.actions && Abortable(db, p, b);
    assert InPlan(db, p, b) && Unfinished(db, p);
    assert ActionOk(db.actions[a]);
    assert AbortRows(db, p).actions[a] == db.actions[a] && InPlan(AbortRows(db, p), p, a);
  }

  // ---------------------------------------------------------------- media

  lemma BeginMediaKeeps(db: Tables, a: int, nm: int, baseline: Option<Stamp>, now: int)
    requires Inv(db) && CanBeginMedia(db, a, nm)
    ensures Inv(BeginMedia(db, a, baseline, now))
  {
    var next := BeginMedia(db, a, baseline, now);
    var p := db.actions[a].plan;
    assert ActionOk(db.actions[a]);
    BeginMediaKeepsSlots(db, a, nm, baseline, now);
    assert ActionOk(next.actions[a]);
    assert InPlan(next, p, a);
    PlansWithin(db, next, p);
  }

  lemma SkipMediaKeeps(db: Tables, a: int)
    requires Inv(db) && CanSkipMedia(db, a)
    ensures Inv(SkipMediaAction(db, a))
  {
    var p := db.actions[a].plan;
    var next := db.(actions := db.actions[a := Skip(db.actions[a])]);
    assert ActionOk(db.actions[a]);
    SkippedOk(db.actions[a]);
    SlotsFrame(db, next);
    ReduceKeepsSlots(next, p);
    SkippedPlanOpen(db, next, a);
    ReduceRestores(db, next, p);
  }

  lemma SkippedPlanOpen(db: Tables, next: Tables, a: int)
    requires Inv(db) && a in db.actions && db.actions[a].state.Planned? && a in next.actions
    requires next.actions == db.actions[a := next.actions[a]]
    requires next.actions[a].plan == db.actions[a].plan && next.actions[a].attempt.None?
    ensures var p := db.actions[a].plan;
            && p in db.plans
            && if db.plans[p].state.Executing? then Attempted(next, p) else db.plans[p].state.Awaiting? && !Attempted(next, p)
  {
    var p := db.actions[a].plan;
    assert InPlan(db, p, a) && PlanOk(db, p) && ActionOk(db.actions[a]);
    if Attempted(db, p) {
      var b :| b in db.actions && InPlan(db, p, b) && db.actions[b].attempt.Some?;
      assert InPlan(next, p, b);
    }
    if Attempted(next, p) {
      var b :| b in next.actions && InPlan(next, p, b) && next.actions[b].attempt.Some?;
      assert InPlan(db, p, b);
    }
  }

  lemma ScheduleVisibilityKeeps(db: Tables, a: int, s: Submission, now: int)
    requires Inv(db) && CanScheduleVisibility(db, a, s)
    ensures Inv(ScheduleVisibility(db, a, s, now))
  {
    var next := ScheduleVisibility(db, a, s, now);
    assert ActionOk(db.actions[a]) && ActionOk(next.actions[a]);
    SlotsFrame(db, next);
    StillExecuting(db, next, a);
  }

  function MediaEnded(db: Tables, a: int, o: Outcome): Tables
    requires IsMedia(db, a) && KeyOf(db.actions[a], 0) in db.identities
  {
    var act := db.actions[a];
    var k := KeyOf(act, 0);
    db.(actions := db.actions[a := Finish(act, Terminal, o.cls).(members := SettleAll(act.members, o))],
        identities := db.identities[k := db.identities[k].(active := None)])
  }

  lemma MediaEndedOk(start: Action, act: Action, o: Outcome)
    requires ActionOk(start) && start.kind.UploadMedia? && Answered(act) && act == start.(attempt := act.attempt)
    ensures ActionOk(Finish(act, Terminal, o.cls).(members := SettleAll(act.members, o)))
  {
    assert Evidence.GoodIds(SettleAll(act.members, o));
  }

  /** The media action ends, whether its answer was recorded just now or earlier. */
  lemma FinishMediaKeeps(start: Tables, db: Tables, a: int, nm: int, o: Outcome)
    requires Inv(start) && a in start.actions && start.actions[a].attempt.Some? && !Finished(start.actions[a].state)
    requires SlotsOk(db) && CanFinishMedia(db, a, nm) && Answered(db.actions[a])
    requires db == start.(actions := start.actions[a := start.actions[a].(attempt := db.actions[a].attempt)])
    ensures Inv(FinishMedia(db, a, o))
  {
    var p := db.actions[a].plan;
    var next := MediaEnded(db, a, o);
    MediaEndedOk(start.actions[a], db.actions[a], o);
    FinishMediaKeepsSlots(db, a, nm, o);
    OpenMeansExecuting(start, a);
    assert InPlan(next, p, a);
    ReduceRestores(start, next, p);
  }

  lemma RecordMediaKeeps(db: Tables, a: int, nm: int, s: Submission, o: Outcome, now: int)
    requires Inv(db) && CanRecordMedia(db, a, nm)
    ensures Inv(RecordMedia(db, a, s, o, now))
  {
    AnswerKeepsSlots(db, a, s, now);
    FinishMediaKeeps(db, RecordAnswer(db, a, s, now), a, nm, o);
  }

  lemma ConcludeMediaKeeps(db: Tables, a: int, nm: int, o: Outcome)
    requires Inv(db) && CanConcludeMedia(db, a, nm)
    ensures Inv(FinishMedia(db, a, o))
  {
    FinishMediaKeeps(db, db, a, nm, o);
  }

  // ---------------------------------------------------------------- resolution

  lemma CorrectedKeeps(db: Tables, a: int, i: nat, revision: nat, ruling: Ruling)
    requires Inv(db) && Resolvable(db, a, i, revision) && RulingProved(db, a, i, ruling)
    ensures var next := Corrected(db, a, i, ruling);
            && OnlyMembers(db, next, a) && SlotsOk(next) && AllSettled(next.actions[a])
  {
    var act := db.actions[a];
    var identity := db.identities[KeyOf(act, i)];
    assert ActionOk(act);
    assert Holds(act, i) && Held(db, a, i);
    match ruling
    case MarkPresent(card, _, _) =>
      SettleKeepsSlots(db, a, i, Outcome(Success, ManualRemotePresent, card.nmId), true,
                       Identity(RemotePresent, card.nmId, card.imtId, card.subjectId, None));
    case MarkRejected(_) =>
      SettleKeepsSlots(db, a, i, Outcome(Rejected, ManualErrorListRejected, 0), false, Identity(IdentityRejected, 0, 0, 0, None));
    case CloseNoRetry =>
  }

  lemma ResolvedPlan(db: Tables, next: Tables, a: int)
    requires PlansOk(db) && a in db.actions && a in next.actions && db.actions[a].plan in db.plans
    requires !Unfinished(db, db.actions[a].plan) && Finished(next.actions[a].state)
    requires next.actions == db.actions[a := next.actions[a]] && next.actions[a].plan == db.actions[a].plan
    requires var p := db.actions[a].plan;
             p in next.plans && next.plans == db.plans[p := next.plans[p]] && next.plans[p].state.PlanTerminal?
    ensures PlansOk(next)
  {
    var p := db.actions[a].plan;
    assert forall b :: b in next.actions && InPlan(next, p, b) ==> InPlan(db, p, b);
    PlansWithin(db, next, p);
  }

  lemma ResolvedSlots(corrected: Tables, a: int)
    requires SlotsOk(corrected) && a in corrected.actions && AllSettled(corrected.actions[a])
    ensures SlotsOk(Resolved(corrected, a))
  {
    SlotsFrame(corrected, Resolved(corrected, a));
  }

  lemma ResolvedActions(corrected: Tables, a: int)
    requires ActionsOk(corrected) && a in corrected.actions && AllSettled(corrected.actions[a]) && corrected.actions[a].state.Terminal?
    ensures ActionsOk(Resolved(corrected, a))
  {
    assert ActionOk(corrected.actions[a]);
    assert ActionOk(Resolved(corrected, a).actions[a]);
  }

  lemma CorrectedActions(db: Tables, a: int, i: nat, revision: nat, ruling: Ruling)
    requires Inv(db) && Resolvable(db, a, i, revision) && RulingProved(db, a, i, ruling)
    ensures ActionsOk(Corrected(db, a, i, ruling))
  {
    CorrectedKeeps(db, a, i, revision, ruling);
    assert ActionOk(db.actions[a]) && ActionOk(Corrected(db, a, i, ruling).actions[a]);
  }

  lemma ResolvedPlans(db: Tables, a: int, i: nat, revision: nat, ruling: Ruling)
    requires Inv(db) && Resolvable(db, a, i, revision) && RulingProved(db, a, i, ruling) && AllSettled(db.actions[a])
    ensures PlansOk(Resolve(db, a, i, ruling))
  {
    CorrectedKeeps(db, a, i, revision, ruling);
    ResolvedPlan(db, Resolve(db, a, i, ruling), a);
  }

  lemma ResolveKeeps(db: Tables, a: int, i: nat, revision: nat, ruling: Ruling)
    requires Inv(db) && Resolvable(db, a, i, revision) && RulingProved(db, a, i, ruling) && AllSettled(db.actions[a])
    ensures Inv(Resolve(db, a, i, ruling))
  {
    var corrected := Corrected(db, a, i, ruling);
    CorrectedKeeps(db, a, i, revision, ruling);
    CorrectedActions(db, a, i, revision, ruling);
    ResolvedActions(corrected, a);
    ResolvedSlots(corrected, a);
    ResolvedPlans(db, a, i, revision, ruling);
  }
}
