/** No transaction takes back what an earlier one wrote. */
module Progress {
  import opened Common
  import opened Publication
  import opened Tables
  import opened Transactions
  import opened Slots
  import opened Folds
  import opened Invariant
  import opened Preservation
  import opened Journal
  import Evidence

  function Rank(s: ActionState): nat {
    match s
    case Planned => 0
    case Dispatching => 1
    case Reconciling => 2
    case _ => 3
  }

  predicate LaterAttempt(x: Option<Attempt>, y: Option<Attempt>) {
    x.Some? ==>
      && y.Some? && y.value.startedAt == x.value.startedAt && y.value.baseline == x.value.baseline
      && (x.value.answer.Some? ==> y.value.answer == x.value.answer)
  }

  predicate LaterRetry(x: Option<Retry>, y: Option<Retry>) {
    x.Some? ==>
      && y.Some? && y.value.startedAt == x.value.startedAt
      && (x.value.answer.Some? ==> y.value.answer == x.value.answer)
  }

  /** A settled member keeps its result until its action `act` has ended, and then unless it is unresolved. */
  predicate LaterMember(act: Action, x: Member, y: Member) {
    !Pending(x) ==>
      && !Pending(y)
      && (y == x || (act.state.Terminal? && IsProduct(act.kind) && Blocking(x.outcome.value.cls)))
  }

  /** `y` is a possible future of the action row `x`. */
  predicate Later(x: Action, y: Action) {
    && y.plan == x.plan && y.seller == x.seller && y.kind == x.kind && y.request == x.request
    && SameRows(x.members, y.members)
    && Rank(x.state) <= Rank(y.state) && (Finished(x.state) ==> y.state == x.state)
    && x.revision <= y.revision
    && LaterAttempt(x.attempt, y.attempt) && LaterRetry(x.retry, y.retry)
    && forall i :: 0 <= i < |x.members| ==> LaterMember(y, x.members[i], y.members[i])
  }

  predicate LaterPlan(x: Plan, y: Plan) {
    && (x.state.PlanTerminal? || x.state.PlanSuperseded? ==> y.state == x.state)
    && (x.state.Executing? ==> y.state.Executing? || y.state.PlanTerminal?)
  }

  /** `next` keeps every row of `db`, at most further along. */
  ghost predicate Advances(db: Tables, next: Tables) {
    && (forall a :: a in db.actions ==> a in next.actions && Later(db.actions[a], next.actions[a]))
    && (forall p :: p in db.plans ==> p in next.plans && LaterPlan(db.plans[p], next.plans[p]))
  }

  lemma LaterTransitive(x: Action, y: Action, z: Action)
    requires Later(x, y) && Later(y, z)
    ensures Later(x, z)
  {
    forall i | 0 <= i < |x.members| ensures LaterMember(z, x.members[i], z.members[i]) {
      assert LaterMember(y, x.members[i], y.members[i]) && LaterMember(z, y.members[i], z.members[i]);
    }
  }

  lemma AdvancesTransitive(x: Tables, y: Tables, z: Tables)
    requires Advances(x, y) && Advances(y, z)
    ensures Advances(x, z)
  {
    forall a | a in x.actions ensures a in z.actions && Later(x.actions[a], z.actions[a]) {
      LaterTransitive(x.actions[a], y.actions[a], z.actions[a]);
    }
    forall p | p in x.plans ensures p in z.plans && LaterPlan(x.plans[p], z.plans[p]) {
      assert LaterPlan(x.plans[p], y.plans[p]) && LaterPlan(y.plans[p], z.plans[p]);
    }
  }

  // ---------------------------------------------------------------- transactions on one row

  lemma OneRowAdvances(db: Tables, next: Tables, a: int)
    requires a in db.actions && a in next.actions && next.actions == db.actions[a := next.actions[a]]
    requires Later(db.actions[a], next.actions[a])
    requires forall p :: p in db.plans ==> p in next.plans && LaterPlan(db.plans[p], next.plans[p])
    ensures Advances(db, next)
  {
  }

  lemma BeginAdvances(db: Tables, a: int, baseline: Option<Stamp>, now: int)
    requires Inv(db) && CanBeginAttempt(db, a)
    ensures Advances(db, BeginAttempt(db, a, baseline, now))
  {
    assert ActionOk(db.actions[a]);
    OneRowAdvances(db, BeginAttempt(db, a, baseline, now), a);
  }

  lemma BeginMediaAdvances(db: Tables, a: int, nm: int, baseline: Option<Stamp>, now: int)
    requires Inv(db) && CanBeginMedia(db, a, nm)
    ensures Advances(db, BeginMedia(db, a, baseline, now))
  {
    assert ActionOk(db.actions[a]);
    OneRowAdvances(db, BeginMedia(db, a, baseline, now), a);
  }

  lemma ReduceAdvances(db: Tables, p: int)
    ensures Advances(db, Reduce(db, p))
  {
    forall a | a in db.actions ensures Later(db.actions[a], db.actions[a]) { }
  }

  lemma CorrectedAdvances(db: Tables, a: int, i: nat, revision: nat, ruling: Ruling)
    requires Inv(db) && Resolvable(db, a, i, revision) && RulingProved(db, a, i, ruling)
    ensures Advances(db, Corrected(db, a, i, ruling))
  {
    CorrectedKeeps(db, a, i, revision, ruling);
    OneRowAdvances(db, Corrected(db, a, i, ruling), a);
  }

  lemma ResolvedAdvances(db: Tables, a: int)
    requires a in db.actions && AllSettled(db.actions[a]) && db.actions[a].plan in db.plans
    requires db.plans[db.actions[a].plan].state.PlanTerminal?
    ensures Advances(db, Resolved(db, a))
  {
    OneRowAdvances(db, Resolved(db, a), a);
  }

  lemma ResolveAdvances(db: Tables, a: int, i: nat, revision: nat, ruling: Ruling)
    requires Inv(db) && Resolvable(db, a, i, revision) && RulingProved(db, a, i, ruling) && AllSettled(db.actions[a])
    ensures Advances(db, Resolve(db, a, i, ruling))
  {
    var corrected := Corrected(db, a, i, ruling);
    CorrectedKeeps(db, a, i, revision, ruling);
    CorrectedAdvances(db, a, i, revision, ruling);
    ResolvedAdvances(corrected, a);
    AdvancesTransitive(db, corrected, Resolve(db, a, i, ruling));
  }

  lemma PollAdvances(db: Tables, a: int, results: seq<MemberResult>)
    requires Inv(db) && CanPoll(db, a, results)
    requires forall i :: 0 <= i < |results| ==> Evidential(results[i])
    ensures Advances(db, Poll(db, a, results))
  {
    var next := Poll(db, a, results);
    PollSettles(db, a, results);
    AppliedLater(db.actions[a], results);
    OneRowAdvances(db, next, a);
  }

  lemma AppliedLater(act: Action, results: seq<MemberResult>)
    requires Evidence.ValidResults(act.members, results) && Evidence.GoodIds(act.members)
    ensures forall i :: 0 <= i < |act.members| ==> LaterMember(act, act.members[i], Applied(act.members[i], results))
  {
    forall i | 0 <= i < |act.members| && !Pending(act.members[i])
      ensures Applied(act.members[i], results) == act.members[i]
    {
      SettledNotRuled(act.members, results, i);
    }
  }

  /** A settled member has no result among the valid ones. */
  lemma SettledNotRuled(members: seq<Member>, results: seq<MemberResult>, i: nat)
    requires Evidence.ValidResults(members, results) && Evidence.GoodIds(members)
    requires i < |members| && !Pending(members[i])
    ensures ResultFor(results, members[i].id).None?
  {
    forall k | 0 <= k < |results| ensures results[k].memberId != members[i].id {
      assert Evidence.AwaitedId(members, results[k].memberId);
      var j :| 0 <= j < |members| && Pending(members[j]) && members[j].id == results[k].memberId;
      assert j != i;
    }
    Unseen(results, members[i].id);
  }

  lemma CloseAdvances(db: Tables, a: int, cls: ResultClass)
    requires a in db.actions && !Finished(db.actions[a].state) && IsProduct(db.actions[a].kind)
    ensures Advances(db, Close(db, a, cls))
  {
    var act, next := db.actions[a], Closed(db, a, cls);
    forall b | b in db.actions ensures b in next.actions && Later(db.actions[b], next.actions[b]) { }
    assert Advances(db, next);
    ReduceAdvances(next, act.plan);
    AdvancesTransitive(db, next, Reduce(next, act.plan));
  }

  lemma RejectAdvances(db: Tables, a: int, s: Submission, now: int)
    requires Inv(db) && CanReject(db, a, s, now)
    ensures Advances(db, Reject(db, a, s, now))
  {
    var answered, settled := RecordAnswer(db, a, s, now), Rejections(db, a, s, now).value;
    assert ActionOk(db.actions[a]);
    AnswerKeepsSlots(db, a, s, now);
    RejectMembersKeeps(answered, a, |db.actions[a].members|, s.members);
    OneRowAdvances(db, settled, a);
    CloseAdvances(settled, a, RejectionClass(db.actions[a].members, s.members));
    AdvancesTransitive(db, settled, Reject(db, a, s, now));
  }

  lemma ConcludeAdvances(db: Tables, a: int, results: seq<MemberResult>, cls: ResultClass)
    requires Inv(db) && CanConclude(db, a, results)
    requires forall i :: 0 <= i < |results| ==> Evidential(results[i])
    ensures Advances(db, Conclude(db, a, results, cls))
  {
    PollSettles(db, a, results);
    PollAdvances(db, a, results);
    CloseAdvances(Poll(db, a, results), a, cls);
    AdvancesTransitive(db, Poll(db, a, results), Conclude(db, a, results, cls));
  }

  // ---------------------------------------------------------------- the rest

  lemma SupersedeAdvances(db: Tables, p: int)
    requires CanSupersede(db, p)
    ensures Advances(db, Supersede(db, p))
  {
    var next := Supersede(db, p);
    forall a | a in db.actions ensures a in next.actions && Later(db.actions[a], next.actions[a]) { }
  }

  lemma AbortAdvances(db: Tables, p: int)
    ensures Advances(db, Abort(db, p))
  {
    var next := AbortRows(db, p);
    forall a | a in db.actions ensures a in next.actions && Later(db.actions[a], next.actions[a]) { }
    ReduceAdvances(next, p);
    AdvancesTransitive(db, next, Reduce(next, p));
  }

  lemma InsertAdvances(db: Tables, p: int, drafts: map<int, Action>, identities: seq<IdentityDraft>, cls: ResultClass)
    requires CanInsertPlan(db, p, drafts, identities)
    ensures Advances(db, InsertPlan(db, p, drafts, identities, cls))
  {
    forall a | a in db.actions ensures Later(db.actions[a], db.actions[a]) { }
  }

  lemma SkipMediaAdvances(db: Tables, a: int)
    requires CanSkipMedia(db, a)
    ensures Advances(db, SkipMediaAction(db, a))
  {
    var next := db.(actions := db.actions[a := Skip(db.actions[a])]);
    OneRowAdvances(db, next, a);
    ReduceAdvances(next, db.actions[a].plan);
    AdvancesTransitive(db, next, SkipMediaAction(db, a));
  }

  lemma FinishMediaAdvances(db: Tables, a: int, nm: int, o: Outcome)
    requires CanFinishMedia(db, a, nm)
    ensures Advances(db, FinishMedia(db, a, o))
  {
    var next := MediaEnded(db, a, o);
    OneRowAdvances(db, next, a);
    ReduceAdvances(next, db.actions[a].plan);
    AdvancesTransitive(db, next, FinishMedia(db, a, o));
  }

  lemma RecordMediaAdvances(db: Tables, a: int, nm: int, s: Submission, o: Outcome, now: int)
    requires CanRecordMedia(db, a, nm)
    ensures Advances(db, RecordMedia(db, a, s, o, now))
  {
    var answered := RecordAnswer(db, a, s, now);
    OneRowAdvances(db, answered, a);
    FinishMediaAdvances(answered, a, nm, o);
    AdvancesTransitive(db, answered, RecordMedia(db, a, s, o, now));
  }

  lemma OpenRowAdvances(db: Tables, tx: Tx, now: int)
    requires Inv(db) && Can(db, tx, now)
    requires tx.TxAwait? || tx.TxBeginRetry? || tx.TxRecordRetry? || tx.TxSchedule?
    ensures Advances(db, Do(db, tx, now))
  {
    assert ActionOk(db.actions[tx.a]);
    OneRowAdvances(db, Do(db, tx, now), tx.a);
  }

  /** Rows only ever move forward: states, answers, retries, results and plans are never taken back. */
  lemma CommitAdvances(db: Tables, tx: Tx, now: int)
    requires Inv(db) && Can(db, tx, now) && FromEvidence(tx)
    ensures Advances(db, Do(db, tx, now))
  {
    match tx
    case TxInsertPlan(p, drafts, identities, cls) => InsertAdvances(db, p, drafts, identities, cls);
    case TxBeginAttempt(a, baseline) => BeginAdvances(db, a, baseline, now);
    case TxAwait(_, _) => OpenRowAdvances(db, tx, now);
    case TxReject(a, s) => RejectAdvances(db, a, s, now);
    case TxBeginRetry(_) => OpenRowAdvances(db, tx, now);
    case TxRecordRetry(_, _) => OpenRowAdvances(db, tx, now);
    case TxPoll(a, results) => PollAdvances(db, a, results);
    case TxConclude(a, results, cls) => ConcludeAdvances(db, a, results, cls);
    case TxSupersede(p) => SupersedeAdvances(db, p);
    case TxAbort(p) => AbortAdvances(db, p);
    case TxBeginMedia(a, nm, baseline) => BeginMediaAdvances(db, a, nm, baseline, now);
    case TxSkipMedia(a) => SkipMediaAdvances(db, a);
    case TxRecordMedia(a, nm, s, o) => RecordMediaAdvances(db, a, nm, s, o, now);
    case TxSchedule(_, _) => OpenRowAdvances(db, tx, now);
    case TxConcludeMedia(a, nm, o) => FinishMediaAdvances(db, a, nm, o);
    case TxResolve(a, i, revision, ruling) => ResolveAdvances(db, a, i, revision, ruling);
  }
}
