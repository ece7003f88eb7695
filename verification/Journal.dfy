/** The whole journal as one transition system. */
module Journal {
  import opened Common
  import opened Publication
  import opened Tables
  import opened Transactions
  import opened Slots
  import opened Folds
  import opened Invariant
  import opened Preservation
  import Evidence
  import Submissions

  datatype Tx =
    | TxInsertPlan(plan: int, drafts: map<int, Action>, identities: seq<IdentityDraft>, preflight: ResultClass)
    | TxBeginAttempt(a: int, baseline: Option<Stamp>)
    | TxAwait(a: int, s: Submission)
    | TxReject(a: int, s: Submission)
    | TxBeginRetry(a: int)
    | TxRecordRetry(a: int, s: Submission)
    | TxPoll(a: int, results: seq<MemberResult>)
    | TxConclude(a: int, results: seq<MemberResult>, cls: ResultClass)
    | TxSupersede(plan: int)
    | TxAbort(plan: int)
    | TxBeginMedia(a: int, nm: int, baseline: Option<Stamp>)
    | TxSkipMedia(a: int)
    | TxRecordMedia(a: int, nm: int, s: Submission, o: Outcome)
    | TxSchedule(a: int, s: Submission)
    | TxConcludeMedia(a: int, nm: int, o: Outcome)
    | TxResolve(a: int, i: nat, revision: nat, ruling: Ruling)

  /** The transaction commits; otherwise it is rolled back. */
  ghost predicate Can(db: Tables, tx: Tx, now: int) {
    match tx
    case TxInsertPlan(p, drafts, identities, _) => CanInsertPlan(db, p, drafts, identities)
    case TxBeginAttempt(a, _) => CanBeginAttempt(db, a)
    case TxAwait(a, s) => CanAwaitEvidence(db, a, s)
    case TxReject(a, s) => CanReject(db, a, s, now)
    case TxBeginRetry(a) => CanBeginRetry(db, a, now)
    case TxRecordRetry(a, s) => CanRecordRetry(db, a, s)
    case TxPoll(a, results) => CanPoll(db, a, results)
    case TxConclude(a, results, _) => CanConclude(db, a, results)
    case TxSupersede(p) => CanSupersede(db, p)
    case TxAbort(p) => CanAbort(db, p)
    case TxBeginMedia(a, nm, _) => CanBeginMedia(db, a, nm)
    case TxSkipMedia(a) => CanSkipMedia(db, a)
    case TxRecordMedia(a, nm, _, _) => CanRecordMedia(db, a, nm)
    case TxSchedule(a, s) => CanScheduleVisibility(db, a, s)
    case TxConcludeMedia(a, nm, _) => CanConcludeMedia(db, a, nm)
    case TxResolve(a, i, revision, ruling) =>
      Resolvable(db, a, i, revision) && RulingProved(db, a, i, ruling) && AllSettled(db.actions[a])
  }

  ghost function Do(db: Tables, tx: Tx, now: int): Tables
    requires Can(db, tx, now)
  {
    match tx
    case TxInsertPlan(p, drafts, identities, preflight) => InsertPlan(db, p, drafts, identities, preflight)
    case TxBeginAttempt(a, baseline) => BeginAttempt(db, a, baseline, now)
    case TxAwait(a, s) => AwaitEvidence(db, a, s, now)
    case TxReject(a, s) => Reject(db, a, s, now)
    case TxBeginRetry(a) => BeginRetry(db, a, now)
    case TxRecordRetry(a, s) => RecordRetry(db, a, s, now)
    case TxPoll(a, results) => Poll(db, a, results)
    case TxConclude(a, results, cls) => Conclude(db, a, results, cls)
    case TxSupersede(p) => Supersede(db, p)
    case TxAbort(p) => Abort(db, p)
    case TxBeginMedia(a, _, baseline) => BeginMedia(db, a, baseline, now)
    case TxSkipMedia(a) => SkipMediaAction(db, a)
    case TxRecordMedia(a, _, s, o) => RecordMedia(db, a, s, o, now)
    case TxSchedule(a, s) => ScheduleVisibility(db, a, s, now)
    case TxConcludeMedia(a, _, o) => FinishMedia(db, a, o)
    case TxResolve(a, i, _, ruling) => Resolve(db, a, i, ruling)
  }

  /** The rulings a poll stores are those the evidence rules can give. */
  predicate FromEvidence(tx: Tx) {
    tx.TxPoll? || tx.TxConclude? ==> forall i :: 0 <= i < |tx.results| ==> Evidential(tx.results[i])
  }

  /** Every transaction of the journal keeps its invariant. */
  lemma CommitKeeps(db: Tables, tx: Tx, now: int)
    requires Inv(db) && Can(db, tx, now) && FromEvidence(tx)
    ensures Inv(Do(db, tx, now))
  {
    match tx
    case TxInsertPlan(p, drafts, identities, preflight) => InsertPlanKeeps(db, p, drafts, identities, preflight);
    case TxBeginAttempt(a, baseline) => BeginAttemptKeeps(db, a, baseline, now);
    case TxAwait(a, s) => AwaitEvidenceKeeps(db, a, s, now);
    case TxReject(a, s) => RejectKeeps(db, a, s, now);
    case TxBeginRetry(a) => BeginRetryKeeps(db, a, now);
    case TxRecordRetry(a, s) => RecordRetryKeeps(db, a, s, now);
    case TxPoll(a, results) => PollKeeps(db, a, results);
    case TxConclude(a, results, cls) => ConcludeKeeps(db, a, results, cls);
    case TxSupersede(p) => SupersedeKeeps(db, p);
    case TxAbort(p) => AbortKeeps(db, p);
    case TxBeginMedia(a, nm, baseline) => BeginMediaKeeps(db, a, nm, baseline, now);
    case TxSkipMedia(a) => SkipMediaKeeps(db, a);
    case TxRecordMedia(a, nm, s, o) => RecordMediaKeeps(db, a, nm, s, o, now);
    case TxSchedule(a, s) => ScheduleVisibilityKeeps(db, a, s, now);
    case TxConcludeMedia(a, nm, o) => ConcludeMediaKeeps(db, a, nm, o);
    case TxResolve(a, i, revision, ruling) => ResolveKeeps(db, a, i, revision, ruling);
  }

  // ---------------------------------------------------------------- what the invariant means

  /** Two open product actions of one seller never wait for the same vendor code. */
  lemma NoSharedPendingVendor(db: Tables, a: int, b: int, i: nat, j: nat)
    requires Inv(db) && a in db.actions && b in db.actions && a != b
    requires IsProduct(db.actions[a].kind) && db.actions[a].attempt.Some?
    requires IsProduct(db.actions[b].kind) && db.actions[b].attempt.Some?
    requires i < |db.actions[a].members| && Pending(db.actions[a].members[i])
    requires j < |db.actions[b].members| && Pending(db.actions[b].members[j])
    ensures KeyOf(db.actions[a], i) != KeyOf(db.actions[b], j)
  {
    assert Holds(db.actions[a], i) && Held(db, a, i);
    assert Holds(db.actions[b], j) && Held(db, b, j);
  }

  /** Member `i` is why action `a` occupies slot `k`. */
  predicate Reason(db: Tables, k: Key, a: int, i: nat)
    requires k in db.identities && a in db.actions
  {
    var act := db.actions[a];
    && i < |act.members| && KeyOf(act, i) == k
    && if Pending(act.members[i]) then act.state.Dispatching? || act.state.Reconciling?
       else IsProduct(act.kind) && Blocking(act.members[i].outcome.value.cls) && db.identities[k].state.BlockedUncertain?
  }

  /** The holder of a slot is an open action, or a finished product action with an unsettled member. */
  lemma HolderIsOpenOrUnsettled(db: Tables, k: Key, a: int)
    requires Inv(db) && k in db.identities && db.identities[k].active == Some(a)
    ensures a in db.actions && (Answered(db.actions[a]) || InDispatch(db, a))
    ensures exists i :: Reason(db, k, a, i)
  {
    assert HeldBy(db, k, a);
    var i :| 0 <= i < |db.actions[a].members| && Holds(db.actions[a], i) && KeyOf(db.actions[a], i) == k;
    assert Held(db, a, i) && ActionOk(db.actions[a]);
    assert Reason(db, k, a, i);
  }
}
