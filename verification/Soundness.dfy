/**
 The stored class of a product action is always the fold of its members' results, on every
 path that can write it.
 */
module Soundness {
  import opened Common
  import opened Publication
  import opened Tables
  import opened Transactions
  import opened Slots
  import opened Folds
  import opened Invariant
  import opened Preservation
  import opened Journal
  import Evidence
  import Reducers

  predicate ProvedRejection(retry: Retry) {
    && retry.answer.Some? && retry.answer.value.submission.delivery.ResponseReceived?
    && retry.answer.value.submission.disposition.RejectedProven?
  }

  /** A retry that is still out, or that proved a rejection, found no member settled. */
  predicate RetryUndisturbed(act: Action) {
    act.state.Reconciling? && act.retry.Some? && (act.retry.value.answer.None? || ProvedRejection(act.retry.value)) ==>
      AllPending(act)
  }

  /** Never-sent members are reported as an internal error; the fold calls them unresolved. */
  function Coarse(cls: ResultClass): ResultClass {
    if cls.InternalError? then Unresolved else cls
  }

  predicate MemberSound(m: Member) {
    if Pending(m) then !m.attributed else !m.outcome.value.cls.Partial?
  }

  ghost predicate ClassSound(act: Action) {
    act.state.Terminal? && Answered(act) ==>
      AllSettled(act) && act.outcome.Some? && Coarse(act.outcome.value) == Evidence.ActionClass(ClassesOf(act.members))
  }

  /** A transport failure never counts as acceptance. */
  predicate Cautious(s: Submission) {
    s.code.Transport? ==> !s.disposition.Accepted?
  }

  ghost predicate Sound(act: Action) {
    IsProduct(act.kind) ==>
      && (forall i :: 0 <= i < |act.members| ==> MemberSound(act.members[i]))
      && RetryUndisturbed(act) && ClassSound(act)
      && (Answered(act) ==> Cautious(act.attempt.value.answer.value.submission))
  }

  ghost predicate AllSound(db: Tables) {
    forall a :: a in db.actions ==> Sound(db.actions[a])
  }

  /** In a sound state the stored class is also what the resolution reducer would compute. */
  lemma StoredClassIsResolved(act: Action)
    requires ActionOk(act) && Sound(act) && IsProduct(act.kind) && act.state.Terminal? && Answered(act)
    ensures Coarse(act.outcome.value) == Reducers.ResolvedActionClass(Reducers.TallyOf(ClassesOf(act.members)))
  {
    NoPartial(act);
    Reducers.ActionReducersAgreeIff(ClassesOf(act.members));
  }

  lemma NoPartial(act: Action)
    requires AllSettled(act) && forall i :: 0 <= i < |act.members| ==> MemberSound(act.members[i])
    ensures Partial !in ClassesOf(act.members)
  {
    forall i | 0 <= i < |act.members| ensures !ClassesOf(act.members)[i].Partial? {
      assert MemberSound(act.members[i]);
    }
  }

  // ---------------------------------------------------------------- every transaction keeps it

  /** A poll must not interfere with a retry that is out or that proved a rejection. */
  predicate PollAllowed(act: Action) {
    act.retry.Some? ==> act.retry.value.answer.Some? && !ProvedRejection(act.retry.value)
  }

  /** How the service chooses the class it concludes with. */
  ghost predicate Concludes(act: Action, results: seq<MemberResult>, cls: ResultClass) {
    AllSettled(act.(members := AllApplied(act.members, results))) &&
    cls == Evidence.ActionClass(ClassesOf(AllApplied(act.members, results)))
  }

  /** The transactions the service issues for product actions, with the facts it read before. */
  ghost predicate FromService(db: Tables, tx: Tx) {
    && FromEvidence(tx)
    && match tx
       case TxAwait(a, s) => Cautious(s)
       case TxReject(a, s) => Cautious(s)
       case TxBeginRetry(a) => a in db.actions ==> AllPending(db.actions[a])
       case TxPoll(a, results) => a in db.actions ==> PollAllowed(db.actions[a])
       case TxConclude(a, results, cls) => a in db.actions ==> Concludes(db.actions[a], results, cls)
       case _ => true
  }

  lemma AppliedSound(members: seq<Member>, results: seq<MemberResult>)
    requires forall i :: 0 <= i < |members| ==> MemberSound(members[i])
    requires forall i :: 0 <= i < |results| ==> Evidential(results[i])
    ensures forall i :: 0 <= i < |members| ==> MemberSound(AllApplied(members, results)[i])
  {
    forall i | 0 <= i < |members| ensures MemberSound(Applied(members[i], results)) {
      FoundResult(results, members[i].id);
    }
  }

  lemma {:induction false} FoundResult(results: seq<MemberResult>, id: int)
    ensures ResultFor(results, id).Some? ==> ResultFor(results, id).value in results && ResultFor(results, id).value.memberId == id
  {
    if results != [] {
      FoundResult(results[..|results| - 1], id);
    }
  }

  lemma PollSound(db: Tables, a: int, results: seq<MemberResult>)
    requires Inv(db) && AllSound(db) && CanPoll(db, a, results) && FromService(db, TxPoll(a, results))
    ensures AllSound(Poll(db, a, results))
  {
    PollSettles(db, a, results);
    assert Sound(db.actions[a]);
    AppliedSound(db.actions[a].members, results);
  }

  /** Closing `a` leaves every other product action as it was. */
  lemma CloseSound(db: Tables, a: int, cls: ResultClass)
    requires a in db.actions && IsProduct(db.actions[a].kind)
    requires forall b :: b in db.actions && b != a ==> Sound(db.actions[b])
    requires Sound(Finish(db.actions[a], Terminal, cls))
    ensures AllSound(Close(db, a, cls))
  {
    var next := Closed(db, a, cls);
    forall b | b in next.actions ensures Sound(next.actions[b]) { }
  }

  lemma ConcludeSound(db: Tables, a: int, results: seq<MemberResult>, cls: ResultClass)
    requires Inv(db) && AllSound(db) && CanConclude(db, a, results) && FromService(db, TxConclude(a, results, cls))
    ensures AllSound(Conclude(db, a, results, cls))
  {
    var settled := Poll(db, a, results);
    PollSettles(db, a, results);
    assert Sound(db.actions[a]);
    AppliedSound(db.actions[a].members, results);
    NotInternal(ClassesOf(settled.actions[a].members));
    CloseSound(settled, a, cls);
  }

  lemma NotInternal(classes: seq<ResultClass>)
    ensures !Evidence.ActionClass(classes).InternalError?
  {
  }

  lemma RejectSound(db: Tables, a: int, s: Submission, now: int)
    requires Inv(db) && AllSound(db) && CanReject(db, a, s, now) && Cautious(s)
    ensures AllSound(Reject(db, a, s, now))
  {
    var answered, settled := RecordAnswer(db, a, s, now), Rejections(db, a, s, now).value;
    var cls := RejectionClass(db.actions[a].members, s.members);
    assert ActionOk(db.actions[a]) && Sound(db.actions[a]);
    AnswerKeepsSlots(db, a, s, now);
    RejectMembersKeeps(answered, a, |db.actions[a].members|, s.members);
    RejectedFold(db.actions[a].members, settled.actions[a].members, s.members);
    CloseSound(settled, a, cls);
  }

  lemma RejectedFold(members: seq<Member>, settled: seq<Member>, verdicts: seq<MemberVerdict>)
    requires members != [] && |settled| == |members|
    requires forall i :: 0 <= i < |members| ==> RejectedAs(members[i], settled[i], verdicts)
    ensures forall i :: 0 <= i < |settled| ==> !Pending(settled[i]) && MemberSound(settled[i])
    ensures Coarse(RejectionClass(members, verdicts)) == Evidence.ActionClass(ClassesOf(settled))
  {
    var classes := ClassesOf(settled);
    forall i | 0 <= i < |members|
      ensures classes[i] == VerdictOf(verdicts, members[i].id).value.cls
    {
      assert RejectedAs(members[i], settled[i], verdicts);
    }
    if AnyInternal(verdicts, members) {
      var i :| 0 <= i < |members| && VerdictOf(verdicts, members[i].id).Some? &&
               VerdictOf(verdicts, members[i].id).value.cls.InternalError?;
      assert !Evidence.Accepts(classes[i]) && !classes[i].Rejected?;
    } else {
      forall i | 0 <= i < |classes| ensures classes[i].Rejected? {
        assert RejectedAs(members[i], settled[i], verdicts);
      }
    }
  }

  lemma ReducedSound(act: Action, revision: nat)
    requires act.members != [] && AllSettled(act) && act.state.Terminal? && Answered(act)
    requires forall j :: 0 <= j < |act.members| ==> MemberSound(act.members[j])
    requires Cautious(act.attempt.value.answer.value.submission)
    ensures Sound(act.(outcome := Some(Reducers.ResolvedActionClass(Reducers.TallyOf(ClassesOf(act.members)))),
                       revision := revision))
  {
    NoPartial(act);
    NotInternal(ClassesOf(act.members));
    Reducers.ActionReducersAgreeIff(ClassesOf(act.members));
  }

  lemma CorrectedSound(db: Tables, a: int, i: nat, revision: nat, ruling: Ruling)
    requires Inv(db) && AllSound(db) && Resolvable(db, a, i, revision) && RulingProved(db, a, i, ruling)
    ensures var act := Corrected(db, a, i, ruling).actions[a];
            forall j :: 0 <= j < |act.members| ==> MemberSound(act.members[j])
  {
    assert Sound(db.actions[a]);
  }

  lemma ResolvedSound(db: Tables, a: int)
    requires a in db.actions && (forall b :: b in db.actions && b != a ==> Sound(db.actions[b])) && ActionOk(db.actions[a])
    requires AllSettled(db.actions[a]) && db.actions[a].state.Terminal? && Answered(db.actions[a])
    requires forall j :: 0 <= j < |db.actions[a].members| ==> MemberSound(db.actions[a].members[j])
    requires Cautious(db.actions[a].attempt.value.answer.value.submission)
    ensures AllSound(Resolved(db, a))
  {
    ReducedSound(db.actions[a], db.actions[a].revision + 1);
  }

  lemma ResolveSound(db: Tables, a: int, i: nat, revision: nat, ruling: Ruling)
    requires Inv(db) && AllSound(db) && Resolvable(db, a, i, revision) && RulingProved(db, a, i, ruling) && AllSettled(db.actions[a])
    ensures AllSound(Resolve(db, a, i, ruling))
  {
    CorrectedKeeps(db, a, i, revision, ruling);
    CorrectedActions(db, a, i, revision, ruling);
    CorrectedSound(db, a, i, revision, ruling);
    assert Sound(db.actions[a]);
    ResolvedSound(Corrected(db, a, i, ruling), a);
  }

  lemma AbortSound(db: Tables, p: int)
    requires Inv(db) && AllSound(db)
    ensures AllSound(Abort(db, p))
  {
    forall a | a in db.actions ensures Sound(AbortRows(db, p).actions[a]) {
      assert Sound(db.actions[a]) && ActionOk(db.actions[a]);
    }
  }

  lemma SupersedeSound(db: Tables, p: int)
    requires Inv(db) && AllSound(db) && CanSupersede(db, p)
    ensures AllSound(Supersede(db, p))
  {
    forall a | a in db.actions ensures Sound(Supersede(db, p).actions[a]) {
      assert Sound(db.actions[a]) && ActionOk(db.actions[a]);
    }
  }

  lemma InsertSound(db: Tables, p: int, drafts: map<int, Action>, identities: seq<IdentityDraft>, cls: ResultClass)
    requires AllSound(db) && CanInsertPlan(db, p, drafts, identities)
    ensures AllSound(InsertPlan(db, p, drafts, identities, cls))
  {
    forall a | a in drafts ensures Sound(drafts[a]) {
      assert DraftOk(drafts[a], p);
    }
  }

  lemma OpenRowSound(db: Tables, tx: Tx, now: int)
    requires Inv(db) && AllSound(db) && Can(db, tx, now) && FromService(db, tx)
    requires tx.TxBeginAttempt? || tx.TxAwait? || tx.TxBeginRetry? || tx.TxRecordRetry?
    ensures AllSound(Do(db, tx, now))
  {
    assert ActionOk(db.actions[tx.a]) && Sound(db.actions[tx.a]);
  }

  /** Media transactions rewrite media rows only. */
  lemma MediaSound(db: Tables, tx: Tx, now: int)
    requires AllSound(db) && Can(db, tx, now)
    requires tx.TxBeginMedia? || tx.TxSkipMedia? || tx.TxRecordMedia? || tx.TxSchedule? || tx.TxConcludeMedia?
    ensures AllSound(Do(db, tx, now))
  {
  }

  lemma SettlerSound(db: Tables, tx: Tx, now: int)
    requires Inv(db) && AllSound(db) && Can(db, tx, now) && FromService(db, tx)
    requires tx.TxReject? || tx.TxPoll? || tx.TxConclude? || tx.TxResolve?
    ensures AllSound(Do(db, tx, now))
  {
    match tx
    case TxReject(a, s) => RejectSound(db, a, s, now);
    case TxPoll(a, results) => PollSound(db, a, results);
    case TxConclude(a, results, cls) => ConcludeSound(db, a, results, cls);
    case TxResolve(a, i, revision, ruling) => ResolveSound(db, a, i, revision, ruling);
  }

  /** Every transaction the service issues keeps the stored classes right. */
  lemma CommitSound(db: Tables, tx: Tx, now: int)
    requires Inv(db) && AllSound(db) && Can(db, tx, now) && FromService(db, tx)
    ensures AllSound(Do(db, tx, now))
  {
    if tx.TxReject? || tx.TxPoll? || tx.TxConclude? || tx.TxResolve? {
      SettlerSound(db, tx, now);
    } else if tx.TxBeginAttempt? || tx.TxAwait? || tx.TxBeginRetry? || tx.TxRecordRetry? {
      OpenRowSound(db, tx, now);
    } else if tx.TxInsertPlan? {
      InsertSound(db, tx.plan, tx.drafts, tx.identities, tx.preflight);
    } else if tx.TxSupersede? {
      SupersedeSound(db, tx.plan);
    } else if tx.TxAbort? {
      AbortSound(db, tx.plan);
    } else {
      MediaSound(db, tx, now);
    }
  }
}
