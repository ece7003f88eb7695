/** When a product identity leaves the hands of the action that mutates it. */
module Releases {
  import opened Common
  import opened Publication
  import opened Tables
  import opened Transactions
  import opened Slots
  import opened Folds
  import opened Invariant
  import opened Preservation
  import opened Journal
  import Evidence

  // ---------------------------------------------------------------- the member loops

  /** The verdicts name member `i` of the action, whose identity is `k`, as rejected by the marketplace. */
  predicate RejectedByVerdict(act: Action, i: nat, k: Key, verdicts: seq<MemberVerdict>) {
    && i < |act.members| && KeyOf(act, i) == k
    && VerdictOf(verdicts, act.members[i].id).Some? && !VerdictOf(verdicts, act.members[i].id).value.cls.InternalError?
  }

  lemma {:induction false} RejectMembersRelease(db: Tables, a: int, n: nat, verdicts: seq<MemberVerdict>, k: Key)
    requires SlotsOk(db) && LiveProduct(db, a) && KeysOk(db.actions[a]) && n <= |db.actions[a].members|
    requires Verdictal(verdicts) && RejectMembers(db, a, n, verdicts).Some? && k in db.identities
    ensures var next := RejectMembers(db, a, n, verdicts).value;
            && k in next.identities
            && (db.identities[k].active != Some(a) ==> next.identities[k] == db.identities[k])
            && (next.identities[k].active != db.identities[k].active ==>
                  exists i :: RejectedByVerdict(db.actions[a], i, k, verdicts))
  {
    if n > 0 {
      RejectMembersKeeps(db, a, n - 1, verdicts);
      RejectMembersRelease(db, a, n - 1, verdicts, k);
      var front := RejectMembers(db, a, n - 1, verdicts).value;
      var next := RejectMember(front, a, n - 1, verdicts).value;
      if next.identities[k].active != front.identities[k].active {
        assert RejectedByVerdict(db.actions[a], n - 1, k, verdicts);
      }
    }
  }

  /** The result is a proof about member `i` of the action, whose identity is `k`. */
  predicate ProvedByResult(db: Tables, act: Action, i: nat, k: Key, r: MemberResult) {
    && i < |act.members| && KeyOf(act, i) == k && act.members[i].id == r.memberId
    && match r.cls
       case Success => r.nmId > 0 && r.imtId > 0 && r.subjectId > 0
       case Rejected => r.errorBatchId > 0 ==> Correlated(db, act, r.errorBatchId, act.members[i].vendor)
       case _ => false
  }

  ghost predicate ProvedBySome(db: Tables, act: Action, k: Key, results: seq<MemberResult>) {
    exists i, j :: 0 <= j < |results| && ProvedByResult(db, act, i, k, results[j])
  }

  lemma RecordOneRelease(db: Tables, a: int, r: MemberResult, k: Key)
    requires SlotsOk(db) && LiveProduct(db, a) && KeysOk(db.actions[a]) && Evidential(r)
    requires RecordOne(db, a, r).Some? && k in db.identities
    ensures var next := RecordOne(db, a, r).value;
            && k in next.identities
            && (db.identities[k].active != Some(a) ==> next.identities[k] == db.identities[k])
            && (next.identities[k].active != db.identities[k].active ==>
                  exists i :: ProvedByResult(db, db.actions[a], i, k, r))
  {
    var act := db.actions[a];
    FindsOnly(act.members, r.memberId);
    var i := Find(act.members, r.memberId).value;
    if KeyOf(act, i) == k && !r.cls.Unresolved? {
      assert ProvedByResult(db, act, i, k, r);
    }
  }

  lemma {:induction false} RecordAllRelease(db: Tables, a: int, results: seq<MemberResult>, k: Key)
    requires SlotsOk(db) && LiveProduct(db, a) && KeysOk(db.actions[a]) && Evidence.GoodIds(db.actions[a].members)
    requires forall i :: 0 <= i < |results| ==> Evidential(results[i])
    requires forall i, j :: 0 <= i < j < |results| ==> results[i].memberId != results[j].memberId
    requires RecordAll(db, a, results).Some? && k in db.identities
    ensures var next := RecordAll(db, a, results).value;
            && k in next.identities
            && (db.identities[k].active != Some(a) ==> next.identities[k] == db.identities[k])
            && (next.identities[k].active != db.identities[k].active ==> ProvedBySome(db, db.actions[a], k, results))
  {
    if results != [] {
      var n := |results| - 1;
      RecordAllKeeps(db, a, results[..n]);
      RecordAllRelease(db, a, results[..n], k);
      var front := RecordAll(db, a, results[..n]).value;
      RecordOneRelease(front, a, results[n], k);
      if front.identities[k].active != db.identities[k].active {
        var i, j :| 0 <= j < n && ProvedByResult(db, db.actions[a], i, k, results[..n][j]);
        assert ProvedByResult(db, db.actions[a], i, k, results[j]);
      } else if RecordOne(front, a, results[n]).value.identities[k].active != front.identities[k].active {
        var i :| ProvedByResult(front, front.actions[a], i, k, results[n]);
        assert ProvedByResult(db, db.actions[a], i, k, results[n]);
      }
    }
  }

  // ---------------------------------------------------------------- all transactions

  /** What the transaction brings along to show that `a` no longer needs identity `k`. */
  ghost predicate Proof(db: Tables, tx: Tx, a: int, k: Key)
    requires a in db.actions
  {
    match tx
    case TxReject(b, s) => b == a && exists i :: RejectedByVerdict(db.actions[a], i, k, s.members)
    case TxPoll(b, results) => b == a && ProvedBySome(db, db.actions[a], k, results)
    case TxConclude(b, results, _) => b == a && ProvedBySome(db, db.actions[a], k, results)
    case TxResolve(b, i, _, ruling) =>
      b == a && i < |db.actions[a].members| && KeyOf(db.actions[a], i) == k &&
      !ruling.CloseNoRetry? && RulingProved(db, a, i, ruling)
    case _ => false
  }

  lemma RejectReleases(db: Tables, b: int, s: Submission, now: int, k: Key)
    requires Inv(db) && CanReject(db, b, s, now) && k in db.identities
    ensures var next := Reject(db, b, s, now);
            && k in next.identities
            && (db.identities[k].active != Some(b) ==> next.identities[k] == db.identities[k])
            && (next.identities[k].active != db.identities[k].active ==>
                  exists i :: RejectedByVerdict(db.actions[b], i, k, s.members))
  {
    var answered := RecordAnswer(db, b, s, now);
    assert ActionOk(db.actions[b]);
    AnswerKeepsSlots(db, b, s, now);
    RejectMembersRelease(answered, b, |db.actions[b].members|, s.members, k);
    if i :| RejectedByVerdict(answered.actions[b], i, k, s.members) {
      assert RejectedByVerdict(db.actions[b], i, k, s.members);
    }
  }

  lemma PollReleases(db: Tables, b: int, results: seq<MemberResult>, k: Key)
    requires Inv(db) && CanPoll(db, b, results) && k in db.identities
    requires forall i :: 0 <= i < |results| ==> Evidential(results[i])
    ensures var next := Poll(db, b, results);
            && k in next.identities
            && (db.identities[k].active != Some(b) ==> next.identities[k] == db.identities[k])
            && (next.identities[k].active != db.identities[k].active ==> ProvedBySome(db, db.actions[b], k, results))
  {
    assert ActionOk(db.actions[b]);
    RecordAllRelease(db, b, results, k);
  }

  // Which identities the remaining transactions may rewrite.

  lemma BeginTouches(db: Tables, a: int, baseline: Option<Stamp>, now: int, k: Key)
    requires CanBeginAttempt(db, a) && k in db.identities && !Free(db.identities[k])
    ensures var next := BeginAttempt(db, a, baseline, now).identities; k in next && next[k] == db.identities[k]
  {
  }

  lemma AwaitTouches(db: Tables, a: int, s: Submission, now: int, k: Key)
    requires InDispatch(db, a) && k in db.identities
    ensures var next := AwaitEvidence(db, a, s, now).identities;
            k in next && next[k].active == db.identities[k].active &&
            (db.identities[k].active != Some(a) ==> next[k] == db.identities[k])
  {
  }

  lemma AbortTouches(db: Tables, p: int, k: Key)
    requires k in db.identities && !Free(db.identities[k])
    ensures var next := Abort(db, p).identities; k in next && next[k] == db.identities[k]
  {
  }

  lemma BeginMediaTouches(db: Tables, a: int, nm: int, baseline: Option<Stamp>, now: int, k: Key)
    requires CanBeginMedia(db, a, nm) && k in db.identities
    requires !db.identities[k].state.RemotePresent? || db.identities[k].active.Some?
    ensures var next := BeginMedia(db, a, baseline, now).identities; k in next && next[k] == db.identities[k]
  {
  }

  lemma FinishMediaTouches(db: Tables, a: int, nm: int, o: Outcome, k: Key)
    requires CanFinishMedia(db, a, nm) && k in db.identities && db.identities[k].active != Some(a)
    ensures var next := FinishMedia(db, a, o).identities; k in next && next[k] == db.identities[k]
  {
  }

  lemma RecordMediaTouches(db: Tables, a: int, nm: int, s: Submission, o: Outcome, now: int, k: Key)
    requires CanRecordMedia(db, a, nm) && k in db.identities && db.identities[k].active != Some(a)
    ensures var next := RecordMedia(db, a, s, o, now).identities; k in next && next[k] == db.identities[k]
  {
    FinishMediaTouches(RecordAnswer(db, a, s, now), a, nm, o, k);
  }

  lemma ResolveTouches(db: Tables, a: int, i: nat, revision: nat, ruling: Ruling, k: Key)
    requires Resolvable(db, a, i, revision) && AllSettled(db.actions[a]) && k in db.identities
    ensures var next := Resolve(db, a, i, ruling).identities;
            k in next && (k != KeyOf(db.actions[a], i) || ruling.CloseNoRetry? ==> next[k] == db.identities[k])
  {
  }

  lemma MediaReleasesNothing(db: Tables, tx: Tx, now: int, k: Key, a: int)
    requires Inv(db) && Can(db, tx, now)
    requires tx.TxBeginMedia? || tx.TxSkipMedia? || tx.TxRecordMedia? || tx.TxSchedule? || tx.TxConcludeMedia?
    requires k in db.identities && db.identities[k].active == Some(a) && a in db.actions && IsProduct(db.actions[a].kind)
    ensures k in Do(db, tx, now).identities && Do(db, tx, now).identities[k] == db.identities[k]
  {
    match tx
    case TxBeginMedia(b, nm, baseline) => BeginMediaTouches(db, b, nm, baseline, now, k);
    case TxRecordMedia(b, nm, s, o) => RecordMediaTouches(db, b, nm, s, o, now, k);
    case TxConcludeMedia(b, nm, o) => FinishMediaTouches(db, b, nm, o, k);
    case _ =>
  }

  lemma BystandersReleaseNothing(db: Tables, tx: Tx, now: int, k: Key, a: int)
    requires Inv(db) && Can(db, tx, now)
    requires tx.TxInsertPlan? || tx.TxBeginAttempt? || tx.TxAwait? || tx.TxBeginRetry? || tx.TxRecordRetry? ||
             tx.TxSupersede? || tx.TxAbort?
    requires k in db.identities && db.identities[k].active == Some(a)
    ensures k in Do(db, tx, now).identities && Do(db, tx, now).identities[k].active == Some(a)
  {
    match tx
    case TxInsertPlan(_, _, identities, _) => UpsertKeeps(db.identities, identities);
    case TxBeginAttempt(b, baseline) => BeginTouches(db, b, baseline, now, k);
    case TxAwait(b, s) => AwaitTouches(db, b, s, now, k);
    case TxAbort(p) => AbortTouches(db, p, k);
    case _ =>
  }

  lemma SettlersNeedProof(db: Tables, tx: Tx, now: int, k: Key, a: int)
    requires Inv(db) && Can(db, tx, now) && FromEvidence(tx)
    requires tx.TxReject? || tx.TxPoll? || tx.TxConclude?
    requires k in db.identities && db.identities[k].active == Some(a) && a in db.actions
    ensures k in Do(db, tx, now).identities
    ensures Do(db, tx, now).identities[k].active == Some(a) || Proof(db, tx, a, k)
  {
    match tx
    case TxReject(b, s) => RejectReleases(db, b, s, now, k);
    case TxPoll(b, results) => PollReleases(db, b, results, k);
    case TxConclude(b, results, _) => PollReleases(db, b, results, k);
  }

  lemma ResolutionNeedsProof(db: Tables, tx: Tx, now: int, k: Key, a: int)
    requires Inv(db) && Can(db, tx, now) && tx.TxResolve?
    requires k in db.identities && db.identities[k].active == Some(a) && a in db.actions
    ensures k in Do(db, tx, now).identities
    ensures Do(db, tx, now).identities[k].active == Some(a) || Proof(db, tx, a, k)
  {
    ResolveTouches(db, tx.a, tx.i, tx.revision, tx.ruling, k);
  }

  /** A product action gives up an identity only against proof. */
  lemma ReleasedOnProof(db: Tables, tx: Tx, now: int, k: Key, a: int)
    requires Inv(db) && Can(db, tx, now) && FromEvidence(tx)
    requires k in db.identities && db.identities[k].active == Some(a) && a in db.actions && IsProduct(db.actions[a].kind)
    ensures k in Do(db, tx, now).identities
    ensures Do(db, tx, now).identities[k].active == Some(a) || Proof(db, tx, a, k)
  {
    if tx.TxReject? || tx.TxPoll? || tx.TxConclude? {
      SettlersNeedProof(db, tx, now, k, a);
    } else if tx.TxResolve? {
      ResolutionNeedsProof(db, tx, now, k, a);
    } else if tx.TxBeginMedia? || tx.TxSkipMedia? || tx.TxRecordMedia? || tx.TxSchedule? || tx.TxConcludeMedia? {
      MediaReleasesNothing(db, tx, now, k, a);
    } else {
      BystandersReleaseNothing(db, tx, now, k, a);
    }
  }

  /** Locked with nobody holding it: what aborting a plan leaves behind. */
  predicate Orphaned(db: Tables, k: Key) {
    k in db.identities && db.identities[k].state.BlockedUncertain? && db.identities[k].active.None?
  }

  lemma MediaLeavesOrphan(db: Tables, tx: Tx, now: int, k: Key)
    requires Can(db, tx, now) && Orphaned(db, k)
    requires tx.TxBeginMedia? || tx.TxSkipMedia? || tx.TxRecordMedia? || tx.TxSchedule? || tx.TxConcludeMedia?
    ensures k in Do(db, tx, now).identities && Do(db, tx, now).identities[k] == db.identities[k]
  {
    match tx
    case TxBeginMedia(b, nm, baseline) => BeginMediaTouches(db, b, nm, baseline, now, k);
    case TxRecordMedia(b, nm, s, o) => RecordMediaTouches(db, b, nm, s, o, now, k);
    case TxConcludeMedia(b, nm, o) => FinishMediaTouches(db, b, nm, o, k);
    case _ =>
  }

  /** No transaction ever touches an orphaned identity again. */
  lemma OrphanStays(db: Tables, tx: Tx, now: int, k: Key)
    requires Inv(db) && Can(db, tx, now) && FromEvidence(tx) && Orphaned(db, k)
    ensures k in Do(db, tx, now).identities && Do(db, tx, now).identities[k] == db.identities[k]
  {
    match tx
    case TxInsertPlan(_, _, identities, _) => UpsertLeavesLocked(db.identities, identities, k);
    case TxReject(b, s) => RejectReleases(db, b, s, now, k);
    case TxPoll(b, results) => PollReleases(db, b, results, k);
    case TxConclude(b, results, _) => PollReleases(db, b, results, k);
    case TxBeginAttempt(b, baseline) => BeginTouches(db, b, baseline, now, k);
    case TxAwait(b, s) => AwaitTouches(db, b, s, now, k);
    case TxAbort(p) => AbortTouches(db, p, k);
    case TxResolve(b, i, revision, ruling) => ResolveTouches(db, b, i, revision, ruling, k);
    case TxBeginRetry(_) =>
    case TxRecordRetry(_, _) =>
    case TxSupersede(_) =>
    case _ => MediaLeavesOrphan(db, tx, now, k);
  }

  lemma {:induction false} UpsertLeavesLocked(identities: map<Key, Identity>, drafts: seq<IdentityDraft>, k: Key)
    requires k in identities && (identities[k].state.MutationPending? || identities[k].state.BlockedUncertain?)
    ensures k in Upsert(identities, drafts) && Upsert(identities, drafts)[k] == identities[k]
  {
    if drafts != [] {
      UpsertLeavesLocked(identities, drafts[..|drafts| - 1], k);
    }
  }
}
