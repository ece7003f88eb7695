/**
 Whether an attempted media action can still end. Its last transaction also releases the card, and a plan inserted in
 the meantime may have overwritten the card's row.
 */
module MediaDeadline {
  import opened Common
  import opened Publication
  import opened Tables
  import opened Transactions
  import opened Slots
  import opened Invariant
  import opened Journal
  import opened MediaJournal
  import Folds
  import Releases
  import MD = MediaDispatch
  import MV = MediaVisibility

  // ---------------------------------------------------------------- the card of an attempted media action

  /** The call for the media is under way, or its visibility is being watched. */
  predicate UnderWay(db: Tables, a: int) {
    IsMedia(db, a) && (db.actions[a].state.Dispatching? || db.actions[a].state.Reconciling?)
  }

  function CardKey(db: Tables, a: int): Key
    requires IsMedia(db, a)
  {
    KeyOf(db.actions[a], 0)
  }

  /** The row of the card says that it is present, under the number `nm`. */
  predicate Present(db: Tables, k: Key, nm: int) {
    k in db.identities && db.identities[k].state.RemotePresent? && db.identities[k].nmId == nm
  }

  /** The card is present under the action's number `nm`. */
  predicate CardIs(db: Tables, a: int, nm: int)
    requires IsMedia(db, a)
  {
    Present(db, CardKey(db, a), nm) && nm > 0 && Numbered(db, db.actions[a], nm)
  }

  lemma HeldCard(db: Tables, a: int)
    requires Inv(db) && UnderWay(db, a)
    ensures CardKey(db, a) in db.identities && db.identities[CardKey(db, a)].active == Some(a)
    ensures Pending(db.actions[a].members[0]) && db.actions[a].plan in db.plans && db.actions[a].attempt.Some?
    ensures if db.actions[a].state.Reconciling? then Answered(db.actions[a]) else InDispatch(db, a)
  {
    assert ActionOk(db.actions[a]);
    assert Holds(db.actions[a], 0) && Held(db, a, 0);
  }

  lemma LocksIff(db: Tables, a: int, nm: int)
    requires Inv(db) && UnderWay(db, a)
    ensures Locks(db, a, nm) <==> CardIs(db, a, nm)
  {
    HeldCard(db, a);
  }

  /** The statement that ends a watched action reaches the card exactly when it is present with the number. */
  lemma ConcludesIff(db: Tables, a: int, nm: int)
    requires Inv(db) && UnderWay(db, a) && db.actions[a].state.Reconciling?
    ensures CanConcludeMedia(db, a, nm) <==> Present(db, CardKey(db, a), nm)
  {
    HeldCard(db, a);
  }

  /** So does the one that ends a dispatching action without watching it. */
  lemma RecordsIff(db: Tables, a: int, nm: int)
    requires Inv(db) && UnderWay(db, a) && db.actions[a].state.Dispatching?
    ensures CanRecordMedia(db, a, nm) <==> Present(db, CardKey(db, a), nm)
  {
    HeldCard(db, a);
  }

  // ---------------------------------------------------------------- storing the answer

  /** A transaction that stores an answer; only an answer that proves a rejection is not followed up. */
  predicate StoresAnswer(tx: Tx, a: int, nm: int) {
    Answers(tx, a, nm) && (tx.TxSchedule? ==> !tx.s.disposition.RejectedProven?)
  }

  lemma AnswerCommitsIff(db: Tables, tx: Tx, now: int, a: int, nm: int)
    requires Inv(db) && UnderWay(db, a) && db.actions[a].state.Dispatching? && StoresAnswer(tx, a, nm)
    ensures Locks(db, a, nm) && Can(db, tx, now) <==> CardIs(db, a, nm)
  {
    HeldCard(db, a);
    LocksIff(db, a, nm);
    if tx.TxRecordMedia? {
      RecordsIff(db, a, nm);
    }
  }

  /** The answer of a call, or its loss, can be stored exactly while the card is present with the action's number. */
  lemma AnswerStoredIff(j: Joint, a: int, nm: int, tx: Tx, timing: Timing)
    requires JointInv(j) && UnderWay(j.db, a) && j.db.actions[a].state.Dispatching? && StoresAnswer(tx, a, nm) && Positive(timing)
    ensures a in j.process.workers && j.process.workers[a].Storing? ==>
              (Enabled(j, Store(a, nm, tx, timing)) <==> CardIs(j.db, a, nm))
    ensures j.process.poller.Burying? && j.process.poller.a == a ==>
              (Enabled(j, Bury(nm, tx, timing)) <==> CardIs(j.db, a, nm))
  {
    AnswerCommitsIff(j.db, tx, j.now, a, nm);
  }

  // ---------------------------------------------------------------- the deadline

  predicate OpenJob(j: Joint, a: int) { a in j.jobs && j.jobs[a].job.finishedAt.None? }

  lemma OpenIsUnderWay(j: Joint, a: int)
    requires JointInv(j) && OpenJob(j, a)
    ensures UnderWay(j.db, a) && j.db.actions[a].state.Reconciling? && MV.Fenced(j.jobs[a])
  {
    assert JobOk(j.db, j.jobs, a) && ActionOk(j.db.actions[a]);
  }

  /** A check that the deadline overtook has an outcome, and the job row accepts it from the current claim. */
  lemma LateCheckEnds(w: MV.World, claim: MV.Claim, interval: int, before: int, seen: Option<(bool, nat)>, after: int, clock: int)
    requires MV.Fenced(w) && w.job.finishedAt.None? && MV.Issued(w.journal, claim) && claim.revision == w.job.revision
    requires before <= after <= clock && w.job.deadlineAt <= after
    ensures EndsJob(w, claim, MV.CheckVisibility(claim, interval, before, seen, after), clock)
  {
    var i :| 0 <= i < |w.journal| && w.journal[i].DidClaim? && w.journal[i].claim == claim;
    MV.CheckIsAccepted(w.job, claim, interval, before, seen, after, clock);
  }

  /** From the deadline on, the check of the current claim ends job and action exactly when the card is still there. */
  lemma LateCheckEndsIff(j: Joint, a: int, nm: int, claim: MV.Claim, interval: int, before: int, seen: Option<(bool, nat)>,
                         after: int, clock: int)
    requires JointInv(j) && OpenJob(j, a) && IsMedia(j.db, a)
    requires MV.Issued(j.jobs[a].journal, claim) && claim.revision == j.jobs[a].job.revision
    requires before <= after <= clock && j.jobs[a].job.deadlineAt <= after
    ensures var u := MV.CheckVisibility(claim, interval, before, seen, after);
            Enabled(j, Finish(a, nm, claim, u, after, clock)) <==> CardIs(j.db, a, nm)
  {
    OpenIsUnderWay(j, a);
    LateCheckEnds(j.jobs[a], claim, interval, before, seen, after, clock);
    LocksIff(j.db, a, nm);
    ConcludesIff(j.db, a, nm);
  }

  /** What such a check leaves behind. */
  lemma FinishEnds(j: Joint, a: int, nm: int, claim: MV.Claim, u: MV.Update, at: int, clock: int)
    requires JointInv(j) && Enabled(j, Finish(a, nm, claim, u, at, clock))
    ensures var t := Next(j, Finish(a, nm, claim, u, at, clock));
            && a in t.jobs && t.jobs[a].job.finishedAt.Some? && IsMedia(t.db, a) && t.db.actions[a].state.Terminal?
            && t.db.actions[a].members[0].outcome == u.outcome
  {
    FinishedRow(j.db, a, nm, u.outcome.value);
  }

  /** The job of `a` is claimed at time `now`. */
  ghost function ClaimedJob(j: Joint, a: int, nm: int, now: int, lease: int): Joint
    requires a in j.jobs
  {
    Next(j, Watch(a, nm, MV.TryClaim(now, lease)))
  }

  function CurrentClaim(j: Joint, a: int): MV.Claim
    requires a in j.jobs
  {
    MV.Claim(j.jobs[a].job.revision, j.jobs[a].job.deadlineAt)
  }

  lemma ClaimIsIssued(j: Joint, a: int, nm: int, now: int, lease: int)
    requires JointInv(j) && OpenJob(j, a) && j.jobs[a].job.deadlineAt <= now
    requires j.jobs[a].job.leasedUntil.None? || j.jobs[a].job.leasedUntil.value <= now
    ensures var t := ClaimedJob(j, a, nm, now, lease);
            && JointInv(t) && t.db == j.db && OpenJob(t, a) && t.jobs[a].job.deadlineAt == j.jobs[a].job.deadlineAt
            && MV.Issued(t.jobs[a].journal, CurrentClaim(t, a))
  {
    var t := ClaimedJob(j, a, nm, now, lease);
    OpenIsUnderWay(j, a);
    MoveKeeps(j, Watch(a, nm, MV.TryClaim(now, lease)));
    var journal := t.jobs[a].journal;
    assert journal[|journal| - 1] == MV.DidClaim(CurrentClaim(t, a), now, lease);
  }

  /**
   An open job whose lease ran out can always be claimed at its deadline. The check of that claim ends job and action,
   with the outcome of the check, exactly when the card is still present with the action's number.
   */
  lemma DeadlineEndsIff(j: Joint, a: int, nm: int, now: int, lease: int, interval: int, seen: Option<(bool, nat)>, after: int, clock: int)
    requires JointInv(j) && OpenJob(j, a) && IsMedia(j.db, a) && j.jobs[a].job.deadlineAt <= now <= after <= clock
    requires j.jobs[a].job.leasedUntil.None? || j.jobs[a].job.leasedUntil.value <= now
    ensures var t := ClaimedJob(j, a, nm, now, lease);
            var claim := CurrentClaim(t, a);
            var check := Finish(a, nm, claim, MV.CheckVisibility(claim, interval, now, seen, after), after, clock);
            Enabled(t, check) <==> CardIs(j.db, a, nm)
  {
    ClaimIsIssued(j, a, nm, now, lease);
    var t := ClaimedJob(j, a, nm, now, lease);
    LateCheckEndsIff(t, a, nm, CurrentClaim(t, a), interval, now, seen, after, clock);
  }

  // ---------------------------------------------------------------- a plan that overwrites the card

  /** The action is under way, but the row of its card no longer says that the card is present. */
  predicate Overwritten(db: Tables, a: int) {
    UnderWay(db, a) && CardKey(db, a) in db.identities && !db.identities[CardKey(db, a)].state.RemotePresent?
  }

  /** A plan without actions that found a conflict on the card. */
  function ConflictPlan(p: int, k: Key): Tx { TxInsertPlan(p, map[], [IdentityDraft(k, RemoteConflict, 0, 0, 0)], Rejected) }

  lemma ConflictIsStored(db: Tables, p: int, a: int)
    requires UnderWay(db, a) && CardKey(db, a) in db.identities && p !in db.plans
    ensures var drafts := [IdentityDraft(CardKey(db, a), RemoteConflict, 0, 0, 0)];
            CanInsertPlan(db, p, map[], drafts) && Overwritten(InsertPlan(db, p, map[], drafts, Rejected), a)
  {
    var k := CardKey(db, a);
    var drafts := [IdentityDraft(k, RemoteConflict, 0, 0, 0)];
    var next := InsertPlan(db, p, map[], drafts, Rejected);
    assert drafts[..0] == [] && Upsert(db.identities, drafts) == UpsertOne(db.identities, drafts[0]);
    assert next.actions == db.actions;
  }

  /** Whatever media is under way, a plan may be inserted that overwrites its card; the job stays open. */
  lemma PlanMayOverwrite(j: Joint, a: int, p: int)
    requires JointInv(j) && UnderWay(j.db, a) && p !in j.db.plans
    ensures var m := Elsewhere(ConflictPlan(p, CardKey(j.db, a)));
            Enabled(j, m) && JointInv(Next(j, m)) && Overwritten(Next(j, m).db, a) && Next(j, m).jobs == j.jobs
  {
    HeldCard(j.db, a);
    ConflictIsStored(j.db, p, a);
    MoveKeeps(j, Elsewhere(ConflictPlan(p, CardKey(j.db, a))));
  }

  /** Then no transaction on the action gets past its lock, whatever number it brings. */
  lemma OverwrittenIsLockedOut(db: Tables, a: int, nm: int)
    requires Overwritten(db, a)
    ensures !Locks(db, a, nm) && !CanConcludeMedia(db, a, nm) && !CanRecordMedia(db, a, nm)
  {
  }

  // ---------------------------------------------------------------- only another plan helps

  predicate Names(drafts: seq<IdentityDraft>, k: Key) { exists i :: 0 <= i < |drafts| && drafts[i].key == k }

  lemma {:induction false} UnnamedStays(identities: map<Key, Identity>, drafts: seq<IdentityDraft>, k: Key)
    requires k in identities && !Names(drafts, k)
    ensures k in Upsert(identities, drafts) && Upsert(identities, drafts)[k] == identities[k]
  {
    if drafts != [] {
      var n := |drafts| - 1;
      assert drafts[n].key != k;
      assert forall i :: 0 <= i < n ==> drafts[..n][i] == drafts[i];
      UnnamedStays(identities, drafts[..n], k);
    }
  }

  lemma SettlersLeaveCard(db: Tables, tx: Tx, now: int, k: Key, a: int)
    requires Inv(db) && Can(db, tx, now) && FromEvidence(tx) && (tx.TxReject? || tx.TxPoll? || tx.TxConclude?)
    requires k in db.identities && db.identities[k].active == Some(a) && MediaIn(db, a)
    ensures k in Do(db, tx, now).identities && Do(db, tx, now).identities[k] == db.identities[k]
  {
    match tx
    case TxReject(b, s) => RejectionLeavesCard(db, b, s, now, k, a);
    case TxPoll(b, results) => PollLeavesCard(db, b, results, k, a);
    case TxConclude(b, results, _) => PollLeavesCard(db, b, results, k, a);
  }

  lemma RejectionLeavesCard(db: Tables, b: int, s: Submission, now: int, k: Key, a: int)
    requires Inv(db) && CanReject(db, b, s, now)
    requires k in db.identities && db.identities[k].active == Some(a) && MediaIn(db, a)
    ensures var next := Reject(db, b, s, now).identities; k in next && next[k] == db.identities[k]
  {
    Releases.RejectReleases(db, b, s, now, k);
  }

  lemma PollLeavesCard(db: Tables, b: int, results: seq<MemberResult>, k: Key, a: int)
    requires Inv(db) && CanPoll(db, b, results) && forall i :: 0 <= i < |results| ==> Folds.Evidential(results[i])
    requires k in db.identities && db.identities[k].active == Some(a) && MediaIn(db, a)
    ensures var next := Poll(db, b, results).identities; k in next && next[k] == db.identities[k]
  {
    Releases.PollReleases(db, b, results, k);
  }

  lemma ResolutionLeavesCard(db: Tables, b: int, i: nat, revision: nat, ruling: Ruling, k: Key, a: int)
    requires Resolvable(db, b, i, revision) && AllSettled(db.actions[b])
    requires k in db.identities && db.identities[k].active == Some(a) && MediaIn(db, a)
    ensures var next := Resolve(db, b, i, ruling).identities; k in next && next[k] == db.identities[k]
  {
    Releases.ResolveTouches(db, b, i, revision, ruling, k);
  }

  lemma OrdersLeaveCard(db: Tables, tx: Tx, now: int, k: Key, a: int)
    requires Inv(db) && Can(db, tx, now) && (tx.TxBeginAttempt? || tx.TxAwait? || tx.TxAbort?)
    requires k in db.identities && db.identities[k].active == Some(a) && MediaIn(db, a)
    ensures k in Do(db, tx, now).identities && Do(db, tx, now).identities[k] == db.identities[k]
  {
    match tx
    case TxBeginAttempt(b, baseline) => Releases.BeginTouches(db, b, baseline, now, k);
    case TxAwait(b, s) => Releases.AwaitTouches(db, b, s, now, k);
    case TxAbort(p) => Releases.AbortTouches(db, p, k);
  }

  /** Product transactions leave the row of a card alone that a media action holds. */
  lemma BystanderLeavesCard(db: Tables, tx: Tx, now: int, k: Key, a: int)
    requires Inv(db) && Can(db, tx, now) && FromEvidence(tx) && Bystander(tx)
    requires k in db.identities && db.identities[k].active == Some(a) && MediaIn(db, a)
    ensures k in Do(db, tx, now).identities && Do(db, tx, now).identities[k] == db.identities[k]
  {
    if tx.TxReject? || tx.TxPoll? || tx.TxConclude? {
      SettlersLeaveCard(db, tx, now, k, a);
    } else if tx.TxResolve? {
      ResolutionLeavesCard(db, tx.a, tx.i, tx.revision, tx.ruling, k, a);
    } else if tx.TxBeginAttempt? || tx.TxAwait? || tx.TxAbort? {
      OrdersLeaveCard(db, tx, now, k, a);
    }
  }

  /** The action's row and the row of its card are as they were. */
  predicate SameRows(db: Tables, next: Tables, a: int)
    requires IsMedia(db, a)
  {
    && a in next.actions && next.actions[a] == db.actions[a]
    && CardKey(db, a) in db.identities && CardKey(db, a) in next.identities
    && next.identities[CardKey(db, a)] == db.identities[CardKey(db, a)]
  }

  /** The move inserts a plan with a new observation of the card. */
  ghost predicate Replans(m: Move, k: Key) { m.Elsewhere? && m.tx.TxInsertPlan? && Names(m.tx.identities, k) }

  lemma ElsewhereLeavesRows(j: Joint, tx: Tx, a: int)
    requires JointInv(j) && UnderWay(j.db, a) && Enabled(j, Elsewhere(tx)) && !Replans(Elsewhere(tx), CardKey(j.db, a))
    ensures SameRows(j.db, Do(j.db, tx, j.now), a)
  {
    var k := CardKey(j.db, a);
    HeldCard(j.db, a);
    if tx.TxInsertPlan? {
      UnnamedStays(j.db.identities, tx.identities, k);
    } else {
      BystanderLeavesCard(j.db, tx, j.now, k, a);
      BystanderLeavesMedia(j.db, tx, j.now);
      assert OnlyEnded(j.db.actions[a], Do(j.db, tx, j.now).actions[a]);
    }
  }

  // Transactions on another media action `b`.

  lemma OtherBegins(db: Tables, a: int, b: int, nm: int, baseline: Option<Stamp>, now: int)
    requires Inv(db) && UnderWay(db, a) && b != a && CanBeginMedia(db, b, nm)
    ensures SameRows(db, BeginMedia(db, b, baseline, now), a)
  {
    HeldCard(db, a);
    Releases.BeginMediaTouches(db, b, nm, baseline, now, CardKey(db, a));
  }

  lemma OtherFinishes(db: Tables, a: int, b: int, nm: int, o: Outcome)
    requires Inv(db) && UnderWay(db, a) && b != a && CanFinishMedia(db, b, nm)
    ensures SameRows(db, FinishMedia(db, b, o), a)
  {
    HeldCard(db, a);
    Releases.FinishMediaTouches(db, b, nm, o, CardKey(db, a));
  }

  lemma OtherRecords(db: Tables, a: int, b: int, nm: int, s: Submission, o: Outcome, now: int)
    requires Inv(db) && UnderWay(db, a) && b != a && CanRecordMedia(db, b, nm)
    ensures SameRows(db, RecordMedia(db, b, s, o, now), a)
  {
    HeldCard(db, a);
    Releases.RecordMediaTouches(db, b, nm, s, o, now, CardKey(db, a));
  }

  lemma OtherAnswers(db: Tables, tx: Tx, now: int, a: int, b: int, nm: int)
    requires Inv(db) && UnderWay(db, a) && b != a && Can(db, tx, now) && Answers(tx, b, nm)
    ensures SameRows(db, Do(db, tx, now), a)
  {
    HeldCard(db, a);
    if tx.TxRecordMedia? {
      OtherRecords(db, a, b, nm, tx.s, tx.o, now);
    }
  }

  lemma OtherSkips(db: Tables, a: int, b: int)
    requires Inv(db) && UnderWay(db, a) && CanSkipMedia(db, b)
    ensures SameRows(db, SkipMediaAction(db, b), a)
  {
    HeldCard(db, a);
  }

  // ---------------------------------------------------------------- whole runs

  lemma WriterLeavesRows(j: Joint, m: Move, a: int)
    requires JointInv(j) && Overwritten(j.db, a) && Enabled(j, m) && (m.Begin? || m.Skip? || m.Store? || m.Bury? || m.Finish?)
    ensures SameRows(j.db, Next(j, m).db, a)
  {
    OverwrittenIsLockedOut(j.db, a, m.nm);
    match m
    case Begin(b, nm, baseline) => OtherBegins(j.db, a, b, nm, baseline, j.now);
    case Skip(b, _) => OtherSkips(j.db, a, b);
    case Store(b, nm, tx, _) => OtherAnswers(j.db, tx, j.now, a, b, nm);
    case Bury(nm, tx, _) => OtherAnswers(j.db, tx, j.now, a, j.process.poller.a, nm);
    case Finish(b, nm, _, u, _, _) => OtherFinishes(j.db, a, b, nm, u.outcome.value);
  }

  /** No move but a new plan for its identity changes the action or its card, and its job stays open. */
  lemma OverwrittenStays(j: Joint, m: Move, a: int)
    requires JointInv(j) && Overwritten(j.db, a) && Enabled(j, m) && !Replans(m, CardKey(j.db, a))
    ensures SameRows(j.db, Next(j, m).db, a)
  {
    HeldCard(j.db, a);
    if m.Begin? || m.Skip? || m.Store? || m.Bury? || m.Finish? {
      WriterLeavesRows(j, m, a);
    } else if m.Elsewhere? {
      ElsewhereLeavesRows(j, m.tx, a);
    }
  }

  /** One move of a run, as the pair of tables around it. */
  ghost predicate StuckStep(db: Tables, next: Tables, a: int, k: Key) {
    Overwritten(db, a) && CardKey(db, a) == k ==> Overwritten(next, a) && next.actions[a] == db.actions[a]
  }

  lemma RunStepStuck(states: seq<Joint>, moves: seq<Move>, n: nat, a: int, k: Key)
    requires IsRun(states, moves) && n < |moves| && !Replans(moves[n], k)
    ensures StuckStep(states[n].db, states[n + 1].db, a, k)
  {
    EveryStateOk(states, moves, n);
    if Overwritten(states[n].db, a) && CardKey(states[n].db, a) == k {
      OverwrittenStays(states[n], moves[n], a);
    }
  }

  ghost function Journals(states: seq<Joint>): (dbs: seq<Tables>)
    ensures |dbs| == |states| && forall i :: 0 <= i < |states| ==> dbs[i] == states[i].db
  {
    seq(|states|, i requires 0 <= i < |states| => states[i].db)
  }

  lemma {:induction false} ChainStuck(dbs: seq<Tables>, m: nat, n: nat, a: int, k: Key)
    requires m <= n < |dbs| && Overwritten(dbs[m], a) && CardKey(dbs[m], a) == k
    requires forall i :: m <= i < n ==> StuckStep(dbs[i], dbs[i + 1], a, k)
    ensures Overwritten(dbs[n], a) && dbs[n].actions[a] == dbs[m].actions[a]
    decreases n - m
  {
    if m < n {
      ChainStuck(dbs, m, n - 1, a, k);
      assert StuckStep(dbs[n - 1], dbs[n - 1 + 1], a, k);
    }
  }

  /**
   Once its card is overwritten, an action under way stays as it is, past every deadline, for as long as no plan brings
   a new observation of the card.
   */
  lemma StuckUntilReplanned(states: seq<Joint>, moves: seq<Move>, m: nat, n: nat, a: int)
    requires IsRun(states, moves) && m <= n < |states| && Overwritten(states[m].db, a)
    requires forall i :: m <= i < n ==> !Replans(moves[i], CardKey(states[m].db, a))
    ensures Overwritten(states[n].db, a) && states[n].db.actions[a] == states[m].db.actions[a]
  {
    var dbs, k := Journals(states), CardKey(states[m].db, a);
    forall i | m <= i < n ensures StuckStep(dbs[i], dbs[i + 1], a, k) {
      RunStepStuck(states, moves, i, a, k);
    }
    ChainStuck(dbs, m, n, a, k);
  }

  /** Then its job is open for all that time. */
  lemma StuckJobStaysOpen(states: seq<Joint>, moves: seq<Move>, m: nat, n: nat, a: int)
    requires IsRun(states, moves) && m <= n < |states| && Overwritten(states[m].db, a) && OpenJob(states[m], a)
    requires forall i :: m <= i < n ==> !Replans(moves[i], CardKey(states[m].db, a))
    ensures OpenJob(states[n], a)
  {
    EveryStateOk(states, moves, m);
    EveryStateOk(states, moves, n);
    OpenIsUnderWay(states[m], a);
    StuckUntilReplanned(states, moves, m, n, a);
    assert MediaIn(states[n].db, a);
  }

  // ---------------------------------------------------------------- a run that overwrites a watched card

  const TheCard := Key([], ['a'])

  function Media(): Action {
    Action(1, [], UploadMedia, MediaRequest([]), [Member(1, 1, 1, ['a'], None, false)], Planned, 0, None, None, None)
  }

  function RowsWith(plan: PlanState, act: Action, holder: Option<int>): Tables {
    Tables(map[1 := Plan(plan, None)], map[1 := act], map[TheCard := Identity(RemotePresent, 5, 1, 1, holder)], map[])
  }

  function Watching(): Action {
    Media().(state := Reconciling, revision := 2,
             attempt := Some(Attempt(0, None, Some(Answer(AcceptedAnswer(), 0)))))
  }

  function Calling(): Action { Media().(state := Dispatching, revision := 1, attempt := Some(Attempt(0, None, None))) }

  function AcceptedAnswer(): Submission { Submission(ResponseReceived, 200, Accepted, SubmissionAcceptedCode, [], 0) }

  lemma Extend(states: seq<Joint>, moves: seq<Move>, m: Move) returns (longer: seq<Joint>, more: seq<Move>)
    requires IsRun(states, moves) && Enabled(states[|moves|], m)
    ensures IsRun(longer, more) && |more| == |moves| + 1 && longer[|more|] == Next(states[|moves|], m)
  {
    var t := Next(states[|moves|], m);
    longer, more := states + [t], moves + [m];
    forall i | 0 <= i < |more| ensures Enabled(longer[i], more[i]) && longer[i + 1] == Next(longer[i], more[i]) {
      assert i < |moves| ==> longer[i] == states[i] && longer[i + 1] == states[i + 1] && more[i] == moves[i];
      assert i == |moves| ==> longer[i] == states[i] && longer[i + 1] == t && more[i] == m;
    }
  }

  /** The worker of the one media action is at `worker`, and the rows are those of `db`. */
  ghost predicate At(j: Joint, db: Tables, row: MD.Row, worker: Option<MD.Worker>) {
    && j.db == db && j.now == 0 && j.jobs == map[] && j.process.rows == map[1 := row] && j.process.concurrency == 1
    && (if worker.None? then j.process.workers == map[] && j.process.inFlight == {} && j.process.poller.Idle?
        else 1 in j.process.workers && j.process.workers[1] == worker.value)
  }

  lemma InsertedMedia()
    ensures var drafts := [IdentityDraft(TheCard, RemotePresent, 5, 1, 1)];
            var empty := Tables(map[], map[], map[], map[]);
            && CanInsertPlan(empty, 1, map[1 := Media()], drafts) && AddedMedia(map[1 := Media()]) == {1}
            && InsertPlan(empty, 1, map[1 := Media()], drafts, Success) == RowsWith(Awaiting, Media(), None)
  {
    var drafts := [IdentityDraft(TheCard, RemotePresent, 5, 1, 1)];
    assert drafts[..0] == [] && Upsert(map[], drafts) == map[TheCard := Identity(RemotePresent, 5, 1, 1, None)];
  }

  lemma PlanStep() returns (states: seq<Joint>, moves: seq<Move>)
    ensures IsRun(states, moves) && |moves| == 1 && At(states[1], RowsWith(Awaiting, Media(), None), MD.Waiting, None)
  {
    var start := Joint(MD.Process(map[], map[], {}, map[], MD.Idle, [], {}, 1), Tables(map[], map[], map[], map[]), 0, map[]);
    InsertedMedia();
    assert IsRun([start], []);
    states, moves := Extend([start], [], Elsewhere(TxInsertPlan(1, map[1 := Media()], [IdentityDraft(TheCard, RemotePresent, 5, 1, 1)], Success)));
  }

  lemma LocalStep(states: seq<Joint>, moves: seq<Move>, step: MD.Step) returns (longer: seq<Joint>, more: seq<Move>)
    requires IsRun(states, moves) && WritesNothing(step) && MD.Enabled(states[|moves|].process, step)
    ensures IsRun(longer, more) && |more| == |moves| + 1
    ensures var j := states[|moves|]; longer[|more|] == j.(process := MD.Next(j.process, step))
  {
    longer, more := Extend(states, moves, Local(step));
  }

  lemma WorkerSteps() returns (states: seq<Joint>, moves: seq<Move>)
    ensures IsRun(states, moves) && |moves| == 4
    ensures At(states[4], RowsWith(Awaiting, Media(), None), MD.Waiting, Some(MD.Loading))
  {
    states, moves := PlanStep();
    states, moves := LocalStep(states, moves, MD.ListInterrupted({}));
    states, moves := LocalStep(states, moves, MD.ListDispatchable({1}));
    states, moves := LocalStep(states, moves, MD.StartWorker(1));
  }

  lemma BegunMedia()
    ensures var db := RowsWith(Awaiting, Media(), None);
            Locks(db, 1, 5) && CanBeginMedia(db, 1, 5) && BeginMedia(db, 1, None, 0) == RowsWith(Executing, Calling(), Some(1))
  {
  }

  lemma BeginStep() returns (states: seq<Joint>, moves: seq<Move>)
    ensures IsRun(states, moves) && |moves| == 5
    ensures At(states[5], RowsWith(Executing, Calling(), Some(1)), MD.Begun, Some(MD.Calling))
  {
    states, moves := WorkerSteps();
    BegunMedia();
    states, moves := Extend(states, moves, Begin(1, 5, None));
  }

  lemma ScheduledMedia()
    ensures var db := RowsWith(Executing, Calling(), Some(1));
            && Locks(db, 1, 5) && CanScheduleVisibility(db, 1, AcceptedAnswer())
            && ScheduleVisibility(db, 1, AcceptedAnswer(), 0) == RowsWith(Executing, Watching(), Some(1))
  {
  }

  lemma StoreMove(j: Joint)
    requires j.db == RowsWith(Executing, Calling(), Some(1)) && j.now == 0 && 1 in j.process.workers && j.process.workers[1].Storing?
    ensures var m := Store(1, 5, TxSchedule(1, AcceptedAnswer()), Timing(0, 1, 2));
            Enabled(j, m) && Next(j, m).db == RowsWith(Executing, Watching(), Some(1)) && OpenJob(Next(j, m), 1)
  {
    ScheduledMedia();
  }

  lemma StoreStep() returns (states: seq<Joint>, moves: seq<Move>)
    ensures IsRun(states, moves) && |moves| == 7
    ensures states[7].db == RowsWith(Executing, Watching(), Some(1)) && OpenJob(states[7], 1)
  {
    states, moves := BeginStep();
    states, moves := LocalStep(states, moves, MD.CallMarketplace(1));
    StoreMove(states[6]);
    states, moves := Extend(states, moves, Store(1, 5, TxSchedule(1, AcceptedAnswer()), Timing(0, 1, 2)));
  }

  /** A plan with one media action is dispatched, its answer is accepted and watched, and a second plan overwrites the card. */
  lemma SomeRunGetsStuck() returns (states: seq<Joint>, moves: seq<Move>)
    ensures IsRun(states, moves) && |moves| == 8 && Overwritten(states[8].db, 1) && OpenJob(states[8], 1)
  {
    states, moves := StoreStep();
    var j := states[7];
    EveryStateOk(states, moves, 7);
    OpenIsUnderWay(j, 1);
    PlanMayOverwrite(j, 1, 2);
    states, moves := Extend(states, moves, Elsewhere(ConflictPlan(2, CardKey(j.db, 1))));
  }
}
