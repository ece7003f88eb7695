/**
 The product dispatcher as a whole: the journal, the workers that call the marketplace, a crash
 at any moment, and the history of remote calls.
 */
module PublicationRun {
  import opened Common
  import opened Publication
  import opened Tables
  import opened Transactions
  import opened Slots
  import opened Folds
  import opened Invariant
  import opened Preservation
  import opened Journal
  import opened Soundness
  import opened Reconciliation
  import Evidence
  import Progress
  import Releases
  import Submissions

  datatype CallKind = Original | Again

  /** One planned call: the attempt of an action, or its retry. */
  datatype Errand = Errand(action: int, kind: CallKind)

  /** A worker lives between the commit that orders the call and the commit that records its answer. */
  datatype Worker = Sending | Recording(reply: Submissions.Reply)

  datatype Call = Call(errand: Errand, at: int, reply: Submissions.Reply)

  datatype System = System(db: Tables, now: int, workers: map<Errand, Worker>, log: seq<Call>)

  /** `Reconcile` commits at the present what was decided at time `at`. */
  datatype Step =
    | Dispatch(a: int, baseline: Option<Stamp>)
    | Send(errand: Errand, reply: Submissions.Reply)
    | Record(errand: Errand, stored: bool)
    | RecordLost(errand: Errand)
    | Reconcile(a: int, seen: Observation, matches: seq<ErrorBatchMatch>, at: int, timeout: int)
    | Elsewhere(tx: Tx)
    | FeedErrors(id: int, batch: ErrorBatch)
    | Crash
    | Elapse(seconds: nat)

  /** What an interrupted call is recorded as. */
  function LostAnswer(members: seq<Member>, kind: CallKind): Submission {
    Submission(UnknownDelivery, 0, Uncertain, if kind.Original? then ProcessInterrupted else RetryInterrupted, [], |members|)
  }

  /** The transaction that stores an answer to the errand. */
  ghost function Storing(db: Tables, e: Errand, s: Submission): Tx {
    if e.kind.Again? then TxRecordRetry(e.action, s)
    else if s.disposition.RejectedProven? then TxReject(e.action, s)
    else TxAwait(e.action, s)
  }

  /** Transactions that neither dispatch, retry nor reconcile a product action. */
  predicate Quiet(tx: Tx) {
    tx.TxInsertPlan? || tx.TxSupersede? || tx.TxAbort? || tx.TxResolve? ||
    tx.TxBeginMedia? || tx.TxSkipMedia? || tx.TxRecordMedia? || tx.TxSchedule? || tx.TxConcludeMedia?
  }

  /** Commits the transaction, or leaves the tables alone when it is rolled back. */
  ghost function Commit(db: Tables, tx: Tx, now: int): Tables {
    if Can(db, tx, now) then Do(db, tx, now) else db
  }

  ghost predicate Enabled(s: System, step: Step) {
    match step
    case Dispatch(a, _) => Can(s.db, TxBeginAttempt(a, step.baseline), s.now)
    case Send(e, _) => e in s.workers && s.workers[e].Sending?
    case Record(e, _) => e in s.workers && s.workers[e].Recording? && e.action in s.db.actions
    case RecordLost(e) => e.action in s.db.actions
    case Reconcile(a, _, matches, at, _) => Reconcilable(s.db, a) && Listed(s.db, s.db.actions[a], matches) && at <= s.now
    case Elsewhere(tx) => Quiet(tx)
    case FeedErrors(id, _) => id > 0 && id !in s.db.batches
    case Crash => true
    case Elapse(_) => true
  }

  ghost function Next(s: System, step: Step): System
    requires Enabled(s, step)
  {
    match step
    case Dispatch(a, baseline) =>
      s.(db := Commit(s.db, TxBeginAttempt(a, baseline), s.now), workers := s.workers[Errand(a, Original) := Sending])
    case Send(e, reply) =>
      s.(log := s.log + [Call(e, s.now, reply)], workers := s.workers[e := Recording(reply)])
    case Record(e, stored) =>
      var answer := Submissions.Classify(s.db.actions[e.action].members, s.workers[e].reply);
      s.(db := if stored then Commit(s.db, Storing(s.db, e, answer), s.now) else s.db, workers := s.workers - {e})
    case RecordLost(e) =>
      s.(db := Commit(s.db, Storing(s.db, e, LostAnswer(s.db.actions[e.action].members, e.kind)), s.now))
    case Reconcile(a, seen, matches, at, timeout) =>
      var tx := Decide(a, s.db.actions[a], seen, matches, at, timeout);
      s.(db := Commit(s.db, tx, s.now),
         workers := if tx.TxBeginRetry? then s.workers[Errand(a, Again) := Sending] else s.workers)
    case Elsewhere(tx) => s.(db := Commit(s.db, tx, s.now))
    case FeedErrors(id, batch) => s.(db := s.db.(batches := s.db.batches[id := batch]))
    case Crash => s.(workers := map[])
    case Elapse(seconds) => s.(now := s.now + seconds)
  }

  ghost predicate Initial(s: System) {
    s.db == Tables(map[], map[], map[], map[]) && s.workers == map[] && s.log == []
  }

  // ---------------------------------------------------------------- the calls

  /** The row that orders the errand was committed no later than `at`. */
  predicate Committed(db: Tables, e: Errand, at: int) {
    && e.action in db.actions
    && var act := db.actions[e.action];
       && IsProduct(act.kind)
       && if e.kind.Original? then act.attempt.Some? && act.attempt.value.startedAt <= at
          else act.retry.Some? && act.retry.value.startedAt <= at
  }

  predicate UnreadableReply(reply: Submissions.Reply) {
    && reply.Failed? && reply.delivery == Some(ResponseReceived) && reply.status == 200
    && (reply.code.EmptyResponse? || reply.code.InvalidResponse?)
  }

  /** Among the first `n` calls is one whose unreadable answer is at least `age` old at time `at`. */
  ghost predicate UnreadableBefore(log: seq<Call>, n: nat, a: int, at: int) {
    exists i :: 0 <= i < n <= |log| && log[i].errand == Errand(a, Original) && UnreadableReply(log[i].reply) && log[i].at <= at
  }

  ghost predicate WorkerOk(s: System, e: Errand)
    requires e in s.workers
  {
    && Committed(s.db, e, s.now)
    && if s.workers[e].Sending? then forall i :: 0 <= i < |s.log| ==> s.log[i].errand != e
       else exists i :: 0 <= i < |s.log| && s.log[i].errand == e && s.log[i].reply == s.workers[e].reply && s.log[i].at <= s.now
  }

  ghost predicate LogOk(s: System) {
    && (forall i :: 0 <= i < |s.log| ==> Committed(s.db, s.log[i].errand, s.log[i].at) && s.log[i].at <= s.now)
    && (forall i, j :: 0 <= i < j < |s.log| ==> s.log[i].errand != s.log[j].errand)
    && (forall j :: 0 <= j < |s.log| && s.log[j].errand.kind.Again? ==>
          UnreadableBefore(s.log, j, s.log[j].errand.action, s.log[j].at - RetryDelay))
  }

  /** An unreadable answer in the journal is what the marketplace really gave. */
  ghost predicate AnswerOk(s: System, a: int)
    requires a in s.db.actions
  {
    var act := s.db.actions[a];
    IsProduct(act.kind) && Answered(act) && Unreadable(act.attempt.value.answer.value.submission) ==>
      UnreadableBefore(s.log, |s.log|, a, act.attempt.value.answer.value.at)
  }

  ghost predicate CallsOk(s: System) {
    && (forall e :: e in s.workers ==> WorkerOk(s, e))
    && LogOk(s)
    && (forall a :: a in s.db.actions ==> AnswerOk(s, a))
  }

  ghost predicate RunInv(s: System) {
    Inv(s.db) && AllSound(s.db) && CallsOk(s)
  }

  // ---------------------------------------------------------------- who writes an attempt's answer

  /** Product `b` has the attempt row it had, or one that has no answer yet. */
  predicate SameAttempt(db: Tables, next: Tables, b: int) {
    b in next.actions && IsProduct(next.actions[b].kind) && Answered(next.actions[b]) ==>
      b in db.actions && IsProduct(db.actions[b].kind) && next.actions[b].attempt == db.actions[b].attempt
  }

  lemma CloseKeepsAttempt(db: Tables, a: int, cls: ResultClass, b: int)
    requires a in db.actions
    ensures SameAttempt(db, Close(db, a, cls), b)
  {
  }

  lemma RejectWritesAnswer(db: Tables, a: int, s: Submission, now: int, b: int)
    requires Inv(db) && CanReject(db, a, s, now)
    ensures b != a ==> SameAttempt(db, Reject(db, a, s, now), b)
    ensures a in Reject(db, a, s, now).actions
    ensures Reject(db, a, s, now).actions[a].attempt == WithAnswer(db.actions[a], s, now).attempt
  {
    var answered := RecordAnswer(db, a, s, now);
    assert ActionOk(db.actions[a]);
    AnswerKeepsSlots(db, a, s, now);
    RejectMembersKeeps(answered, a, |db.actions[a].members|, s.members);
    CloseKeepsAttempt(Rejections(db, a, s, now).value, a, RejectionClass(db.actions[a].members, s.members), b);
  }

  predicate IsMediaTx(tx: Tx) {
    tx.TxBeginMedia? || tx.TxSkipMedia? || tx.TxRecordMedia? || tx.TxSchedule? || tx.TxConcludeMedia?
  }

  lemma MediaKeepsAttempt(db: Tables, tx: Tx, now: int, b: int)
    requires Can(db, tx, now) && IsMediaTx(tx)
    ensures SameAttempt(db, Do(db, tx, now), b)
  {
    match tx
    case TxSkipMedia(a) => assert SameAttempt(db, SkipMediaAction(db, a), b);
    case TxRecordMedia(a, nm, s, o) => FinishMediaKeepsAttempt(RecordAnswer(db, a, s, now), a, nm, o, b);
    case TxConcludeMedia(a, nm, o) => FinishMediaKeepsAttempt(db, a, nm, o, b);
    case _ =>
  }

  lemma FinishMediaKeepsAttempt(db: Tables, a: int, nm: int, o: Outcome, b: int)
    requires CanFinishMedia(db, a, nm)
    ensures SameAttempt(db, FinishMedia(db, a, o), b)
  {
  }

  lemma ResolveKeepsAttempt(db: Tables, a: int, i: nat, revision: nat, ruling: Ruling, b: int)
    requires Resolvable(db, a, i, revision) && AllSettled(db.actions[a])
    ensures SameAttempt(db, Resolve(db, a, i, ruling), b)
  {
  }

  lemma QuietKeepsAttempt(db: Tables, tx: Tx, now: int, b: int)
    requires Can(db, tx, now) && Quiet(tx)
    ensures SameAttempt(db, Do(db, tx, now), b)
  {
    if IsMediaTx(tx) {
      MediaKeepsAttempt(db, tx, now, b);
    } else if tx.TxResolve? {
      ResolveKeepsAttempt(db, tx.a, tx.i, tx.revision, tx.ruling, b);
    } else if tx.TxInsertPlan? {
      assert b in tx.drafts ==> DraftOk(tx.drafts[b], tx.plan);
    }
  }

  // ---------------------------------------------------------------- frames

  ghost predicate Grows(db: Tables, next: Tables) {
    Inv(next) && AllSound(next) && Progress.Advances(db, next)
  }

  lemma CommitGrows(db: Tables, tx: Tx, now: int)
    requires Inv(db) && AllSound(db) && FromService(db, tx)
    ensures Grows(db, Commit(db, tx, now))
  {
    if Can(db, tx, now) {
      CommitKeeps(db, tx, now);
      CommitSound(db, tx, now);
      Progress.CommitAdvances(db, tx, now);
    } else {
      forall a | a in db.actions ensures Progress.Later(db.actions[a], db.actions[a]) { }
    }
  }

  lemma CommittedStays(db: Tables, next: Tables, e: Errand, at: int, later: int)
    requires Progress.Advances(db, next) && Committed(db, e, at) && at <= later
    ensures Committed(next, e, later)
  {
    assert Progress.Later(db.actions[e.action], next.actions[e.action]);
  }

  /** The journal moved on, and at most workers ended. */
  lemma CallsFrame(s: System, t: System)
    requires CallsOk(s) && Progress.Advances(s.db, t.db) && t.log == s.log && s.now <= t.now
    requires forall e :: e in t.workers ==> e in s.workers && t.workers[e] == s.workers[e]
    requires forall a :: a in t.db.actions ==> AnswerOk(t, a)
    ensures CallsOk(t)
  {
    forall e | e in t.workers ensures WorkerOk(t, e) {
      assert WorkerOk(s, e);
      CommittedStays(s.db, t.db, e, s.now, t.now);
    }
    forall i | 0 <= i < |t.log| ensures Committed(t.db, t.log[i].errand, t.log[i].at) {
      CommittedStays(s.db, t.db, s.log[i].errand, s.log[i].at, s.log[i].at);
    }
  }

  lemma AnswersFrame(s: System, t: System)
    requires CallsOk(s) && t.log == s.log
    requires forall a :: a in t.db.actions ==> SameAttempt(s.db, t.db, a)
    ensures forall a :: a in t.db.actions ==> AnswerOk(t, a)
  {
    forall a | a in t.db.actions ensures AnswerOk(t, a) {
      assert SameAttempt(s.db, t.db, a);
      assert a in s.db.actions ==> AnswerOk(s, a);
    }
  }

  // ---------------------------------------------------------------- every step

  lemma ElsewhereKeeps(s: System, tx: Tx)
    requires RunInv(s) && Quiet(tx)
    ensures RunInv(Next(s, Elsewhere(tx)))
  {
    var t := Next(s, Elsewhere(tx));
    CommitGrows(s.db, tx, s.now);
    if Can(s.db, tx, s.now) {
      forall a | a in t.db.actions ensures SameAttempt(s.db, t.db, a) { QuietKeepsAttempt(s.db, tx, s.now, a); }
    }
    AnswersFrame(s, t);
    CallsFrame(s, t);
  }

  predicate Ordered(db: Tables, e: Errand) {
    e.action in db.actions &&
    if e.kind.Original? then db.actions[e.action].attempt.Some? else db.actions[e.action].retry.Some?
  }

  /** A commit ordered the errand for the first time, and its worker starts. */
  lemma OrderCalls(s: System, db: Tables, e: Errand)
    requires CallsOk(s) && Progress.Advances(s.db, db)
    requires forall b :: b in db.actions ==> SameAttempt(s.db, db, b)
    requires !Ordered(s.db, e) && Committed(db, e, s.now)
    ensures CallsOk(s.(db := db, workers := s.workers[e := Sending]))
  {
    var t := s.(db := db);
    AnswersFrame(s, t);
    CallsFrame(s, t);
    forall i | 0 <= i < |s.log| ensures s.log[i].errand != e {
      assert Committed(s.db, s.log[i].errand, s.log[i].at);
    }
    WorkerAdded(t, t.(workers := t.workers[e := Sending]), e);
  }

  lemma WorkerAdded(s: System, t: System, e: Errand)
    requires CallsOk(s) && e in t.workers && t == s.(workers := s.workers[e := t.workers[e]]) && WorkerOk(t, e)
    ensures CallsOk(t)
  {
    forall f | f in t.workers ensures WorkerOk(t, f) {
      if f != e { assert WorkerOk(s, f); }
    }
    forall a | a in t.db.actions ensures AnswerOk(t, a) { assert AnswerOk(s, a); }
  }

  lemma DispatchKeeps(s: System, a: int, baseline: Option<Stamp>)
    requires RunInv(s) && CanBeginAttempt(s.db, a)
    ensures RunInv(s.(db := BeginAttempt(s.db, a, baseline, s.now), workers := s.workers[Errand(a, Original) := Sending]))
  {
    CommitGrows(s.db, TxBeginAttempt(a, baseline), s.now);
    OrderCalls(s, BeginAttempt(s.db, a, baseline, s.now), Errand(a, Original));
  }

  lemma RetryKeepsRun(s: System, a: int)
    requires RunInv(s) && CanBeginRetry(s.db, a, s.now) && AllPending(s.db.actions[a])
    ensures RunInv(s.(db := BeginRetry(s.db, a, s.now), workers := s.workers[Errand(a, Again) := Sending]))
  {
    CommitGrows(s.db, TxBeginRetry(a), s.now);
    OrderCalls(s, BeginRetry(s.db, a, s.now), Errand(a, Again));
  }

  lemma UnreadableLift(log: seq<Call>, longer: seq<Call>, n: nat, m: nat, a: int, at: int, later: int)
    requires UnreadableBefore(log, n, a, at) && log <= longer && n <= m <= |longer| && at <= later
    ensures UnreadableBefore(longer, m, a, later)
  {
    var i :| 0 <= i < n && log[i].errand == Errand(a, Original) && UnreadableReply(log[i].reply) && log[i].at <= at;
    assert longer[i] == log[i];
  }

  /** A retry is only sent after the first answer was unreadable for ten minutes. */
  lemma RetryIsWarranted(s: System, a: int)
    requires RunInv(s) && Committed(s.db, Errand(a, Again), s.now)
    ensures UnreadableBefore(s.log, |s.log|, a, s.now - RetryDelay)
  {
    var act := s.db.actions[a];
    assert ActionOk(act) && AnswerOk(s, a);
    UnreadableLift(s.log, s.log, |s.log|, |s.log|, a, act.attempt.value.answer.value.at, s.now - RetryDelay);
  }

  lemma SendLog(s: System, t: System, e: Errand, reply: Submissions.Reply)
    requires RunInv(s) && e in s.workers && s.workers[e].Sending?
    requires t == s.(log := s.log + [Call(e, s.now, reply)], workers := t.workers)
    ensures LogOk(t)
  {
    assert WorkerOk(s, e);
    var n := |s.log|;
    forall i | 0 <= i < |t.log| ensures Committed(t.db, t.log[i].errand, t.log[i].at) && t.log[i].at <= t.now {
      assert i < n ==> t.log[i] == s.log[i];
    }
    forall i, j | 0 <= i < j < |t.log| ensures t.log[i].errand != t.log[j].errand {
      assert t.log[i] == s.log[i] && (j < n ==> t.log[j] == s.log[j]);
    }
    forall j | 0 <= j < |t.log| && t.log[j].errand.kind.Again?
      ensures UnreadableBefore(t.log, j, t.log[j].errand.action, t.log[j].at - RetryDelay)
    {
      if j < n {
        assert t.log[j] == s.log[j];
      } else {
        RetryIsWarranted(s, e.action);
      }
      UnreadableLift(s.log, t.log, j, j, t.log[j].errand.action, t.log[j].at - RetryDelay, t.log[j].at - RetryDelay);
    }
  }

  lemma SendKeeps(s: System, e: Errand, reply: Submissions.Reply)
    requires RunInv(s) && e in s.workers && s.workers[e].Sending?
    ensures RunInv(s.(log := s.log + [Call(e, s.now, reply)], workers := s.workers[e := Recording(reply)]))
  {
    var t := s.(log := s.log + [Call(e, s.now, reply)], workers := s.workers[e := Recording(reply)]);
    SendLog(s, t, e, reply);
    forall f | f in t.workers ensures WorkerOk(t, f) {
      SendWorker(s, t, e, f);
    }
    forall a | a in t.db.actions ensures AnswerOk(t, a) {
      assert AnswerOk(s, a);
      var act := s.db.actions[a];
      if IsProduct(act.kind) && Answered(act) && Unreadable(act.attempt.value.answer.value.submission) {
        var at := act.attempt.value.answer.value.at;
        UnreadableLift(s.log, t.log, |s.log|, |t.log|, a, at, at);
      }
    }
  }

  lemma SendWorker(s: System, t: System, e: Errand, f: Errand)
    requires CallsOk(s) && e in s.workers && s.workers[e].Sending? && f in t.workers && e in t.workers && t.workers[e].Recording?
    requires t == s.(log := s.log + [Call(e, s.now, t.workers[e].reply)], workers := s.workers[e := t.workers[e]])
    ensures WorkerOk(t, f)
  {
    var n := |s.log|;
    assert WorkerOk(s, f);
    if f == e {
      assert t.log[n].errand == e;
    } else if s.workers[f].Sending? {
      forall i | 0 <= i < |t.log| ensures t.log[i].errand != f {
        assert i < n ==> t.log[i] == s.log[i];
      }
    } else {
      var i :| 0 <= i < n && s.log[i].errand == f && s.log[i].reply == s.workers[f].reply && s.log[i].at <= s.now;
      assert t.log[i] == s.log[i];
    }
  }

  // ---------------------------------------------------------------- storing an answer

  /** What the commit of an answer to errand `e` leaves in the attempt of `b`. */
  predicate StoredAttempt(db: Tables, next: Tables, e: Errand, answer: Submission, now: int, b: int) {
    || SameAttempt(db, next, b)
    || (b == e.action && b in next.actions && Answered(next.actions[b]) && next.actions[b].attempt.value.answer == Some(Answer(answer, now)))
  }

  lemma StoringWrites(db: Tables, e: Errand, answer: Submission, now: int, b: int)
    requires Inv(db)
    ensures StoredAttempt(db, Commit(db, Storing(db, e, answer), now), e, answer, now, b)
  {
    var tx := Storing(db, e, answer);
    if Can(db, tx, now) && tx.TxReject? {
      RejectWritesAnswer(db, e.action, answer, now, b);
    }
  }

  lemma StoreKeeps(s: System, e: Errand, answer: Submission, workers: map<Errand, Worker>)
    requires RunInv(s) && Cautious(answer)
    requires Unreadable(answer) && e.kind.Original? ==> UnreadableBefore(s.log, |s.log|, e.action, s.now)
    requires forall f :: f in workers ==> f in s.workers && workers[f] == s.workers[f]
    ensures RunInv(s.(db := Commit(s.db, Storing(s.db, e, answer), s.now), workers := workers))
  {
    var tx := Storing(s.db, e, answer);
    var t := s.(db := Commit(s.db, tx, s.now), workers := workers);
    CommitGrows(s.db, tx, s.now);
    forall a | a in t.db.actions ensures AnswerOk(t, a) {
      StoredAnswer(s, t, e, answer, a);
    }
    CallsFrame(s, t);
  }

  lemma StoredAnswer(s: System, t: System, e: Errand, answer: Submission, a: int)
    requires RunInv(s) && t.log == s.log && t.db == Commit(s.db, Storing(s.db, e, answer), s.now) && a in t.db.actions
    requires Unreadable(answer) && e.kind.Original? ==> UnreadableBefore(s.log, |s.log|, e.action, s.now)
    ensures AnswerOk(t, a)
  {
    if e.kind.Again? {
      assert SameAttempt(s.db, t.db, a);
    } else {
      StoringWrites(s.db, e, answer, s.now, a);
    }
    if SameAttempt(s.db, t.db, a) {
      assert a in s.db.actions ==> AnswerOk(s, a);
    }
  }

  lemma ClassifiedCautious(members: seq<Member>, reply: Submissions.Reply)
    ensures Cautious(Submissions.Classify(members, reply))
    ensures Unreadable(Submissions.Classify(members, reply)) ==> UnreadableReply(reply)
  {
  }

  lemma RecordKeeps(s: System, e: Errand)
    requires RunInv(s) && e in s.workers && s.workers[e].Recording? && e.action in s.db.actions
    ensures var answer := Submissions.Classify(s.db.actions[e.action].members, s.workers[e].reply);
            RunInv(s.(db := Commit(s.db, Storing(s.db, e, answer), s.now), workers := s.workers - {e}))
  {
    var answer := Submissions.Classify(s.db.actions[e.action].members, s.workers[e].reply);
    ClassifiedCautious(s.db.actions[e.action].members, s.workers[e].reply);
    assert WorkerOk(s, e);
    if Unreadable(answer) && e.kind.Original? {
      var i :| 0 <= i < |s.log| && s.log[i].errand == e && s.log[i].reply == s.workers[e].reply && s.log[i].at <= s.now;
      assert UnreadableBefore(s.log, |s.log|, e.action, s.now);
    }
    StoreKeeps(s, e, answer, s.workers - {e});
  }

  // ---------------------------------------------------------------- reconciling

  lemma PollKeepsRun(s: System, tx: Tx)
    requires RunInv(s) && FromService(s.db, tx) && Can(s.db, tx, s.now) && (tx.TxPoll? || tx.TxConclude?)
    ensures RunInv(s.(db := Do(s.db, tx, s.now)))
  {
    var t := s.(db := Do(s.db, tx, s.now));
    CommitGrows(s.db, tx, s.now);
    forall b | b in t.db.actions ensures SameAttempt(s.db, t.db, b) {
      PollKeepsAttempt(s.db, tx, s.now, b);
    }
    AnswersFrame(s, t);
    CallsFrame(s, t);
  }

  lemma PollKeepsAttempt(db: Tables, tx: Tx, now: int, b: int)
    requires Inv(db) && FromEvidence(tx) && Can(db, tx, now) && (tx.TxPoll? || tx.TxConclude?)
    ensures SameAttempt(db, Do(db, tx, now), b)
  {
    PollSettles(db, tx.a, tx.results);
    if tx.TxConclude? {
      CloseKeepsAttempt(Poll(db, tx.a, tx.results), tx.a, tx.cls, b);
    }
  }

  lemma ReconcileKeeps(s: System, a: int, seen: Observation, matches: seq<ErrorBatchMatch>, at: int, timeout: int)
    requires RunInv(s) && Reconcilable(s.db, a) && Listed(s.db, s.db.actions[a], matches) && at <= s.now
    ensures var tx := Decide(a, s.db.actions[a], seen, matches, at, timeout);
            && Can(s.db, tx, s.now)
            && RunInv(s.(db := Do(s.db, tx, s.now),
                         workers := if tx.TxBeginRetry? then s.workers[Errand(a, Again) := Sending] else s.workers))
  {
    var tx := Decide(a, s.db.actions[a], seen, matches, at, timeout);
    DecisionFromService(s.db, a, seen, matches, at, timeout);
    DecisionCommits(s.db, a, seen, matches, at, timeout, s.now);
    if tx.TxBeginRetry? {
      RetryKeepsRun(s, a);
    } else {
      PollKeepsRun(s, tx);
    }
  }
}
