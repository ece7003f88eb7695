/** When a product call is sent a second time: what one reconciliation decides, and what stands behind every retry of a run. */
module RetryRules {
  import opened Common
  import opened Publication
  import opened Tables
  import opened Transactions
  import opened Slots
  import opened Folds
  import opened Invariant
  import opened Preservation
  import opened Journal
  import opened Reconciliation
  import opened PublicationRun
  import opened PublicationTheorems
  import Evidence
  import EvidenceRules

  // ---------------------------------------------------------------- the decision

  /** The call was answered with an HTTP 200 that could not be read, ten minutes ago or earlier, and was not repeated yet. */
  predicate Unanswered(act: Action, at: int) {
    && act.retry.None? && act.attempt.Some? && act.attempt.value.answer.Some?
    && (forall i :: 0 <= i < |act.members| ==> act.members[i].outcome.None?)
    && var answer := act.attempt.value.answer.value;
       && answer.submission.delivery == ResponseReceived && answer.submission.httpStatus == 200
       && answer.submission.code in {Transport(EmptyResponse), Transport(InvalidResponse)}
       && at - answer.at >= 600
  }

  /** The catalogue, the trash and the Error List say nothing about the products of the action. */
  predicate NoEvidence(seen: Observation, matches: seq<ErrorBatchMatch>) {
    seen.normal == [] && seen.trash == [] && matches == []
  }

  /** A call is repeated exactly when it went unanswered and nothing shows that it had an effect. */
  lemma RetriesIff(a: int, act: Action, seen: Observation, matches: seq<ErrorBatchMatch>, at: int, timeout: int)
    ensures Decide(a, act, seen, matches, at, timeout).TxBeginRetry? <==> Unanswered(act, at) && NoEvidence(seen, matches)
    ensures Decide(a, act, seen, matches, at, timeout).a == a
  {
  }

  /** The repeated call was answered with a proven rejection. */
  predicate RetryRefused(act: Action) {
    && act.retry.Some? && act.retry.value.answer.Some?
    && act.retry.value.answer.value.submission.delivery == ResponseReceived
    && act.retry.value.answer.value.submission.disposition == RejectedProven
  }

  /** Everything else is settled by the answer to the repeated call, if it proves a rejection, or by the evidence. */
  lemma OtherwiseDecides(a: int, act: Action, seen: Observation, matches: seq<ErrorBatchMatch>, at: int, timeout: int)
    requires !(Unanswered(act, at) && NoEvidence(seen, matches))
    ensures var tx := Decide(a, act, seen, matches, at, timeout);
            if RetryRefused(act) then tx.TxConclude? && tx.cls == Rejected && tx.results == RetryResults(act.members)
            else
              var verdicts := Evidence.Verdicts(SubjectOf(act), seen, matches, Evidence.DeadlineReached(StartedAt(act), at, timeout));
              (tx.TxPoll? || tx.TxConclude?) && tx.results == Evidence.NewResults(verdicts) &&
              (tx.TxPoll? <==> exists i :: 0 <= i < |verdicts| && verdicts[i].Waiting?)
  {
  }

  /** The members that pend are rejected, in order, each once. */
  lemma {:induction false} RefusedResults(members: seq<Member>, n: nat)
    requires n <= |members|
    ensures forall r :: r in RetryResults(members[..n]) <==>
              exists i :: 0 <= i < n && Pending(members[i]) && r == MemberResult(members[i].id, Rejected, RetryEnvelopeMemberRejected, 0, 0, 0, 0, false)
  {
    if n > 0 {
      RefusedResults(members, n - 1);
      assert members[..n][..n - 1] == members[..n - 1];
    } else {
      assert RetryResults(members[..0]) == [];
    }
  }

  /** A product without a trace waits until the timeout, counted from the second call if there was one. */
  lemma WaitsUntil(act: Action, i: nat, seen: Observation, matches: seq<ErrorBatchMatch>, at: int, timeout: int)
    requires i < |act.members| && Pending(act.members[i]) && act.attempt.Some?
    requires EvidenceRules.Unseen(seen, act.members[i].vendor) && EvidenceRules.NoBatch(matches, act.members[i].vendor)
    ensures Evidence.Judge(SubjectOf(act), i, seen, matches, Evidence.DeadlineReached(StartedAt(act), at, timeout)).Waiting? <==>
            at < (if act.retry.Some? then act.retry.value.startedAt else act.attempt.value.startedAt) + timeout
  {
    EvidenceRules.NothingDecides(SubjectOf(act), i, seen, matches, Evidence.DeadlineReached(StartedAt(act), at, timeout));
  }

  // ---------------------------------------------------------------- who inserts a retry row

  predicate RetryIn(db: Tables, a: int) { a in db.actions && db.actions[a].retry.Some? }

  ghost predicate NoNewRetry(db: Tables, next: Tables, a: int) { RetryIn(next, a) ==> RetryIn(db, a) }

  lemma CloseStartsNoRetry(db: Tables, b: int, cls: ResultClass, a: int)
    requires b in db.actions
    ensures NoNewRetry(db, Close(db, b, cls), a)
  {
  }

  lemma RejectStartsNoRetry(db: Tables, b: int, s: Submission, now: int, a: int)
    requires Inv(db) && CanReject(db, b, s, now)
    ensures NoNewRetry(db, Reject(db, b, s, now), a)
  {
    var answered := RecordAnswer(db, b, s, now);
    assert ActionOk(db.actions[b]);
    AnswerKeepsSlots(db, b, s, now);
    RejectMembersKeeps(answered, b, |db.actions[b].members|, s.members);
    CloseStartsNoRetry(Rejections(db, b, s, now).value, b, RejectionClass(db.actions[b].members, s.members), a);
  }

  lemma PollStartsNoRetry(db: Tables, tx: Tx, now: int, a: int)
    requires Inv(db) && FromEvidence(tx) && Can(db, tx, now) && (tx.TxPoll? || tx.TxConclude?)
    ensures NoNewRetry(db, Do(db, tx, now), a)
  {
    PollSettles(db, tx.a, tx.results);
    if tx.TxConclude? {
      CloseStartsNoRetry(Poll(db, tx.a, tx.results), tx.a, tx.cls, a);
    }
  }

  lemma FinishMediaStartsNoRetry(db: Tables, b: int, o: Outcome, a: int)
    requires IsMedia(db, b) && KeyOf(db.actions[b], 0) in db.identities
    ensures NoNewRetry(db, FinishMedia(db, b, o), a)
  {
  }

  lemma MediaStartsNoRetry(db: Tables, tx: Tx, now: int, a: int)
    requires Can(db, tx, now) && IsMediaTx(tx)
    ensures NoNewRetry(db, Do(db, tx, now), a)
  {
    match tx
    case TxRecordMedia(b, _, s, o) => FinishMediaStartsNoRetry(RecordAnswer(db, b, s, now), b, o, a);
    case TxConcludeMedia(b, _, o) => FinishMediaStartsNoRetry(db, b, o, a);
    case TxBeginMedia(_, _, _) =>
    case TxSkipMedia(_) =>
    case TxSchedule(_, _) =>
  }

  lemma PlanStartsNoRetry(db: Tables, tx: Tx, now: int, a: int)
    requires Can(db, tx, now) && (tx.TxInsertPlan? || tx.TxSupersede? || tx.TxAbort? || tx.TxResolve?)
    ensures NoNewRetry(db, Do(db, tx, now), a)
  {
    if tx.TxInsertPlan? {
      assert a in tx.drafts ==> DraftOk(tx.drafts[a], tx.plan);
    }
  }

  lemma OrderStartsNoRetry(db: Tables, tx: Tx, now: int, a: int)
    requires Can(db, tx, now) && (tx.TxBeginAttempt? || tx.TxAwait? || tx.TxRecordRetry? || tx.TxBeginRetry?)
    ensures tx == TxBeginRetry(a) || NoNewRetry(db, Do(db, tx, now), a)
  {
  }

  /** Only the transaction that begins the retry of an action inserts its retry row. */
  lemma CommitStartsRetry(db: Tables, tx: Tx, now: int, a: int)
    requires Inv(db) && FromEvidence(tx) && Can(db, tx, now)
    ensures tx == TxBeginRetry(a) || NoNewRetry(db, Do(db, tx, now), a)
  {
    if IsMediaTx(tx) {
      MediaStartsNoRetry(db, tx, now, a);
    } else if tx.TxReject? {
      RejectStartsNoRetry(db, tx.a, tx.s, now, a);
    } else if tx.TxPoll? || tx.TxConclude? {
      PollStartsNoRetry(db, tx, now, a);
    } else if tx.TxInsertPlan? || tx.TxSupersede? || tx.TxAbort? || tx.TxResolve? {
      PlanStartsNoRetry(db, tx, now, a);
    } else {
      OrderStartsNoRetry(db, tx, now, a);
    }
  }

  // ---------------------------------------------------------------- whole runs

  /** The step reconciles action `a` without any evidence, when its call has gone unanswered. */
  ghost predicate OrdersRetry(s: System, step: Step, a: int) {
    && step.Reconcile? && step.a == a && a in s.db.actions && step.at <= s.now
    && Unanswered(s.db.actions[a], step.at) && NoEvidence(step.seen, step.matches)
  }

  lemma StepTxRetries(s: System, step: Step, a: int)
    requires Enabled(s, step) && TxOf(s, step) == Some(TxBeginRetry(a))
    ensures OrdersRetry(s, step, a)
  {
    if step.Reconcile? {
      RetriesIff(step.a, s.db.actions[step.a], step.seen, step.matches, step.at, step.timeout);
    }
  }

  lemma StepStartsRetry(s: System, step: Step, a: int)
    requires RunInv(s) && Enabled(s, step)
    ensures OrdersRetry(s, step, a) || NoNewRetry(s.db, Next(s, step).db, a)
  {
    StepIsCommit(s, step);
    var tx := TxOf(s, step);
    if tx.Some? && Can(s.db, tx.value, s.now) {
      StepTxFromEvidence(s, step);
      CommitStartsRetry(s.db, tx.value, s.now, a);
      if tx.value == TxBeginRetry(a) {
        StepTxRetries(s, step, a);
      }
    }
  }

  ghost predicate OrderedBefore(states: seq<System>, steps: seq<Step>, n: nat, a: int)
    requires n <= |steps| < |states|
  {
    exists m :: 0 <= m < n && OrdersRetry(states[m], steps[m], a)
  }

  lemma RunStepStartsRetry(states: seq<System>, steps: seq<Step>, n: nat, a: int)
    requires IsRun(states, steps) && n < |steps|
    ensures OrdersRetry(states[n], steps[n], a) || NoNewRetry(states[n].db, states[n + 1].db, a)
  {
    EveryStateOk(states, steps, n);
    StepStartsRetry(states[n], steps[n], a);
  }

  ghost function Orders(states: seq<System>, steps: seq<Step>, a: int): (orders: seq<bool>)
    requires |states| == |steps| + 1
    ensures |orders| == |steps| && forall i :: 0 <= i < |steps| ==> (orders[i] <==> OrdersRetry(states[i], steps[i], a))
  {
    seq(|steps|, i requires 0 <= i < |steps| => OrdersRetry(states[i], steps[i], a))
  }

  lemma {:induction false} ChainOrders(dbs: seq<Tables>, orders: seq<bool>, n: nat, a: int)
    requires n < |dbs| == |orders| + 1 && !RetryIn(dbs[0], a) && RetryIn(dbs[n], a)
    requires forall i :: 0 <= i < |orders| ==> orders[i] || NoNewRetry(dbs[i], dbs[i + 1], a)
    ensures exists m :: 0 <= m < n && orders[m]
  {
    if !orders[n - 1] {
      assert NoNewRetry(dbs[n - 1], dbs[n - 1 + 1], a);
      ChainOrders(dbs, orders, n - 1, a);
    }
  }

  /** Behind every retry row stands an earlier reconciliation that found no trace of the unanswered call. */
  lemma RetryWasOrdered(states: seq<System>, steps: seq<Step>, n: nat, a: int)
    requires IsRun(states, steps) && n < |states| && RetryIn(states[n].db, a)
    ensures OrderedBefore(states, steps, n, a)
  {
    var dbs, orders := Journals(states), Orders(states, steps, a);
    forall i | 0 <= i < |orders| ensures orders[i] || NoNewRetry(dbs[i], dbs[i + 1], a) {
      RunStepStartsRetry(states, steps, i, a);
    }
    ChainOrders(dbs, orders, n, a);
    var m :| 0 <= m < n && orders[m];
    assert OrdersRetry(states[m], steps[m], a);
  }

  /**
   In every run, a product is called for a second time only after a reconciliation at which its first call had been
   unanswered for ten minutes and neither the catalogue, nor the trash, nor the Error List knew its products.
   */
  lemma SecondCallsOfEveryRun(states: seq<System>, steps: seq<Step>, n: nat, j: nat)
    requires IsRun(states, steps) && n < |states| && j < |states[n].log| && states[n].log[j].errand.kind.Again?
    ensures OrderedBefore(states, steps, n, states[n].log[j].errand.action)
  {
    CallsOfEveryRun(states, steps, n);
    assert Committed(states[n].db, states[n].log[j].errand, states[n].log[j].at);
    RetryWasOrdered(states, steps, n, states[n].log[j].errand.action);
  }
}
