/** The reconciliation service: from evidence to the transaction it commits. */
module Reconciliation {
  import opened Common
  import opened Publication
  import opened Tables
  import opened Transactions
  import opened Slots
  import opened Folds
  import opened Invariant
  import opened Journal
  import opened Soundness
  import Evidence

  // ---------------------------------------------------------------- evidence

  /**
   Error List batches of the journal that follow the action's baseline. They are loaded before the transaction that
   uses them, so the list need not hold batches that were stored since.
   */
  ghost predicate Listed(db: Tables, act: Action, matches: seq<ErrorBatchMatch>) {
    && (forall j :: 0 <= j < |matches| ==> ListedBatch(db, act, matches[j]))
    && (forall i, j :: 0 <= i < j < |matches| ==> matches[i].id != matches[j].id)
  }

  predicate ListedBatch(db: Tables, act: Action, m: ErrorBatchMatch) {
    && m.id > 0 && m.id in db.batches && m.rejected == db.batches[m.id].rejected
    && db.batches[m.id].seller == act.seller
    && act.attempt.Some? && After(db.batches[m.id].stamp, act.attempt.value.baseline)
  }

  /** The clock of the deadline restarts with the retry. */
  function StartedAt(act: Action): Option<int> {
    if act.retry.Some? then Some(act.retry.value.startedAt)
    else if act.attempt.Some? then Some(act.attempt.value.startedAt)
    else None
  }

  function SubjectOf(act: Action): Evidence.Subject {
    Evidence.Subject(act.kind, act.request, act.members, StartedAt(act))
  }

  predicate ShouldRetry(act: Action, seen: Observation, matches: seq<ErrorBatchMatch>, now: int) {
    && act.retry.None? && Answered(act) && AllPending(act) && matches == []
    && seen.normal == [] && seen.trash == []
    && var answer := act.attempt.value.answer.value;
       && answer.submission.delivery.ResponseReceived? && answer.submission.httpStatus == 200
       && answer.at + RetryDelay <= now
       && (answer.submission.code == Transport(EmptyResponse) || answer.submission.code == Transport(InvalidResponse))
  }

  /** One rejection for every member that is still pending. */
  function RetryResults(members: seq<Member>): seq<MemberResult> {
    if members == [] then []
    else
      var n := |members| - 1;
      RetryResults(members[..n]) +
      (if Pending(members[n]) then [MemberResult(members[n].id, Rejected, RetryEnvelopeMemberRejected, 0, 0, 0, 0, false)]
       else [])
  }

  method RejectedRetryResults(members: seq<Member>) returns (results: seq<MemberResult>)
    ensures results == RetryResults(members)
  {
    results := [];
    var i := 0;
    while i < |members|
      invariant 0 <= i <= |members|
      invariant results == RetryResults(members[..i])
    {
      assert members[..i + 1][..i] == members[..i];
      if Pending(members[i]) {
        results := results + [MemberResult(members[i].id, Rejected, RetryEnvelopeMemberRejected, 0, 0, 0, 0, false)];
      }
      i := i + 1;
    }
    assert members[..i] == members;
  }

  function Judgement(act: Action, seen: Observation, matches: seq<ErrorBatchMatch>, now: int, timeout: int): seq<Evidence.Verdict> {
    Evidence.Verdicts(SubjectOf(act), seen, matches, Evidence.DeadlineReached(StartedAt(act), now, timeout))
  }

  /** The transaction one reconciliation of the action commits. */
  function Decide(a: int, act: Action, seen: Observation, matches: seq<ErrorBatchMatch>, now: int, timeout: int): Tx {
    if ShouldRetry(act, seen, matches, now) then TxBeginRetry(a)
    else if act.retry.Some? && ProvedRejection(act.retry.value) then TxConclude(a, RetryResults(act.members), Rejected)
    else
      var verdicts := Judgement(act, seen, matches, now, timeout);
      var results := Evidence.NewResults(verdicts);
      if Evidence.AllKnown(verdicts) then TxConclude(a, results, Evidence.ActionClass(Evidence.Classes(verdicts)))
      else TxPoll(a, results)
  }

  /** An action the service reconciles: its retry, if any, has an answer. */
  predicate Reconcilable(db: Tables, a: int) {
    && a in db.actions && IsProduct(db.actions[a].kind) && db.actions[a].state.Reconciling?
    && (db.actions[a].retry.Some? ==> db.actions[a].retry.value.answer.Some?)
  }

  // ---------------------------------------------------------------- results and verdicts

  /** Each member has its own verdict's result, and no other, among the results. */
  lemma {:induction false} ResultsMatchVerdicts(members: seq<Member>, verdicts: seq<Evidence.Verdict>, n: nat)
    requires Evidence.GoodIds(members) && |verdicts| == |members| && n <= |members|
    requires forall i :: 0 <= i < |members| && verdicts[i].Decided? ==> verdicts[i].result.memberId == members[i].id
    ensures forall i :: 0 <= i < |members| ==>
              ResultFor(Evidence.NewResults(verdicts[..n]), members[i].id) ==
              if i < n && verdicts[i].Decided? then Some(verdicts[i].result) else None
  {
    if n > 0 {
      ResultsMatchVerdicts(members, verdicts, n - 1);
      var v, front := verdicts[n - 1], Evidence.NewResults(verdicts[..n - 1]);
      assert verdicts[..n][..n - 1] == verdicts[..n - 1];
      var results := Evidence.NewResults(verdicts[..n]);
      if v.Decided? {
        assert results == front + [v.result] && results[..|front|] == front;
      } else {
        assert results == front;
      }
      forall i | 0 <= i < |members|
        ensures ResultFor(results, members[i].id) == if i < n && verdicts[i].Decided? then Some(verdicts[i].result) else None
      {
        if i != n - 1 { assert members[i].id != members[n - 1].id; }
      }
    }
  }

  lemma JudgedResults(act: Action, seen: Observation, matches: seq<ErrorBatchMatch>, deadline: bool)
    requires Evidence.GoodIds(act.members) && forall j :: 0 <= j < |matches| ==> matches[j].id > 0
    ensures var verdicts := Evidence.Verdicts(SubjectOf(act), seen, matches, deadline);
            var results := Evidence.NewResults(verdicts);
            && (forall i :: 0 <= i < |act.members| ==>
                  ResultFor(results, act.members[i].id) ==
                  if verdicts[i].Decided? then Some(verdicts[i].result) else None)
            && Evidence.ValidResults(act.members, results)
  {
    var verdicts := Evidence.Verdicts(SubjectOf(act), seen, matches, deadline);
    forall i | 0 <= i < |act.members| && verdicts[i].Decided? ensures verdicts[i].result.memberId == act.members[i].id {
      Evidence.DecidedIsValid(SubjectOf(act), i, seen, matches, deadline);
    }
    ResultsMatchVerdicts(act.members, verdicts, |verdicts|);
    assert verdicts[..|verdicts|] == verdicts;
    Evidence.PollPassesValidator(SubjectOf(act), seen, matches, deadline);
  }

  /** Once nobody waits, the stored members carry exactly the judged classes. */
  lemma AppliedClasses(act: Action, seen: Observation, matches: seq<ErrorBatchMatch>, deadline: bool)
    requires Evidence.GoodIds(act.members) && forall j :: 0 <= j < |matches| ==> matches[j].id > 0
    requires Evidence.AllKnown(Evidence.Verdicts(SubjectOf(act), seen, matches, deadline))
    ensures var verdicts := Evidence.Verdicts(SubjectOf(act), seen, matches, deadline);
            Concludes(act, Evidence.NewResults(verdicts), Evidence.ActionClass(Evidence.Classes(verdicts)))
  {
    var verdicts := Evidence.Verdicts(SubjectOf(act), seen, matches, deadline);
    var results := Evidence.NewResults(verdicts);
    var applied := AllApplied(act.members, results);
    JudgedResults(act, seen, matches, deadline);
    forall i | 0 <= i < |applied| ensures !Pending(applied[i]) && MemberClass(applied[i]) == Evidence.ClassOf(verdicts[i]) {
      assert applied[i] == Applied(act.members[i], results);
    }
    assert ClassesOf(applied) == Evidence.Classes(verdicts);
  }

  lemma JudgedEvidential(act: Action, seen: Observation, matches: seq<ErrorBatchMatch>, deadline: bool, r: MemberResult)
    requires r in Evidence.NewResults(Evidence.Verdicts(SubjectOf(act), seen, matches, deadline))
    ensures Evidential(r)
  {
    var verdicts := Evidence.Verdicts(SubjectOf(act), seen, matches, deadline);
    Evidence.ResultsAreDecided(verdicts, r);
    var i :| 0 <= i < |verdicts| && verdicts[i] == Evidence.Decided(r);
    assert Evidence.Judge(SubjectOf(act), i, seen, matches, deadline) == Evidence.Decided(r);
  }

  // ---------------------------------------------------------------- a proved retry rejection

  /** The rejections cover the pending members and nobody else. */
  lemma {:induction false} RetryResultsCover(members: seq<Member>, n: nat)
    requires Evidence.GoodIds(members) && n <= |members|
    ensures var results := RetryResults(members[..n]);
            && (forall k :: 0 <= k < |results| ==>
                  results[k].cls.Rejected? && results[k].errorBatchId == 0 && !results[k].attributed &&
                  Evidence.ValidResult(results[k]) && Evidence.AwaitedId(members, results[k].memberId) &&
                  Evidence.IdBefore(members, n, results[k].memberId))
            && (forall j, k :: 0 <= j < k < |results| ==> results[j].memberId != results[k].memberId)
            && (forall i :: 0 <= i < |members| ==>
                  if i < n && Pending(members[i])
                  then ResultFor(results, members[i].id).Some? && ResultFor(results, members[i].id).value.cls.Rejected?
                  else ResultFor(results, members[i].id).None?)
  {
    if n > 0 {
      RetryResultsCover(members, n - 1);
      assert members[..n][..n - 1] == members[..n - 1];
      var front, results := RetryResults(members[..n - 1]), RetryResults(members[..n]);
      if Pending(members[n - 1]) {
        assert results[..|front|] == front && results == front + [results[|front|]];
        assert Evidence.AwaitedId(members, members[n - 1].id);
      } else {
        assert results == front;
      }
      forall i | 0 <= i < |members| && i != n - 1
        ensures ResultFor(results, members[i].id) == ResultFor(front, members[i].id)
      {
        assert members[i].id != members[n - 1].id;
      }
    }
  }

  lemma RetryConcludes(act: Action)
    requires Evidence.GoodIds(act.members) && act.members != [] && AllPending(act)
    ensures Concludes(act, RetryResults(act.members), Rejected)
    ensures Evidence.ValidResults(act.members, RetryResults(act.members))
  {
    var results := RetryResults(act.members);
    RetryResultsCover(act.members, |act.members|);
    assert act.members[..|act.members|] == act.members;
    var applied := AllApplied(act.members, results);
    forall i | 0 <= i < |applied| ensures !Pending(applied[i]) && MemberClass(applied[i]).Rejected? {
      assert applied[i] == Applied(act.members[i], results);
    }
  }

  // ---------------------------------------------------------------- the service's choice

  /** Whatever the service decides to commit has the facts it relies on. */
  lemma DecisionFromService(db: Tables, a: int, seen: Observation, matches: seq<ErrorBatchMatch>, now: int, timeout: int)
    requires Inv(db) && AllSound(db) && Reconcilable(db, a) && Listed(db, db.actions[a], matches)
    ensures FromService(db, Decide(a, db.actions[a], seen, matches, now, timeout))
  {
    var act := db.actions[a];
    var tx := Decide(a, act, seen, matches, now, timeout);
    var deadline := Evidence.DeadlineReached(StartedAt(act), now, timeout);
    assert ActionOk(act) && Sound(act);
    if ShouldRetry(act, seen, matches, now) {
    } else if act.retry.Some? && ProvedRejection(act.retry.value) {
      RetryConcludes(act);
      RetryResultsCover(act.members, |act.members|);
      assert act.members[..|act.members|] == act.members;
    } else {
      forall i | 0 <= i < |tx.results| ensures Evidential(tx.results[i]) {
        JudgedEvidential(act, seen, matches, deadline, tx.results[i]);
      }
      if tx.TxConclude? {
        AppliedClasses(act, seen, matches, deadline);
      }
    }
  }

  // ---------------------------------------------------------------- nothing stands in the way of the commit

  lemma {:induction false} FindsIt(members: seq<Member>, i: nat)
    requires i < |members| && forall j, k :: 0 <= j < k < |members| ==> members[j].id != members[k].id
    ensures Find(members, members[i].id) == Some(i)
  {
    var n := |members| - 1;
    if i < n {
      assert members[..n][i] == members[i];
      FindsIt(members[..n], i);
    }
  }

  /** The result is about pending member `i`, and its Error List batch, if any, is one the journal accepts. */
  predicate Storable(db: Tables, act: Action, i: nat, r: MemberResult) {
    && i < |act.members| && act.members[i].id == r.memberId && Pending(act.members[i]) && !act.members[i].attributed
    && (r.errorBatchId > 0 ==> Correlated(db, act, r.errorBatchId, act.members[i].vendor))
  }

  ghost predicate StorableSomewhere(db: Tables, act: Action, r: MemberResult) {
    exists i: nat :: Storable(db, act, i, r)
  }

  lemma RecordOneSucceeds(db: Tables, a: int, i: nat, r: MemberResult)
    requires SlotsOk(db) && LiveProduct(db, a) && Evidence.GoodIds(db.actions[a].members)
    requires Storable(db, db.actions[a], i, r)
    ensures RecordOne(db, a, r).Some?
  {
    FindsIt(db.actions[a].members, i);
    assert Holds(db.actions[a], i) && Held(db, a, i);
  }

  lemma {:induction false} RecordAllSucceeds(db: Tables, a: int, results: seq<MemberResult>)
    requires SlotsOk(db) && LiveProduct(db, a) && KeysOk(db.actions[a]) && Evidence.GoodIds(db.actions[a].members)
    requires forall k :: 0 <= k < |results| ==> Evidential(results[k]) && StorableSomewhere(db, db.actions[a], results[k])
    requires forall i, j :: 0 <= i < j < |results| ==> results[i].memberId != results[j].memberId
    ensures RecordAll(db, a, results).Some?
  {
    if results != [] {
      var n := |results| - 1;
      RecordAllSucceeds(db, a, results[..n]);
      RecordAllKeeps(db, a, results[..n]);
      var front := RecordAll(db, a, results[..n]).value;
      assert StorableSomewhere(db, db.actions[a], results[n]);
      var i: nat :| Storable(db, db.actions[a], i, results[n]);
      Unseen(results[..n], results[n].memberId);
      assert front.actions[a].members[i] == Applied(db.actions[a].members[i], results[..n]);
      RecordOneSucceeds(front, a, i, results[n]);
    }
  }

  lemma JudgedStorable(db: Tables, a: int, seen: Observation, matches: seq<ErrorBatchMatch>, deadline: bool, r: MemberResult)
    requires a in db.actions && IsProduct(db.actions[a].kind) && Sound(db.actions[a]) && ActionOk(db.actions[a])
    requires Listed(db, db.actions[a], matches)
    requires r in Evidence.NewResults(Evidence.Verdicts(SubjectOf(db.actions[a]), seen, matches, deadline))
    ensures StorableSomewhere(db, db.actions[a], r)
  {
    var act := db.actions[a];
    var verdicts := Evidence.Verdicts(SubjectOf(act), seen, matches, deadline);
    Evidence.ResultsAreDecided(verdicts, r);
    var i :| 0 <= i < |verdicts| && verdicts[i] == Evidence.Decided(r);
    Evidence.RejectionIsListed(SubjectOf(act), i, seen, matches, deadline);
    assert MemberSound(act.members[i]);
    if r.errorBatchId > 0 {
      var j :| 0 <= j < |matches| && matches[j].id == r.errorBatchId && act.members[i].vendor in matches[j].rejected;
      assert ListedBatch(db, act, matches[j]);
    }
    assert Storable(db, act, i, r);
  }

  lemma RetryStorable(db: Tables, a: int, k: nat)
    requires a in db.actions && IsProduct(db.actions[a].kind) && Sound(db.actions[a]) && ActionOk(db.actions[a])
    requires k < |RetryResults(db.actions[a].members)|
    ensures StorableSomewhere(db, db.actions[a], RetryResults(db.actions[a].members)[k])
  {
    var act := db.actions[a];
    RetryResultsCover(act.members, |act.members|);
    assert act.members[..|act.members|] == act.members;
    var r := RetryResults(act.members)[k];
    assert Evidence.AwaitedId(act.members, r.memberId);
    var i :| 0 <= i < |act.members| && Pending(act.members[i]) && act.members[i].id == r.memberId;
    assert MemberSound(act.members[i]);
    assert Storable(db, act, i, r);
  }

  /** The results of the decision can all be stored. */
  lemma DecisionStores(db: Tables, a: int, seen: Observation, matches: seq<ErrorBatchMatch>, now: int, timeout: int)
    requires Inv(db) && AllSound(db) && Reconcilable(db, a) && Listed(db, db.actions[a], matches)
    requires !ShouldRetry(db.actions[a], seen, matches, now)
    ensures var tx := Decide(a, db.actions[a], seen, matches, now, timeout);
            && (tx.TxPoll? || tx.TxConclude?) && tx.a == a && Evidence.ValidResults(db.actions[a].members, tx.results)
            && forall k :: 0 <= k < |tx.results| ==> StorableSomewhere(db, db.actions[a], tx.results[k])
  {
    var act := db.actions[a];
    var tx := Decide(a, act, seen, matches, now, timeout);
    var deadline := Evidence.DeadlineReached(StartedAt(act), now, timeout);
    assert ActionOk(act) && Sound(act);
    if act.retry.Some? && ProvedRejection(act.retry.value) {
      RetryConcludes(act);
      forall k | 0 <= k < |tx.results| ensures StorableSomewhere(db, act, tx.results[k]) {
        RetryStorable(db, a, k);
      }
    } else {
      JudgedResults(act, seen, matches, deadline);
      forall k | 0 <= k < |tx.results| ensures StorableSomewhere(db, act, tx.results[k]) {
        JudgedStorable(db, a, seen, matches, deadline, tx.results[k]);
      }
    }
  }

  /** Reconciling never conflicts: the journal accepts whatever the service decided at an earlier time `at`. */
  lemma DecisionCommits(db: Tables, a: int, seen: Observation, matches: seq<ErrorBatchMatch>, at: int, timeout: int, now: int)
    requires Inv(db) && AllSound(db) && Reconcilable(db, a) && Listed(db, db.actions[a], matches) && at <= now
    ensures Can(db, Decide(a, db.actions[a], seen, matches, at, timeout), now)
  {
    var act := db.actions[a];
    var tx := Decide(a, act, seen, matches, at, timeout);
    assert ActionOk(act) && Sound(act);
    DecisionFromService(db, a, seen, matches, at, timeout);
    if !ShouldRetry(act, seen, matches, at) {
      DecisionStores(db, a, seen, matches, at, timeout);
      RecordAllSucceeds(db, a, tx.results);
      RecordAllKeeps(db, a, tx.results);
    }
  }

  /** A reconciliation that was decided at or after the deadline ends the action, unless it starts the one retry. */
  lemma DeadlineEnds(db: Tables, a: int, seen: Observation, matches: seq<ErrorBatchMatch>, at: int, timeout: int, now: int)
    requires Inv(db) && AllSound(db) && Reconcilable(db, a) && Listed(db, db.actions[a], matches) && at <= now
    requires Evidence.DeadlineReached(StartedAt(db.actions[a]), at, timeout)
    requires !ShouldRetry(db.actions[a], seen, matches, at)
    ensures var tx := Decide(a, db.actions[a], seen, matches, at, timeout);
            && Can(db, tx, now) && a in Do(db, tx, now).actions && Do(db, tx, now).actions[a].state.Terminal?
  {
    DecisionCommits(db, a, seen, matches, at, timeout, now);
    Evidence.DeadlineCompletes(SubjectOf(db.actions[a]), seen, matches, at, timeout);
  }
}
