/** Evidence loaded before a transaction is still in the journal when the transaction uses it. */
module Loading {
  import opened Common
  import opened Publication
  import opened Tables
  import opened Transactions
  import opened Folds
  import opened Invariant
  import opened Journal
  import opened Reconciliation
  import opened PublicationRun
  import opened PublicationTheorems
  import Progress

  /** Stored Error List batches stay as they are. */
  ghost predicate KeepsBatches(db: Tables, next: Tables) {
    forall b :: b in db.batches ==> b in next.batches && next.batches[b] == db.batches[b]
  }

  lemma {:induction false} RejectMembersLeavesBatches(db: Tables, a: int, n: nat, verdicts: seq<MemberVerdict>)
    requires RejectMembers(db, a, n, verdicts).Some?
    ensures RejectMembers(db, a, n, verdicts).value.batches == db.batches
  {
    if n > 0 {
      RejectMembersLeavesBatches(db, a, n - 1, verdicts);
    }
  }

  lemma {:induction false} RecordAllLeavesBatches(db: Tables, a: int, results: seq<MemberResult>)
    requires RecordAll(db, a, results).Some?
    ensures RecordAll(db, a, results).value.batches == db.batches
  {
    if results != [] {
      RecordAllLeavesBatches(db, a, results[..|results| - 1]);
    }
  }

  lemma SettlersLeaveBatches(db: Tables, tx: Tx, now: int)
    requires Can(db, tx, now) && (tx.TxReject? || tx.TxPoll? || tx.TxConclude?)
    ensures Do(db, tx, now).batches == db.batches
  {
    match tx
    case TxReject(a, s) => RejectMembersLeavesBatches(RecordAnswer(db, a, s, now), a, |db.actions[a].members|, s.members);
    case TxPoll(a, results) => RecordAllLeavesBatches(db, a, results);
    case TxConclude(a, results, _) => RecordAllLeavesBatches(db, a, results);
  }

  lemma CommitLeavesBatches(db: Tables, tx: Tx, now: int)
    requires Can(db, tx, now)
    ensures Do(db, tx, now).batches == db.batches
  {
    if tx.TxReject? || tx.TxPoll? || tx.TxConclude? {
      SettlersLeaveBatches(db, tx, now);
    }
  }

  lemma StepKeepsBatches(s: System, step: Step)
    requires Enabled(s, step)
    ensures KeepsBatches(s.db, Next(s, step).db)
  {
    StepIsCommit(s, step);
    var tx := TxOf(s, step);
    if tx.Some? {
      if Can(s.db, tx.value, s.now) {
        CommitLeavesBatches(s.db, tx.value, s.now);
      }
    }
  }

  lemma {:induction false} ChainKeepsBatches(dbs: seq<Tables>, m: nat, n: nat)
    requires m <= n < |dbs| && forall i :: 0 <= i < |dbs| - 1 ==> KeepsBatches(dbs[i], dbs[i + 1])
    ensures KeepsBatches(dbs[m], dbs[n])
    decreases n - m
  {
    if m < n {
      ChainKeepsBatches(dbs, m, n - 1);
      assert KeepsBatches(dbs[n - 1], dbs[n - 1 + 1]);
    }
  }

  lemma StaysListed(db: Tables, next: Tables, a: int, matches: seq<ErrorBatchMatch>)
    requires a in db.actions && db.actions[a].attempt.Some? && Listed(db, db.actions[a], matches)
    requires a in next.actions && Progress.Later(db.actions[a], next.actions[a]) && KeepsBatches(db, next)
    ensures Listed(next, next.actions[a], matches)
  {
    forall j | 0 <= j < |matches| ensures ListedBatch(next, next.actions[a], matches[j]) {
      assert ListedBatch(db, db.actions[a], matches[j]);
    }
  }

  /** Batches loaded for an attempted action at any point of a run may be used at any later point. */
  lemma LoadedStaysListed(states: seq<System>, steps: seq<Step>, m: nat, n: nat, a: int, matches: seq<ErrorBatchMatch>)
    requires IsRun(states, steps) && m <= n < |states|
    requires a in states[m].db.actions && states[m].db.actions[a].attempt.Some?
    requires Listed(states[m].db, states[m].db.actions[a], matches)
    ensures a in states[n].db.actions && Listed(states[n].db, states[n].db.actions[a], matches)
  {
    var dbs := Journals(states);
    forall i | 0 <= i < |dbs| - 1 ensures KeepsBatches(dbs[i], dbs[i + 1]) {
      StepKeepsBatches(states[i], steps[i]);
    }
    ChainKeepsBatches(dbs, m, n);
    EveryRunAdvances(states, steps, m, n);
    StaysListed(dbs[m], dbs[n], a, matches);
  }
}
