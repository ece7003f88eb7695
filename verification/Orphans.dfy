/** Identities that an aborted plan leaves locked with nobody holding them: when they arise, and that they do. */
module Orphans {
  import opened Common
  import opened Publication
  import opened Tables
  import opened Transactions
  import opened Invariant
  import opened Journal
  import opened PublicationRun
  import opened PublicationTheorems
  import opened Releases

  // ---------------------------------------------------------------- one transaction

  lemma {:induction false} UpsertMakesNone(identities: map<Key, Identity>, drafts: seq<IdentityDraft>, k: Key)
    requires forall i :: 0 <= i < |drafts| ==> Observed(drafts[i].state)
    requires k in identities && identities[k].state.BlockedUncertain? ==> identities[k].active.Some?
    ensures var next := Upsert(identities, drafts);
            k in next && next[k].state.BlockedUncertain? ==> next[k].active.Some?
  {
    if drafts != [] {
      UpsertMakesNone(identities, drafts[..|drafts| - 1], k);
    }
  }

  lemma {:induction false} RejectMembersMakesNone(db: Tables, a: int, n: nat, verdicts: seq<MemberVerdict>, k: Key)
    requires RejectMembers(db, a, n, verdicts).Some? && !Orphaned(db, k)
    ensures !Orphaned(RejectMembers(db, a, n, verdicts).value, k)
  {
    if n > 0 {
      RejectMembersMakesNone(db, a, n - 1, verdicts, k);
    }
  }

  lemma {:induction false} RecordAllMakesNone(db: Tables, a: int, results: seq<MemberResult>, k: Key)
    requires RecordAll(db, a, results).Some? && !Orphaned(db, k)
    ensures !Orphaned(RecordAll(db, a, results).value, k)
  {
    if results != [] {
      RecordAllMakesNone(db, a, results[..|results| - 1], k);
    }
  }

  lemma CloseMakesNone(db: Tables, a: int, cls: ResultClass, k: Key)
    requires a in db.actions
    ensures Orphaned(Close(db, a, cls), k) <==> Orphaned(db, k)
  {
  }

  lemma RejectMakesNone(db: Tables, a: int, s: Submission, now: int, k: Key)
    requires CanReject(db, a, s, now) && !Orphaned(db, k)
    ensures !Orphaned(Reject(db, a, s, now), k)
  {
    RejectMembersMakesNone(RecordAnswer(db, a, s, now), a, |db.actions[a].members|, s.members, k);
    CloseMakesNone(Rejections(db, a, s, now).value, a, RejectionClass(db.actions[a].members, s.members), k);
  }

  lemma ConcludeMakesNone(db: Tables, a: int, results: seq<MemberResult>, cls: ResultClass, k: Key)
    requires CanConclude(db, a, results) && !Orphaned(db, k)
    ensures !Orphaned(Conclude(db, a, results, cls), k)
  {
    RecordAllMakesNone(db, a, results, k);
    CloseMakesNone(Poll(db, a, results), a, cls, k);
  }

  lemma ResolveMakesNone(db: Tables, a: int, i: nat, ruling: Ruling, k: Key)
    requires a in db.actions && i < |db.actions[a].members| && KeyOf(db.actions[a], i) in db.identities
    requires AllSettled(db.actions[a]) && !Orphaned(db, k)
    ensures !Orphaned(Resolve(db, a, i, ruling), k)
  {
  }

  lemma FinishMediaMakesNone(db: Tables, a: int, nm: int, o: Outcome, k: Key)
    requires CanFinishMedia(db, a, nm) && !Orphaned(db, k)
    ensures !Orphaned(FinishMedia(db, a, o), k)
  {
  }

  lemma BeginsMakeNone(db: Tables, tx: Tx, now: int, k: Key)
    requires Can(db, tx, now) && !Orphaned(db, k)
    requires tx.TxInsertPlan? || tx.TxBeginAttempt? || tx.TxAwait? || tx.TxBeginRetry? || tx.TxRecordRetry? || tx.TxSupersede?
    ensures !Orphaned(Do(db, tx, now), k)
  {
    if tx.TxInsertPlan? {
      UpsertMakesNone(db.identities, tx.identities, k);
    }
  }

  lemma SettlersMakeNone(db: Tables, tx: Tx, now: int, k: Key)
    requires Can(db, tx, now) && !Orphaned(db, k)
    requires tx.TxReject? || tx.TxPoll? || tx.TxConclude? || tx.TxResolve?
    ensures !Orphaned(Do(db, tx, now), k)
  {
    match tx
    case TxReject(a, s) => RejectMakesNone(db, a, s, now, k);
    case TxPoll(a, results) => RecordAllMakesNone(db, a, results, k);
    case TxConclude(a, results, cls) => ConcludeMakesNone(db, a, results, cls, k);
    case TxResolve(a, i, _, ruling) => ResolveMakesNone(db, a, i, ruling, k);
  }

  lemma MediaMakesNone(db: Tables, tx: Tx, now: int, k: Key)
    requires Can(db, tx, now) && !Orphaned(db, k) && IsMediaTx(tx)
    ensures !Orphaned(Do(db, tx, now), k)
  {
    match tx
    case TxRecordMedia(a, nm, s, o) => FinishMediaMakesNone(RecordAnswer(db, a, s, now), a, nm, o, k);
    case TxConcludeMedia(a, nm, o) => FinishMediaMakesNone(db, a, nm, o, k);
    case TxBeginMedia(_, _, _) =>
    case TxSkipMedia(_) =>
    case TxSchedule(_, _) =>
  }

  /** The transaction aborts a plan one of whose planned products wants the free identity `k`. */
  ghost predicate AbortsWaiting(db: Tables, tx: Tx, k: Key) {
    tx.TxAbort? && k in db.identities && Free(db.identities[k]) && WantedBy(db, tx.plan, k)
  }

  lemma AbortOrphansIff(db: Tables, p: int, k: Key)
    requires !Orphaned(db, k)
    ensures Orphaned(Abort(db, p), k) <==> k in db.identities && Free(db.identities[k]) && WantedBy(db, p, k)
  {
  }

  /** A transaction orphans an identity exactly when it aborts a plan that still wants it while it is free. */
  lemma CommitOrphansIff(db: Tables, tx: Tx, now: int, k: Key)
    requires Inv(db) && Can(db, tx, now) && FromEvidence(tx)
    ensures Orphaned(Do(db, tx, now), k) <==> Orphaned(db, k) || AbortsWaiting(db, tx, k)
  {
    if Orphaned(db, k) {
      OrphanStays(db, tx, now, k);
    } else if tx.TxAbort? {
      AbortOrphansIff(db, tx.plan, k);
    } else if IsMediaTx(tx) {
      MediaMakesNone(db, tx, now, k);
    } else if tx.TxReject? || tx.TxPoll? || tx.TxConclude? || tx.TxResolve? {
      SettlersMakeNone(db, tx, now, k);
    } else {
      BeginsMakeNone(db, tx, now, k);
    }
  }

  // ---------------------------------------------------------------- whole runs

  /** The step commits an abort that orphans `k`. */
  ghost predicate StepOrphans(s: System, step: Step, k: Key) {
    step.Elsewhere? && Can(s.db, step.tx, s.now) && AbortsWaiting(s.db, step.tx, k)
  }

  lemma StepOrphansIff(s: System, step: Step, k: Key)
    requires RunInv(s) && Enabled(s, step)
    ensures Orphaned(Next(s, step).db, k) <==> Orphaned(s.db, k) || StepOrphans(s, step, k)
  {
    StepIsCommit(s, step);
    var tx := TxOf(s, step);
    if tx.Some? && Can(s.db, tx.value, s.now) {
      StepTxFromEvidence(s, step);
      CommitOrphansIff(s.db, tx.value, s.now, k);
      OnlyElsewhereAborts(s, step);
    }
  }

  lemma OnlyElsewhereAborts(s: System, step: Step)
    requires Enabled(s, step)
    ensures TxOf(s, step).Some? && TxOf(s, step).value.TxAbort? ==> step.Elsewhere?
  {
  }

  lemma RunStepOrphansIff(states: seq<System>, steps: seq<Step>, n: nat, k: Key)
    requires IsRun(states, steps) && n < |steps|
    ensures Orphaned(states[n + 1].db, k) <==> Orphaned(states[n].db, k) || StepOrphans(states[n], steps[n], k)
  {
    EveryStateOk(states, steps, n);
    StepOrphansIff(states[n], steps[n], k);
  }

  ghost function Culprits(states: seq<System>, steps: seq<Step>, k: Key): (culprits: seq<bool>)
    requires |states| == |steps| + 1
    ensures |culprits| == |steps|
    ensures forall i :: 0 <= i < |steps| ==> (culprits[i] <==> StepOrphans(states[i], steps[i], k))
  {
    seq(|steps|, i requires 0 <= i < |steps| => StepOrphans(states[i], steps[i], k))
  }

  lemma {:induction false} ChainOrphans(dbs: seq<Tables>, culprits: seq<bool>, n: nat, k: Key)
    requires n < |dbs| == |culprits| + 1 && !Orphaned(dbs[0], k)
    requires forall i :: 0 <= i < |culprits| ==> (Orphaned(dbs[i + 1], k) <==> Orphaned(dbs[i], k) || culprits[i])
    ensures Orphaned(dbs[n], k) <==> exists m :: 0 <= m < n && culprits[m]
  {
    if n > 0 {
      ChainOrphans(dbs, culprits, n - 1, k);
      assert Orphaned(dbs[n - 1 + 1], k) <==> Orphaned(dbs[n - 1], k) || culprits[n - 1];
    }
  }

  ghost predicate AbortedBefore(states: seq<System>, steps: seq<Step>, n: nat, k: Key)
    requires n <= |steps| && |states| == |steps| + 1
  {
    exists m :: 0 <= m < n && StepOrphans(states[m], steps[m], k)
  }

  lemma CulpritsAborted(states: seq<System>, steps: seq<Step>, n: nat, k: Key)
    requires n <= |steps| && |states| == |steps| + 1
    ensures AbortedBefore(states, steps, n, k) <==> exists m :: 0 <= m < n && Culprits(states, steps, k)[m]
  {
    if m :| 0 <= m < n && StepOrphans(states[m], steps[m], k) {
      assert Culprits(states, steps, k)[m];
    }
  }

  /** An identity is orphaned exactly when an earlier step aborted a plan that wanted it while it was free. */
  lemma OrphanedIffAborted(states: seq<System>, steps: seq<Step>, n: nat, k: Key)
    requires IsRun(states, steps) && n < |states|
    ensures Orphaned(states[n].db, k) <==> AbortedBefore(states, steps, n, k)
  {
    forall i | 0 <= i < |steps|
      ensures Orphaned(states[i + 1].db, k) <==> Orphaned(states[i].db, k) || StepOrphans(states[i], steps[i], k)
    {
      RunStepOrphansIff(states, steps, i, k);
    }
    ChainOrphans(Journals(states), Culprits(states, steps, k), n, k);
    CulpritsAborted(states, steps, n, k);
  }

  // ---------------------------------------------------------------- a run that orphans an identity

  const FirstKey := Key([], ['a'])
  const SecondKey := Key([], ['b'])

  function Product(vendor: string): Action {
    Action(1, [], CreateGroup, CreateRequest([]), [Member(1, 1, 1, vendor, None, false)], Planned, 0, None, None, None)
  }

  function Missing(k: Key): IdentityDraft { IdentityDraft(k, RemoteMissing, 0, 0, 0) }

  /** A plan with two products, for two identities that are free. */
  function TwoProducts(): Tx {
    TxInsertPlan(1, map[1 := Product(['a']), 2 := Product(['b'])], [Missing(FirstKey), Missing(SecondKey)], Success)
  }

  const Free0 := Identity(RemoteMissing, 0, 0, 0, None)

  function Inserted(): Tables {
    Tables(map[1 := Plan(Awaiting, None)], map[1 := Product(['a']), 2 := Product(['b'])],
           map[FirstKey := Free0, SecondKey := Free0], map[])
  }

  lemma InsertTwo(now: int)
    ensures Can(Tables(map[], map[], map[], map[]), TwoProducts(), now)
    ensures Do(Tables(map[], map[], map[], map[]), TwoProducts(), now) == Inserted()
  {
    var drafts := [Missing(FirstKey), Missing(SecondKey)];
    assert drafts[..1] == [Missing(FirstKey)] && drafts[..1][..0] == [];
    assert Upsert(map[], drafts[..1][..0]) == map[];
    assert Upsert(map[], drafts[..1]) == map[FirstKey := Free0];
    assert Upsert(map[], drafts) == map[FirstKey := Free0, SecondKey := Free0];
  }

  function Begun(): Tables {
    var first := Product(['a']).(state := Dispatching, revision := 1, attempt := Some(Attempt(0, None, None)));
    Tables(map[1 := Plan(Executing, None)], map[1 := first, 2 := Product(['b'])],
           map[FirstKey := Identity(MutationPending, 0, 0, 0, Some(1)), SecondKey := Free0], map[])
  }

  lemma BeginFirst()
    ensures CanBeginAttempt(Inserted(), 1) && BeginAttempt(Inserted(), 1, None, 0) == Begun()
  {
    var db := Inserted();
    assert Keys(db.actions[1]) == [FirstKey];
    assert BoundRows(db.identities, [FirstKey]) == {FirstKey};
    assert Bind(db.identities, [FirstKey], 1) == Begun().identities;
  }

  lemma AbortSecond()
    ensures CanAbort(Begun(), 1) && Orphaned(Abort(Begun(), 1), SecondKey)
  {
    var db := Begun();
    assert InPlan(db, 1, 1) && db.actions[1].attempt.Some?;
    assert Abortable(db, 1, 2) && Keys(db.actions[2])[0] == SecondKey;
    AbortOrphansIff(db, 1, SecondKey);
  }

  lemma FirstStep() returns (states: seq<System>, steps: seq<Step>)
    ensures IsRun(states, steps) && |steps| == 1 && states[1].db == Inserted() && states[1].now == 0
  {
    InsertTwo(0);
    var s := System(Tables(map[], map[], map[], map[]), 0, map[], []);
    states, steps := Extend([s], [], Elsewhere(TwoProducts()));
  }

  lemma SecondStep() returns (states: seq<System>, steps: seq<Step>)
    ensures IsRun(states, steps) && |steps| == 2 && states[2].db == Begun()
  {
    states, steps := FirstStep();
    BeginFirst();
    states, steps := Extend(states, steps, Dispatch(1, None));
  }

  lemma AbortStep(s: System, p: int, k: Key)
    requires CanAbort(s.db, p) && Orphaned(Abort(s.db, p), k)
    ensures var step := Elsewhere(TxAbort(p)); Enabled(s, step) && Orphaned(Next(s, step).db, k)
  {
  }

  /** Insert a plan of two products, begin the first, abort the plan: the second identity is orphaned. */
  lemma SomeRunOrphans() returns (states: seq<System>, steps: seq<Step>)
    ensures IsRun(states, steps) && |steps| == 3 && Orphaned(states[3].db, SecondKey)
  {
    states, steps := SecondStep();
    AbortSecond();
    AbortStep(states[2], 1, SecondKey);
    states, steps := Extend(states, steps, Elsewhere(TxAbort(1)));
  }
}
