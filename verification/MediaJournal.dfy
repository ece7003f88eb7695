/**
 The media dispatcher and the visibility jobs on the journal's own rows: what a worker, the poller or a visibility
 check writes is a transaction of the journal, and other transactions go on beside them.
 */
module MediaJournal {
  import opened Common
  import opened Publication
  import opened Tables
  import opened Transactions
  import opened Slots
  import opened Folds
  import opened Invariant
  import opened Preservation
  import opened Journal
  import MD = MediaDispatch
  import MV = MediaVisibility

  // ---------------------------------------------------------------- media rows under other transactions

  predicate MediaIn(db: Tables, a: int) { a in db.actions && db.actions[a].kind.UploadMedia? }

  /** What the dispatcher knows of the row: whether an attempt may begin, is under way, or is over. */
  function RowOf(act: Action): MD.Row {
    match act.state
    case Planned => MD.Waiting
    case Dispatching => MD.Begun
    case _ => MD.Ended
  }

  function AttemptRows(act: Action): nat { if act.attempt.Some? then 1 else 0 }

  /** Unchanged, or ended before it was begun. */
  predicate OnlyEnded(x: Action, y: Action) {
    y == x || (x.state.Planned? && Finished(y.state) && y.kind == x.kind && y.attempt == x.attempt)
  }

  /** No media row is added, and those there are are unchanged or ended before they were begun. */
  ghost predicate MediaLeft(db: Tables, next: Tables) {
    && (forall a :: MediaIn(next, a) <==> MediaIn(db, a))
    && (forall a :: MediaIn(db, a) ==> OnlyEnded(db.actions[a], next.actions[a]))
  }

  lemma ProductRow(db: Tables, next: Tables, b: int)
    requires b in db.actions && b in next.actions && IsProduct(db.actions[b].kind) && IsProduct(next.actions[b].kind)
    requires next.actions == db.actions[b := next.actions[b]]
    ensures MediaLeft(db, next)
  {
  }

  lemma CloseLeavesMedia(db: Tables, b: int, cls: ResultClass)
    requires b in db.actions && IsProduct(db.actions[b].kind)
    ensures MediaLeft(db, Close(db, b, cls))
  {
  }

  lemma LeftTransitive(x: Tables, y: Tables, z: Tables)
    requires MediaLeft(x, y) && MediaLeft(y, z)
    ensures MediaLeft(x, z)
  {
    forall a | MediaIn(x, a) ensures OnlyEnded(x.actions[a], z.actions[a]) {
      assert MediaIn(y, a) && OnlyEnded(x.actions[a], y.actions[a]) && OnlyEnded(y.actions[a], z.actions[a]);
    }
  }

  lemma RejectLeavesMedia(db: Tables, b: int, s: Submission, now: int)
    requires Inv(db) && CanReject(db, b, s, now)
    ensures MediaLeft(db, Reject(db, b, s, now))
  {
    var answered, settled := RecordAnswer(db, b, s, now), Rejections(db, b, s, now).value;
    assert ActionOk(db.actions[b]);
    AnswerKeepsSlots(db, b, s, now);
    RejectMembersKeeps(answered, b, |db.actions[b].members|, s.members);
    ProductRow(db, settled, b);
    CloseLeavesMedia(settled, b, RejectionClass(db.actions[b].members, s.members));
    LeftTransitive(db, settled, Reject(db, b, s, now));
  }

  lemma PollLeavesMedia(db: Tables, b: int, results: seq<MemberResult>)
    requires Inv(db) && CanPoll(db, b, results) && forall i :: 0 <= i < |results| ==> Evidential(results[i])
    ensures MediaLeft(db, Poll(db, b, results))
  {
    PollSettles(db, b, results);
    ProductRow(db, Poll(db, b, results), b);
  }

  lemma ConcludeLeavesMedia(db: Tables, b: int, results: seq<MemberResult>, cls: ResultClass)
    requires Inv(db) && CanConclude(db, b, results) && forall i :: 0 <= i < |results| ==> Evidential(results[i])
    ensures MediaLeft(db, Conclude(db, b, results, cls))
  {
    PollSettles(db, b, results);
    PollLeavesMedia(db, b, results);
    CloseLeavesMedia(Poll(db, b, results), b, cls);
    LeftTransitive(db, Poll(db, b, results), Conclude(db, b, results, cls));
  }

  lemma ResolveLeavesMedia(db: Tables, b: int, i: nat, revision: nat, ruling: Ruling)
    requires Resolvable(db, b, i, revision) && AllSettled(db.actions[b])
    ensures MediaLeft(db, Resolve(db, b, i, ruling))
  {
    ProductRow(db, Resolve(db, b, i, ruling), b);
  }

  /** Transactions that neither insert a plan nor belong to the media dispatcher or a visibility check. */
  predicate Bystander(tx: Tx) {
    !tx.TxInsertPlan? && !tx.TxBeginMedia? && !tx.TxRecordMedia? && !tx.TxSchedule? && !tx.TxConcludeMedia?
  }

  lemma OrdersLeaveMedia(db: Tables, tx: Tx, now: int)
    requires Can(db, tx, now) && (tx.TxBeginAttempt? || tx.TxAwait? || tx.TxBeginRetry? || tx.TxRecordRetry?)
    ensures MediaLeft(db, Do(db, tx, now))
  {
    ProductRow(db, Do(db, tx, now), tx.a);
  }

  lemma SupersedeLeavesMedia(db: Tables, p: int)
    requires CanSupersede(db, p)
    ensures MediaLeft(db, Supersede(db, p))
  {
  }

  lemma AbortLeavesMedia(db: Tables, p: int)
    ensures MediaLeft(db, Abort(db, p))
  {
  }

  lemma SkipLeavesMedia(db: Tables, a: int)
    requires CanSkipMedia(db, a)
    ensures MediaLeft(db, SkipMediaAction(db, a))
  {
  }

  lemma BystanderLeavesMedia(db: Tables, tx: Tx, now: int)
    requires Inv(db) && Can(db, tx, now) && FromEvidence(tx) && Bystander(tx)
    ensures MediaLeft(db, Do(db, tx, now))
  {
    if tx.TxReject? {
      RejectLeavesMedia(db, tx.a, tx.s, now);
    } else if tx.TxPoll? {
      PollLeavesMedia(db, tx.a, tx.results);
    } else if tx.TxConclude? {
      ConcludeLeavesMedia(db, tx.a, tx.results, tx.cls);
    } else if tx.TxResolve? {
      ResolveLeavesMedia(db, tx.a, tx.i, tx.revision, tx.ruling);
    } else if tx.TxSupersede? {
      SupersedeLeavesMedia(db, tx.plan);
    } else if tx.TxAbort? {
      AbortLeavesMedia(db, tx.plan);
    } else if tx.TxSkipMedia? {
      SkipLeavesMedia(db, tx.a);
    } else {
      OrdersLeaveMedia(db, tx, now);
    }
  }

  // ---------------------------------------------------------------- the dispatcher on the journal

  /** The dispatcher's view of the media rows is what the journal holds. */
  ghost predicate Linked(s: MD.Process, db: Tables) {
    && (forall a :: a in s.rows <==> MediaIn(db, a))
    && (forall a :: a in s.attempts <==> MediaIn(db, a))
    && (forall a :: MediaIn(db, a) ==> s.rows[a] == RowOf(db.actions[a]) && s.attempts[a] == AttemptRows(db.actions[a]))
  }

  function AddedMedia(drafts: map<int, Action>): set<int> { set a | a in drafts && drafts[a].kind.UploadMedia? }

  lemma PlanLinks(s: MD.Process, db: Tables, p: int, drafts: map<int, Action>, identities: seq<IdentityDraft>, preflight: ResultClass)
    requires Linked(s, db) && CanInsertPlan(db, p, drafts, identities)
    ensures MD.Enabled(s, MD.Plan(AddedMedia(drafts)))
    ensures Linked(MD.Next(s, MD.Plan(AddedMedia(drafts))), InsertPlan(db, p, drafts, identities, preflight))
  {
    forall a | a in AddedMedia(drafts) ensures a !in s.rows.Keys { assert a !in db.actions; }
    var t, next := MD.Next(s, MD.Plan(AddedMedia(drafts))), InsertPlan(db, p, drafts, identities, preflight);
    forall a | MediaIn(next, a) ensures a in t.rows && a in t.attempts && t.rows[a] == RowOf(next.actions[a]) &&
                                        t.attempts[a] == AttemptRows(next.actions[a])
    {
      if a in drafts { assert DraftOk(drafts[a], p); }
    }
  }

  function EndedMedia(db: Tables, next: Tables): set<int> {
    set a | a in db.actions && MediaIn(db, a) && a in next.actions && next.actions[a] != db.actions[a]
  }

  lemma LeftLinks(s: MD.Process, db: Tables, next: Tables)
    requires Linked(s, db) && MediaLeft(db, next)
    ensures MD.Enabled(s, MD.EndElsewhere(EndedMedia(db, next)))
    ensures Linked(MD.Next(s, MD.EndElsewhere(EndedMedia(db, next))), next)
  {
    var t := MD.Next(s, MD.EndElsewhere(EndedMedia(db, next)));
    forall a | MediaIn(next, a) ensures t.rows[a] == RowOf(next.actions[a]) && t.attempts[a] == AttemptRows(next.actions[a]) {
      assert MediaIn(db, a) && OnlyEnded(db.actions[a], next.actions[a]);
    }
  }

  /** Only media row `a` changed. */
  lemma MediaRowLinks(s: MD.Process, t: MD.Process, db: Tables, next: Tables, a: int)
    requires Linked(s, db) && MediaIn(db, a) && MediaIn(next, a) && next.actions == db.actions[a := next.actions[a]]
    requires t.rows == s.rows[a := RowOf(next.actions[a])] && t.attempts == s.attempts[a := AttemptRows(next.actions[a])]
    ensures Linked(t, next)
  {
  }

  lemma BeginLinks(s: MD.Process, db: Tables, a: int, nm: int, baseline: Option<Stamp>, now: int)
    requires Linked(s, db) && CanBeginMedia(db, a, nm) && a in s.workers && s.workers[a].Loading?
    ensures MD.Enabled(s, MD.BeginAttempt(a)) && Linked(MD.Next(s, MD.BeginAttempt(a)), BeginMedia(db, a, baseline, now))
  {
    MediaRowLinks(s, MD.Next(s, MD.BeginAttempt(a)), db, BeginMedia(db, a, baseline, now), a);
  }

  lemma SkipLinks(s: MD.Process, db: Tables, a: int)
    requires Linked(s, db) && CanSkipMedia(db, a) && a in s.workers && s.workers[a].Loading?
    ensures MD.Enabled(s, MD.SkipWithoutAttempt(a)) && Linked(MD.Next(s, MD.SkipWithoutAttempt(a)), SkipMediaAction(db, a))
  {
    MediaRowLinks(s, MD.Next(s, MD.SkipWithoutAttempt(a)), db, SkipMediaAction(db, a), a);
  }

  /** The transaction stores the answer to the call of media action `a`. */
  predicate Answers(tx: Tx, a: int, nm: int) { (tx.TxRecordMedia? && tx.a == a && tx.nm == nm) || (tx.TxSchedule? && tx.a == a) }

  lemma AnswerMoves(db: Tables, tx: Tx, now: int, a: int, nm: int)
    requires Can(db, tx, now) && Answers(tx, a, nm)
    ensures var next := Do(db, tx, now);
            && MediaIn(db, a) && MediaIn(next, a) && next.actions == db.actions[a := next.actions[a]]
            && RowOf(db.actions[a]).Begun? && RowOf(next.actions[a]).Ended?
            && AttemptRows(next.actions[a]) == AttemptRows(db.actions[a]) == 1
            && next.actions[a].state == (if tx.TxSchedule? then Reconciling else Terminal)
  {
  }

  lemma StoreLinks(s: MD.Process, db: Tables, tx: Tx, now: int, a: int, nm: int)
    requires Linked(s, db) && Can(db, tx, now) && Answers(tx, a, nm) && a in s.workers && s.workers[a].Storing?
    ensures MD.Enabled(s, MD.StoreAnswer(a, true)) && Linked(MD.Next(s, MD.StoreAnswer(a, true)), Do(db, tx, now))
  {
    AnswerMoves(db, tx, now, a, nm);
    MediaRowLinks(s, MD.Next(s, MD.StoreAnswer(a, true)), db, Do(db, tx, now), a);
  }

  lemma BuryLinks(s: MD.Process, db: Tables, tx: Tx, now: int, nm: int)
    requires Linked(s, db) && s.poller.Burying? && Can(db, tx, now) && Answers(tx, s.poller.a, nm)
    ensures MD.Enabled(s, MD.BuryInterrupted(true)) && Linked(MD.Next(s, MD.BuryInterrupted(true)), Do(db, tx, now))
  {
    AnswerMoves(db, tx, now, s.poller.a, nm);
    MediaRowLinks(s, MD.Next(s, MD.BuryInterrupted(true)), db, Do(db, tx, now), s.poller.a);
  }

  // ---------------------------------------------------------------- journal, dispatcher and visibility jobs together

  datatype Joint = Joint(process: MD.Process, db: Tables, now: int, jobs: map<int, MV.World>)

  /** When a visibility job starts, how often it checks and how long it waits. */
  datatype Timing = Timing(at: int, interval: int, timeout: int)

  datatype Move =
    | Local(step: MD.Step)
    | Begin(a: int, nm: int, baseline: Option<Stamp>)
    | Skip(a: int, nm: int)
    | Store(a: int, nm: int, tx: Tx, timing: Timing)
    | Bury(nm: int, tx: Tx, timing: Timing)
    | Watch(a: int, nm: int, event: MV.Event)
    | Finish(a: int, nm: int, claim: MV.Claim, u: MV.Update, at: int, clock: int)
    | Elsewhere(tx: Tx)
    | Elapse(seconds: nat)

  /** Steps of the dispatcher that write nothing. */
  predicate WritesNothing(step: MD.Step) {
    match step
    case StoreAnswer(_, stored) => !stored
    case BuryInterrupted(stored) => !stored
    case Plan(_) => false
    case EndElsewhere(_) => false
    case BeginAttempt(_) => false
    case SkipWithoutAttempt(_) => false
    case _ => true
  }

  predicate Positive(t: Timing) { 0 < t.interval < t.timeout }

  /** A check that ends the job brings the outcome of the action. */
  predicate EndsJob(w: MV.World, claim: MV.Claim, u: MV.Update, clock: int) {
    MV.Accepts(w.job, claim, u, clock) && u.outcome.Some?
  }

  /** A product of the plan that the media was attributed to has this number. */
  predicate Numbered(db: Tables, act: Action, nm: int)
    requires |act.members| > 0
  {
    forall c, i :: c in db.actions && 0 <= i < |db.actions[c].members| &&
                   AttributedBy(db.actions[c], i, act.plan, act.seller, act.members[0]) ==>
      NumberOf(db.actions[c].members[i]) == nm
  }

  function NumberOf(m: Member): int { if m.outcome.Some? then m.outcome.value.nmId else 0 }

  /**
   Every transaction on a media action first locks it together with its card: the card must be present, free before the
   attempt and held by the action since, and bear the action's number `nm`.
   */
  predicate Locks(db: Tables, a: int, nm: int) {
    && IsMedia(db, a) && nm > 0
    && MediaCardIs(db, db.actions[a], nm, if db.actions[a].state.Planned? then None else Some(a))
    && Numbered(db, db.actions[a], nm)
  }

  ghost predicate Enabled(j: Joint, m: Move) {
    match m
    case Local(step) => WritesNothing(step) && MD.Enabled(j.process, step)
    case Begin(a, nm, _) =>
      a in j.process.workers && j.process.workers[a].Loading? && Locks(j.db, a, nm) && CanBeginMedia(j.db, a, nm)
    case Skip(a, nm) =>
      a in j.process.workers && j.process.workers[a].Loading? && Locks(j.db, a, nm) && CanSkipMedia(j.db, a)
    case Store(a, nm, tx, timing) =>
      && a in j.process.workers && j.process.workers[a].Storing? && Locks(j.db, a, nm)
      && Answers(tx, a, nm) && Can(j.db, tx, j.now) && Positive(timing)
    case Bury(nm, tx, timing) =>
      && j.process.poller.Burying? && Locks(j.db, j.process.poller.a, nm)
      && Answers(tx, j.process.poller.a, nm) && Can(j.db, tx, j.now) && Positive(timing)
    case Watch(a, nm, event) =>
      && a in j.jobs
      && (event.TryUpdate? ==>
            Locks(j.db, a, nm) && MV.Issued(j.jobs[a].journal, event.claim) && event.u.outcome.None?)
    case Finish(a, nm, claim, u, _, clock) =>
      && a in j.jobs && MV.Issued(j.jobs[a].journal, claim) && EndsJob(j.jobs[a], claim, u, clock)
      && Locks(j.db, a, nm) && CanConcludeMedia(j.db, a, nm)
    case Elsewhere(tx) => (Bystander(tx) || tx.TxInsertPlan?) && FromEvidence(tx) && Can(j.db, tx, j.now)
    case Elapse(_) => true
  }

  /** A scheduled answer opens a visibility job in the same transaction. */
  function JobsAfter(jobs: map<int, MV.World>, a: int, tx: Tx, t: Timing): map<int, MV.World> {
    if tx.TxSchedule? then jobs[a := MV.World(MV.Scheduled(t.at, t.interval, t.timeout), [])] else jobs
  }

  ghost function Next(j: Joint, m: Move): Joint
    requires Enabled(j, m)
  {
    match m
    case Local(step) => j.(process := MD.Next(j.process, step))
    case Begin(a, nm, baseline) =>
      j.(process := Stepped(j.process, MD.BeginAttempt(a)), db := BeginMedia(j.db, a, baseline, j.now))
    case Skip(a, _) => j.(process := Stepped(j.process, MD.SkipWithoutAttempt(a)), db := SkipMediaAction(j.db, a))
    case Store(a, _, tx, timing) =>
      j.(process := Stepped(j.process, MD.StoreAnswer(a, true)), db := Do(j.db, tx, j.now),
         jobs := JobsAfter(j.jobs, a, tx, timing))
    case Bury(_, tx, timing) =>
      j.(process := Stepped(j.process, MD.BuryInterrupted(true)), db := Do(j.db, tx, j.now),
         jobs := JobsAfter(j.jobs, j.process.poller.a, tx, timing))
    case Watch(a, _, event) => j.(jobs := j.jobs[a := MV.Step(j.jobs[a], event)])
    case Finish(a, nm, claim, u, at, clock) =>
      j.(db := FinishMedia(j.db, a, u.outcome.value), jobs := j.jobs[a := MV.Step(j.jobs[a], MV.TryUpdate(claim, u, at, clock))])
    case Elsewhere(tx) =>
      var next := Do(j.db, tx, j.now);
      var step := if tx.TxInsertPlan? then MD.Plan(AddedMedia(tx.drafts)) else MD.EndElsewhere(EndedMedia(j.db, next));
      j.(process := Stepped(j.process, step), db := next)
    case Elapse(seconds) => j.(now := j.now + seconds)
  }

  /** The dispatcher's step; the journal's guard is stronger than the step's own. */
  ghost function Stepped(s: MD.Process, step: MD.Step): MD.Process {
    if MD.Enabled(s, step) then MD.Next(s, step) else s
  }

  // ---------------------------------------------------------------- the invariant

  /** The job is open while its action waits for visibility, and then carries the action's outcome. */
  ghost predicate JobOk(db: Tables, jobs: map<int, MV.World>, a: int)
    requires a in jobs
  {
    && MediaIn(db, a) && |db.actions[a].members| == 1 && MV.Fenced(jobs[a])
    && if jobs[a].job.finishedAt.None? then db.actions[a].state.Reconciling?
       else
         && db.actions[a].state.Terminal? && |jobs[a].journal| > 0
         && var last := jobs[a].journal[|jobs[a].journal| - 1];
            last.DidUpdate? && db.actions[a].members[0].outcome == last.u.outcome
  }

  ghost predicate JobsOk(db: Tables, jobs: map<int, MV.World>) {
    && (forall a :: a in jobs ==> JobOk(db, jobs, a))
    && (forall a :: MediaIn(db, a) && db.actions[a].state.Reconciling? ==> a in jobs && jobs[a].job.finishedAt.None?)
  }

  ghost predicate JointInv(j: Joint) {
    MD.Inv(j.process) && Inv(j.db) && Linked(j.process, j.db) && JobsOk(j.db, j.jobs)
  }

  /** Rows with a job are past the planned state, so bystanders leave them alone. */
  lemma JobsLeft(db: Tables, next: Tables, jobs: map<int, MV.World>)
    requires JobsOk(db, jobs) && MediaLeft(db, next)
    ensures JobsOk(next, jobs)
  {
    forall a | a in jobs ensures JobOk(next, jobs, a) {
      assert JobOk(db, jobs, a) && OnlyEnded(db.actions[a], next.actions[a]);
    }
    forall a | MediaIn(next, a) && next.actions[a].state.Reconciling? ensures a in jobs && jobs[a].job.finishedAt.None? {
      assert MediaIn(db, a) && OnlyEnded(db.actions[a], next.actions[a]);
    }
  }

  /** Row `a`, which has no job, changed and is not waiting for visibility. */
  lemma JobsBeside(db: Tables, next: Tables, jobs: map<int, MV.World>, a: int)
    requires JobsOk(db, jobs) && a in next.actions && a !in jobs && next.actions == db.actions[a := next.actions[a]]
    requires !next.actions[a].state.Reconciling?
    ensures JobsOk(next, jobs)
  {
    forall b | b in jobs ensures JobOk(next, jobs, b) { assert JobOk(db, jobs, b); }
  }

  lemma JobReplaced(db: Tables, next: Tables, jobs: map<int, MV.World>, a: int, w: MV.World)
    requires JobsOk(db, jobs) && a in next.actions && next.actions == db.actions[a := next.actions[a]]
    requires JobOk(next, jobs[a := w], a)
    ensures JobsOk(next, jobs[a := w])
  {
    forall b | b in jobs && b != a ensures JobOk(next, jobs[a := w], b) { assert JobOk(db, jobs, b); }
  }

  lemma NoJobYet(db: Tables, jobs: map<int, MV.World>, a: int)
    requires JobsOk(db, jobs) && MediaIn(db, a) && (db.actions[a].state.Planned? || db.actions[a].state.Dispatching?)
    ensures a !in jobs
  {
    assert a in jobs ==> JobOk(db, jobs, a);
  }

  // ---------------------------------------------------------------- every move

  lemma ElsewhereKeeps(j: Joint, tx: Tx)
    requires JointInv(j) && Enabled(j, Elsewhere(tx))
    ensures JointInv(Next(j, Elsewhere(tx)))
  {
    var next := Do(j.db, tx, j.now);
    CommitKeeps(j.db, tx, j.now);
    if tx.TxInsertPlan? {
      PlanLinks(j.process, j.db, tx.plan, tx.drafts, tx.identities, tx.preflight);
      MD.StepKeeps(j.process, MD.Plan(AddedMedia(tx.drafts)));
      InsertLeavesJobs(j.db, tx.plan, tx.drafts, tx.identities, tx.preflight, j.jobs);
    } else {
      BystanderLeavesMedia(j.db, tx, j.now);
      LeftLinks(j.process, j.db, next);
      MD.StepKeeps(j.process, MD.EndElsewhere(EndedMedia(j.db, next)));
      JobsLeft(j.db, next, j.jobs);
    }
  }

  lemma InsertLeavesJobs(db: Tables, p: int, drafts: map<int, Action>, identities: seq<IdentityDraft>, preflight: ResultClass,
                         jobs: map<int, MV.World>)
    requires JobsOk(db, jobs) && CanInsertPlan(db, p, drafts, identities)
    ensures JobsOk(InsertPlan(db, p, drafts, identities, preflight), jobs)
  {
    var next := InsertPlan(db, p, drafts, identities, preflight);
    forall a | a in jobs ensures JobOk(next, jobs, a) { assert JobOk(db, jobs, a); }
    forall a | MediaIn(next, a) && next.actions[a].state.Reconciling? ensures a in jobs && jobs[a].job.finishedAt.None? {
      assert a in drafts ==> DraftOk(drafts[a], p);
      assert MediaIn(db, a);
    }
  }

  lemma BeginKeeps(j: Joint, a: int, nm: int, baseline: Option<Stamp>)
    requires JointInv(j) && Enabled(j, Begin(a, nm, baseline))
    ensures JointInv(Next(j, Begin(a, nm, baseline)))
  {
    BeginMediaKeeps(j.db, a, nm, baseline, j.now);
    BeginLinks(j.process, j.db, a, nm, baseline, j.now);
    MD.StepKeeps(j.process, MD.BeginAttempt(a));
    NoJobYet(j.db, j.jobs, a);
    JobsBeside(j.db, BeginMedia(j.db, a, baseline, j.now), j.jobs, a);
  }

  lemma SkippedRow(db: Tables, a: int)
    requires CanSkipMedia(db, a)
    ensures var next := SkipMediaAction(db, a);
            a in next.actions && next.actions == db.actions[a := next.actions[a]] && next.actions[a].state.Terminal?
  {
  }

  lemma SkipKeeps(j: Joint, a: int, nm: int)
    requires JointInv(j) && Enabled(j, Skip(a, nm))
    ensures JointInv(Next(j, Skip(a, nm)))
  {
    SkipMediaKeeps(j.db, a);
    SkippedRow(j.db, a);
    SkipLinks(j.process, j.db, a);
    MD.StepKeeps(j.process, MD.SkipWithoutAttempt(a));
    NoJobYet(j.db, j.jobs, a);
    JobsBeside(j.db, SkipMediaAction(j.db, a), j.jobs, a);
  }

  lemma AnswerKeepsJobs(db: Tables, jobs: map<int, MV.World>, tx: Tx, now: int, a: int, nm: int, timing: Timing)
    requires Inv(db) && JobsOk(db, jobs) && Can(db, tx, now) && Answers(tx, a, nm) && Positive(timing)
    requires Inv(Do(db, tx, now))
    ensures JobsOk(Do(db, tx, now), JobsAfter(jobs, a, tx, timing))
  {
    var next := Do(db, tx, now);
    AnswerMoves(db, tx, now, a, nm);
    NoJobYet(db, jobs, a);
    if tx.TxSchedule? {
      var w := MV.World(MV.Scheduled(timing.at, timing.interval, timing.timeout), []);
      assert ActionOk(next.actions[a]);
      JobReplaced(db, next, jobs, a, w);
    } else {
      JobsBeside(db, next, jobs, a);
    }
  }

  lemma StoreKeeps(j: Joint, a: int, nm: int, tx: Tx, timing: Timing)
    requires JointInv(j) && Enabled(j, Store(a, nm, tx, timing))
    ensures JointInv(Next(j, Store(a, nm, tx, timing)))
  {
    CommitKeeps(j.db, tx, j.now);
    StoreLinks(j.process, j.db, tx, j.now, a, nm);
    MD.StepKeeps(j.process, MD.StoreAnswer(a, true));
    AnswerKeepsJobs(j.db, j.jobs, tx, j.now, a, nm, timing);
  }

  lemma BuryKeeps(j: Joint, nm: int, tx: Tx, timing: Timing)
    requires JointInv(j) && Enabled(j, Bury(nm, tx, timing))
    ensures JointInv(Next(j, Bury(nm, tx, timing)))
  {
    CommitKeeps(j.db, tx, j.now);
    BuryLinks(j.process, j.db, tx, j.now, nm);
    MD.StepKeeps(j.process, MD.BuryInterrupted(true));
    AnswerKeepsJobs(j.db, j.jobs, tx, j.now, j.process.poller.a, nm, timing);
  }

  lemma LocalKeeps(j: Joint, step: MD.Step)
    requires JointInv(j) && Enabled(j, Local(step))
    ensures JointInv(Next(j, Local(step)))
  {
    MD.StepKeeps(j.process, step);
  }

  lemma WatchedJob(db: Tables, jobs: map<int, MV.World>, a: int, event: MV.Event)
    requires JobsOk(db, jobs) && a in jobs
    requires event.TryUpdate? ==> MV.Issued(jobs[a].journal, event.claim) && event.u.outcome.None?
    ensures JobsOk(db, jobs[a := MV.Step(jobs[a], event)])
  {
    var w := MV.Step(jobs[a], event);
    assert JobOk(db, jobs, a);
    MV.StepFenced(jobs[a], event);
    assert db.actions == db.actions[a := db.actions[a]];
    JobReplaced(db, db, jobs, a, w);
  }

  lemma WatchKeeps(j: Joint, a: int, nm: int, event: MV.Event)
    requires JointInv(j) && Enabled(j, Watch(a, nm, event))
    ensures JointInv(Next(j, Watch(a, nm, event)))
  {
    WatchedJob(j.db, j.jobs, a, event);
  }

  /** Ending the action with a job's outcome rewrites its row only. */
  lemma FinishedRow(db: Tables, a: int, nm: int, o: Outcome)
    requires CanConcludeMedia(db, a, nm)
    ensures var next := FinishMedia(db, a, o);
            && a in next.actions && next.actions == db.actions[a := next.actions[a]] && MediaIn(next, a)
            && next.actions[a].state.Terminal? && next.actions[a].attempt == db.actions[a].attempt
            && |next.actions[a].members| == 1 && next.actions[a].members[0].outcome == Some(o)
  {
  }

  lemma FinishedJob(db: Tables, jobs: map<int, MV.World>, next: Tables, a: int, claim: MV.Claim, u: MV.Update, at: int, clock: int)
    requires JobsOk(db, jobs) && a in jobs && MV.Issued(jobs[a].journal, claim) && EndsJob(jobs[a], claim, u, clock)
    requires a in next.actions && next.actions == db.actions[a := next.actions[a]] && MediaIn(next, a)
    requires next.actions[a].state.Terminal? && |next.actions[a].members| == 1 && next.actions[a].members[0].outcome == u.outcome
    ensures JobsOk(next, jobs[a := MV.Step(jobs[a], MV.TryUpdate(claim, u, at, clock))])
  {
    var event := MV.TryUpdate(claim, u, at, clock);
    var w := MV.Step(jobs[a], event);
    assert JobOk(db, jobs, a);
    MV.StepFenced(jobs[a], event);
    assert w.journal[|w.journal| - 1] == MV.DidUpdate(claim, u, at, clock);
    JobReplaced(db, next, jobs, a, w);
  }

  lemma FinishKeeps(j: Joint, a: int, nm: int, claim: MV.Claim, u: MV.Update, at: int, clock: int)
    requires JointInv(j) && Enabled(j, Finish(a, nm, claim, u, at, clock))
    ensures JointInv(Next(j, Finish(a, nm, claim, u, at, clock)))
  {
    var next := FinishMedia(j.db, a, u.outcome.value);
    ConcludeMediaKeeps(j.db, a, nm, u.outcome.value);
    FinishedRow(j.db, a, nm, u.outcome.value);
    FinishedJob(j.db, j.jobs, next, a, claim, u, at, clock);
    FinishLinks(j.process, j.db, a, nm, u.outcome.value);
  }

  lemma FinishLinks(s: MD.Process, db: Tables, a: int, nm: int, o: Outcome)
    requires Linked(s, db) && CanConcludeMedia(db, a, nm)
    ensures Linked(s, FinishMedia(db, a, o))
  {
    FinishedRow(db, a, nm, o);
    MediaRowLinks(s, s, db, FinishMedia(db, a, o), a);
  }

  lemma WorkerMoveKeeps(j: Joint, m: Move)
    requires JointInv(j) && Enabled(j, m) && (m.Begin? || m.Skip? || m.Store? || m.Bury?)
    ensures JointInv(Next(j, m))
  {
    match m
    case Begin(a, nm, baseline) => BeginKeeps(j, a, nm, baseline);
    case Skip(a, nm) => SkipKeeps(j, a, nm);
    case Store(a, nm, tx, timing) => StoreKeeps(j, a, nm, tx, timing);
    case Bury(nm, tx, timing) => BuryKeeps(j, nm, tx, timing);
  }

  lemma MoveKeeps(j: Joint, m: Move)
    requires JointInv(j) && Enabled(j, m)
    ensures JointInv(Next(j, m))
  {
    if m.Begin? || m.Skip? || m.Store? || m.Bury? {
      WorkerMoveKeeps(j, m);
    } else if m.Local? {
      LocalKeeps(j, m.step);
    } else if m.Watch? {
      WatchKeeps(j, m.a, m.nm, m.event);
    } else if m.Finish? {
      FinishKeeps(j, m.a, m.nm, m.claim, m.u, m.at, m.clock);
    } else if m.Elsewhere? {
      ElsewhereKeeps(j, m.tx);
    }
  }

  ghost predicate Initial(j: Joint) {
    && j.process == MD.Process(map[], map[], {}, map[], MD.Idle, [], {}, j.process.concurrency)
    && j.db == Tables(map[], map[], map[], map[]) && j.jobs == map[]
  }

  ghost predicate IsRun(states: seq<Joint>, moves: seq<Move>) {
    && |states| == |moves| + 1 && Initial(states[0])
    && forall i :: 0 <= i < |moves| ==> Enabled(states[i], moves[i]) && states[i + 1] == Next(states[i], moves[i])
  }
  lemma {:induction false} EveryStateOk(states: seq<Joint>, moves: seq<Move>, n: nat)
    requires IsRun(states, moves) && n < |states|
    ensures JointInv(states[n])
  {
    if n > 0 {
      EveryStateOk(states, moves, n - 1);
      MoveKeeps(states[n - 1], moves[n - 1]);
    }
  }

  /**
   On the rows of the journal, in every run: a media action is called for at most once and only with its one attempt
   row in place; while a call is under way the row is dispatching and unanswered; no worker may still call for an
   action that was recorded as interrupted.
   */
  lemma MediaCallsOfEveryRun(states: seq<Joint>, moves: seq<Move>, n: nat, a: int)
    requires IsRun(states, moves) && n < |states|
    ensures var j := states[n];
            && (forall x, y :: 0 <= x < y < |j.process.calls| ==> j.process.calls[x] != j.process.calls[y])
            && (a in j.process.calls ==> MediaIn(j.db, a) && j.db.actions[a].attempt.Some?)
            && (a in j.process.workers && j.process.workers[a].Calling? ==> MediaIn(j.db, a) && InDispatch(j.db, a))
            && (a in j.process.buried ==> MediaIn(j.db, a) && !MD.MayStillCall(j.process, a))
  {
    EveryStateOk(states, moves, n);
    var j := states[n];
    if MediaIn(j.db, a) {
      assert MD.RowOk(j.process, a) && ActionOk(j.db.actions[a]);
    }
  }

  /**
   In every run a media action waits for visibility exactly while its job is open, and what the job ended with is the
   outcome the journal keeps: success only when media was seen, a timeout only at or after the deadline.
   */
  lemma MediaOutcomesOfEveryRun(states: seq<Joint>, moves: seq<Move>, n: nat, a: int)
    requires IsRun(states, moves) && n < |states| && MediaIn(states[n].db, a)
    ensures var j := states[n];
            && (j.db.actions[a].state.Reconciling? <==> a in j.jobs && j.jobs[a].job.finishedAt.None?)
            && (a in j.jobs && j.jobs[a].job.finishedAt.Some? ==> OutcomeWarranted(j.db.actions[a], j.jobs[a]))
  {
    EveryStateOk(states, moves, n);
    var j := states[n];
    if a in j.jobs {
      assert JobOk(j.db, j.jobs, a);
      if j.jobs[a].job.finishedAt.Some? {
        MV.FencedEntry(j.jobs[a], |j.jobs[a].journal| - 1);
      }
    }
  }

  /** The single member's outcome is that of the job's last update, which saw the media or came after the deadline. */
  ghost predicate OutcomeWarranted(act: Action, w: MV.World) {
    && |act.members| == 1 && act.state.Terminal? && w.journal != []
    && var last := w.journal[|w.journal| - 1];
       && last.DidUpdate? && last.u.outcome.Some? && act.members[0].outcome == last.u.outcome
       && if last.u.outcome.value.cls.Success? then last.u.visible else w.job.deadlineAt <= last.clock
  }
}
