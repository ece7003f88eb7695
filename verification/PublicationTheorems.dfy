/** What holds in every run of the product dispatcher, whatever crashes and whatever the marketplace answers. */
module PublicationTheorems {
  import opened Common
  import opened Publication
  import opened Tables
  import opened Transactions
  import opened Slots
  import opened Folds
  import opened Invariant
  import opened Journal
  import opened Soundness
  import opened Reconciliation
  import opened PublicationRun
  import Evidence
  import PlanClasses
  import Progress
  import Reducers
  import Releases
  import Submissions

  // ---------------------------------------------------------------- the remaining steps

  lemma FeedKeeps(s: System, id: int, batch: ErrorBatch)
    requires RunInv(s)
    ensures RunInv(s.(db := s.db.(batches := s.db.batches[id := batch])))
  {
    var db := s.db.(batches := s.db.batches[id := batch]);
    var t := s.(db := db);
    SlotsFrame(s.db, db);
    forall p | p in db.plans ensures PlanOk(db, p) {
      assert PlanOk(s.db, p);
      SameActions(s.db, db, p);
    }
    forall a | a in db.actions ensures Progress.Later(s.db.actions[a], db.actions[a]) { }
    AnswersFrame(s, t);
    CallsFrame(s, t);
  }

  lemma QuietTimeKeeps(s: System, now: int, workers: map<Errand, Worker>)
    requires RunInv(s) && s.now <= now
    requires forall e :: e in workers ==> e in s.workers && workers[e] == s.workers[e]
    ensures RunInv(s.(now := now, workers := workers))
  {
    forall a | a in s.db.actions ensures Progress.Later(s.db.actions[a], s.db.actions[a]) { }
    AnswersFrame(s, s.(now := now, workers := workers));
    CallsFrame(s, s.(now := now, workers := workers));
  }

  lemma RecordStepKeeps(s: System, e: Errand, stored: bool)
    requires RunInv(s) && Enabled(s, Record(e, stored))
    ensures RunInv(Next(s, Record(e, stored)))
  {
    if stored {
      RecordKeeps(s, e);
    } else {
      QuietTimeKeeps(s, s.now, s.workers - {e});
    }
  }

  lemma LostStepKeeps(s: System, e: Errand)
    requires RunInv(s) && Enabled(s, RecordLost(e))
    ensures RunInv(Next(s, RecordLost(e)))
  {
    StoreKeeps(s, e, LostAnswer(s.db.actions[e.action].members, e.kind), s.workers);
  }

  lemma OrderingStepKeeps(s: System, step: Step)
    requires RunInv(s) && Enabled(s, step) && (step.Dispatch? || step.Reconcile?)
    ensures RunInv(Next(s, step))
  {
    if step.Dispatch? {
      DispatchKeeps(s, step.a, step.baseline);
    } else {
      ReconcileKeeps(s, step.a, step.seen, step.matches, step.at, step.timeout);
    }
  }

  lemma SendStepKeeps(s: System, e: Errand, reply: Submissions.Reply)
    requires RunInv(s) && Enabled(s, Send(e, reply))
    ensures RunInv(Next(s, Send(e, reply)))
  {
    SendKeeps(s, e, reply);
  }

  lemma TimeStepKeeps(s: System, step: Step)
    requires RunInv(s) && Enabled(s, step) && (step.Crash? || step.Elapse?)
    ensures RunInv(Next(s, step))
  {
    var t := Next(s, step);
    assert t == s.(now := t.now, workers := t.workers);
    QuietTimeKeeps(s, t.now, t.workers);
  }

  lemma FeedStepKeeps(s: System, id: int, batch: ErrorBatch)
    requires RunInv(s) && Enabled(s, FeedErrors(id, batch))
    ensures RunInv(Next(s, FeedErrors(id, batch)))
  {
    FeedKeeps(s, id, batch);
  }

  /** Every step of the system keeps its invariant. */
  lemma StepKeeps(s: System, step: Step)
    requires RunInv(s) && Enabled(s, step)
    ensures RunInv(Next(s, step))
  {
    if step.Dispatch? || step.Reconcile? {
      OrderingStepKeeps(s, step);
    } else if step.Record? {
      RecordStepKeeps(s, step.errand, step.stored);
    } else if step.RecordLost? {
      LostStepKeeps(s, step.errand);
    } else if step.Elsewhere? {
      ElsewhereKeeps(s, step.tx);
    } else if step.Send? {
      SendStepKeeps(s, step.errand, step.reply);
    } else if step.FeedErrors? {
      FeedStepKeeps(s, step.id, step.batch);
    } else {
      TimeStepKeeps(s, step);
    }
  }

  // ---------------------------------------------------------------- runs

  ghost predicate IsRun(states: seq<System>, steps: seq<Step>) {
    && |states| == |steps| + 1 && Initial(states[0])
    && forall i :: 0 <= i < |steps| ==> Enabled(states[i], steps[i]) && states[i + 1] == Next(states[i], steps[i])
  }

  /** A run goes on with any step that is enabled. */
  lemma Extend(states: seq<System>, steps: seq<Step>, step: Step) returns (longer: seq<System>, more: seq<Step>)
    requires IsRun(states, steps) && Enabled(states[|steps|], step)
    ensures IsRun(longer, more) && |more| == |steps| + 1 && longer[|more|] == Next(states[|steps|], step)
    ensures more == steps + [step]
  {
    longer, more := states + [Next(states[|steps|], step)], steps + [step];
  }

  lemma {:induction false} EveryStateOk(states: seq<System>, steps: seq<Step>, n: nat)
    requires IsRun(states, steps) && n < |states|
    ensures RunInv(states[n])
  {
    if n > 0 {
      EveryStateOk(states, steps, n - 1);
      StepKeeps(states[n - 1], steps[n - 1]);
    }
  }

  /**
   In every run each action is sent to the marketplace at most once and retried at most once, each call
   follows the commit that ordered it, and a retry follows an unreadable HTTP 200 by ten minutes.
   */
  lemma CallsOfEveryRun(states: seq<System>, steps: seq<Step>, n: nat)
    requires IsRun(states, steps) && n < |states|
    ensures var s := states[n];
            && (forall i, j :: 0 <= i < j < |s.log| ==> s.log[i].errand != s.log[j].errand)
            && (forall i :: 0 <= i < |s.log| ==> Committed(s.db, s.log[i].errand, s.log[i].at))
            && (forall j :: 0 <= j < |s.log| && s.log[j].errand.kind.Again? ==>
                  UnreadableBefore(s.log, j, s.log[j].errand.action, s.log[j].at - RetryDelay))
  {
    EveryStateOk(states, steps, n);
  }

  lemma RunStepAdvances(states: seq<System>, steps: seq<Step>, n: nat)
    requires IsRun(states, steps) && n < |steps|
    ensures Progress.Advances(states[n].db, states[n + 1].db)
  {
    EveryStateOk(states, steps, n);
    StepAdvances(states[n], steps[n]);
  }

  ghost function Journals(states: seq<System>): (dbs: seq<Tables>)
    ensures |dbs| == |states| && forall i :: 0 <= i < |states| ==> dbs[i] == states[i].db
  {
    seq(|states|, i requires 0 <= i < |states| => states[i].db)
  }

  lemma {:induction false} ChainAdvances(dbs: seq<Tables>, m: nat, n: nat)
    requires m <= n < |dbs| && forall i :: 0 <= i < |dbs| - 1 ==> Progress.Advances(dbs[i], dbs[i + 1])
    ensures Progress.Advances(dbs[m], dbs[n])
    decreases n - m
  {
    if m < n {
      ChainAdvances(dbs, m, n - 1);
      Progress.AdvancesTransitive(dbs[m], dbs[n - 1], dbs[n]);
    } else {
      StaysAdvanced(dbs[m]);
    }
  }

  /** Between any two states of a run the journal only moves forward. */
  lemma EveryRunAdvances(states: seq<System>, steps: seq<Step>, m: nat, n: nat)
    requires IsRun(states, steps) && m <= n < |states|
    ensures Progress.Advances(states[m].db, states[n].db)
  {
    var dbs := Journals(states);
    forall i | 0 <= i < |dbs| - 1 ensures Progress.Advances(dbs[i], dbs[i + 1]) {
      RunStepAdvances(states, steps, i);
    }
    ChainAdvances(dbs, m, n);
  }

  lemma StaysAdvanced(db: Tables)
    ensures Progress.Advances(db, db)
  {
    forall a | a in db.actions ensures Progress.Later(db.actions[a], db.actions[a]) { }
  }

  lemma StoringAdvances(s: System, e: Errand, answer: Submission)
    requires RunInv(s) && Cautious(answer)
    ensures Progress.Advances(s.db, Commit(s.db, Storing(s.db, e, answer), s.now))
  {
    CommitGrows(s.db, Storing(s.db, e, answer), s.now);
  }

  lemma StepAdvances(s: System, step: Step)
    requires RunInv(s) && Enabled(s, step)
    ensures Progress.Advances(s.db, Next(s, step).db)
  {
    StaysAdvanced(s.db);
    match step
    case Dispatch(a, baseline) => CommitGrows(s.db, TxBeginAttempt(a, baseline), s.now);
    case Record(e, stored) =>
      ClassifiedCautious(s.db.actions[e.action].members, s.workers[e].reply);
      StoringAdvances(s, e, Submissions.Classify(s.db.actions[e.action].members, s.workers[e].reply));
    case RecordLost(e) => StoringAdvances(s, e, LostAnswer(s.db.actions[e.action].members, e.kind));
    case Reconcile(a, seen, matches, at, timeout) =>
      DecisionFromService(s.db, a, seen, matches, at, timeout);
      CommitGrows(s.db, Decide(a, s.db.actions[a], seen, matches, at, timeout), s.now);
    case Elsewhere(tx) => CommitGrows(s.db, tx, s.now);
    case FeedErrors(id, batch) =>
      forall a | a in s.db.actions ensures Progress.Later(s.db.actions[a], s.db.actions[a]) { }
    case _ =>
  }

  // ---------------------------------------------------------------- an identity is let go only on evidence

  /** The worker's answer is an error envelope that names every member of the action. */
  ghost predicate EnvelopeNamesAll(s: System, a: int) {
    && a in s.db.actions && Errand(a, Original) in s.workers
    && var worker := s.workers[Errand(a, Original)];
       && worker.Recording? && worker.reply.Envelope? && worker.reply.error
       && Submissions.NamesAll(s.db.actions[a].members, worker.reply.additional)
  }

  /** Exactly one card bears the vendor code, it is the one asked for, and nothing contradicts it. */
  predicate OneMatchingCard(act: Action, i: nat, seen: Observation, matches: seq<ErrorBatchMatch>)
    requires i < |act.members|
  {
    var vendor := act.members[i].vendor;
    var cards := Evidence.CardsFor(seen.normal, vendor);
    && |cards| == 1 && Evidence.Bound(act.kind, act.request, i, vendor, cards[0])
    && Evidence.TrashFor(seen.trash, vendor) == [] && Evidence.BatchesFor(matches, vendor) == []
  }

  /** Exactly one of the loaded Error List batches names the vendor code, it follows the baseline, and no card bears the code. */
  predicate OneErrorBatch(db: Tables, act: Action, i: nat, seen: Observation, matches: seq<ErrorBatchMatch>)
    requires i < |act.members|
  {
    var vendor := act.members[i].vendor;
    && |Evidence.BatchesFor(matches, vendor)| == 1
    && Correlated(db, act, Evidence.BatchesFor(matches, vendor)[0].id, vendor)
    && Evidence.CardsFor(seen.normal, vendor) == [] && Evidence.TrashFor(seen.trash, vendor) == []
  }

  predicate PolledProof(db: Tables, a: int, k: Key, seen: Observation, matches: seq<ErrorBatchMatch>, i: nat)
    requires a in db.actions
  {
    var act := db.actions[a];
    && i < |act.members| && KeyOf(act, i) == k && Pending(act.members[i])
    && (|| (act.retry.Some? && ProvedRejection(act.retry.value))
        || OneMatchingCard(act, i, seen, matches)
        || OneErrorBatch(db, act, i, seen, matches))
  }

  ghost predicate EvidenceFor(s: System, step: Step, a: int, k: Key)
    requires a in s.db.actions
  {
    match step
    case Record(e, _) => e == Errand(a, Original) && EnvelopeNamesAll(s, a)
    case Reconcile(b, seen, matches, _, _) => b == a && exists i :: PolledProof(s.db, a, k, seen, matches, i)
    case Elsewhere(TxResolve(b, i, _, ruling)) =>
      b == a && i < |s.db.actions[a].members| && KeyOf(s.db.actions[a], i) == k &&
      !ruling.CloseNoRetry? && RulingProved(s.db, a, i, ruling)
    case _ => false
  }

  lemma VerdictMeansEnvelope(members: seq<Member>, reply: Submissions.Reply, id: int)
    requires var s := Submissions.Classify(members, reply);
             VerdictOf(s.members, id).Some? && !VerdictOf(s.members, id).value.cls.InternalError?
    ensures reply.Envelope? && reply.error && Submissions.NamesAll(members, reply.additional)
  {
    VerdictFound(Submissions.Classify(members, reply).members, id);
  }

  lemma StoringReleases(s: System, e: Errand, answer: Submission, k: Key, a: int)
    requires RunInv(s) && Cautious(answer)
    requires k in s.db.identities && s.db.identities[k].active == Some(a) && a in s.db.actions && IsProduct(s.db.actions[a].kind)
    ensures var next := Commit(s.db, Storing(s.db, e, answer), s.now);
            && k in next.identities
            && (next.identities[k].active == Some(a) ||
                (answer.disposition.RejectedProven? && e == Errand(a, Original) &&
                 exists i :: Releases.RejectedByVerdict(s.db.actions[a], i, k, answer.members)))
  {
    CommitReleases(s.db, Storing(s.db, e, answer), s.now, k, a);
  }

  lemma ClassifiedReleases(s: System, e: Errand, reply: Submissions.Reply, k: Key, a: int)
    requires RunInv(s) && e.action in s.db.actions && e in s.workers && s.workers[e] == Recording(reply)
    requires k in s.db.identities && s.db.identities[k].active == Some(a) && a in s.db.actions && IsProduct(s.db.actions[a].kind)
    ensures var next := Commit(s.db, Storing(s.db, e, Submissions.Classify(s.db.actions[e.action].members, reply)), s.now);
            k in next.identities && (next.identities[k].active == Some(a) || (e == Errand(a, Original) && EnvelopeNamesAll(s, a)))
  {
    var members := s.db.actions[e.action].members;
    var answer := Submissions.Classify(members, reply);
    ClassifiedCautious(members, reply);
    StoringReleases(s, e, answer, k, a);
    if e == Errand(a, Original) && exists i: nat :: Releases.RejectedByVerdict(s.db.actions[a], i, k, answer.members) {
      var i: nat :| Releases.RejectedByVerdict(s.db.actions[a], i, k, answer.members);
      VerdictMeansEnvelope(members, reply, members[i].id);
    }
  }

  lemma RecordReleases(s: System, e: Errand, stored: bool, k: Key, a: int)
    requires RunInv(s) && Enabled(s, Record(e, stored))
    requires k in s.db.identities && s.db.identities[k].active == Some(a) && a in s.db.actions && IsProduct(s.db.actions[a].kind)
    ensures var t := Next(s, Record(e, stored));
            k in t.db.identities && (t.db.identities[k].active == Some(a) || (e == Errand(a, Original) && EnvelopeNamesAll(s, a)))
  {
    ClassifiedReleases(s, e, s.workers[e].reply, k, a);
  }

  lemma LostReleasesNothing(s: System, e: Errand, k: Key, a: int)
    requires RunInv(s) && Enabled(s, RecordLost(e))
    requires k in s.db.identities && s.db.identities[k].active == Some(a) && a in s.db.actions && IsProduct(s.db.actions[a].kind)
    ensures var t := Next(s, RecordLost(e)); k in t.db.identities && t.db.identities[k].active == Some(a)
  {
    StoringReleases(s, e, LostAnswer(s.db.actions[e.action].members, e.kind), k, a);
  }

  // What a decided member was decided on.

  lemma JudgedOnEvidence(db: Tables, act: Action, i: nat, seen: Observation, matches: seq<ErrorBatchMatch>, deadline: bool,
                         r: MemberResult)
    requires i < |act.members| && Evidence.Judge(SubjectOf(act), i, seen, matches, deadline) == Evidence.Decided(r)
    requires r.cls.Success? || (r.cls.Rejected? && (r.errorBatchId > 0 ==> Correlated(db, act, r.errorBatchId, act.members[i].vendor)))
    requires forall j :: 0 <= j < |matches| ==> matches[j].id > 0
    ensures Pending(act.members[i])
    ensures OneMatchingCard(act, i, seen, matches) || OneErrorBatch(db, act, i, seen, matches)
  {
    Evidence.BatchesName(matches, act.members[i].vendor);
  }

  /** A result that proves something about identity `k` was judged on evidence about that member. */
  lemma JudgedResultProof(db: Tables, a: int, k: Key, seen: Observation, matches: seq<ErrorBatchMatch>, deadline: bool,
                          r: MemberResult, h: nat)
    requires a in db.actions && ActionOk(db.actions[a]) && Listed(db, db.actions[a], matches)
    requires r in Evidence.NewResults(Evidence.Verdicts(SubjectOf(db.actions[a]), seen, matches, deadline))
    requires Releases.ProvedByResult(db, db.actions[a], h, k, r)
    ensures PolledProof(db, a, k, seen, matches, h)
  {
    var act := db.actions[a];
    var verdicts := Evidence.Verdicts(SubjectOf(act), seen, matches, deadline);
    Evidence.ResultsAreDecided(verdicts, r);
    var i :| 0 <= i < |verdicts| && verdicts[i] == Evidence.Decided(r);
    Evidence.RejectionIsListed(SubjectOf(act), i, seen, matches, deadline);
    SameMember(act.members, i, h);
    JudgedOnEvidence(db, act, i, seen, matches, deadline, r);
  }

  lemma SameMember(members: seq<Member>, i: nat, h: nat)
    requires Evidence.GoodIds(members) && i < |members| && h < |members| && members[i].id == members[h].id
    ensures i == h
  {
  }

  lemma JudgedProof(db: Tables, a: int, k: Key, seen: Observation, matches: seq<ErrorBatchMatch>, deadline: bool)
    requires a in db.actions && IsProduct(db.actions[a].kind) && ActionOk(db.actions[a]) && Listed(db, db.actions[a], matches)
    requires Releases.ProvedBySome(db, db.actions[a], k,
                                   Evidence.NewResults(Evidence.Verdicts(SubjectOf(db.actions[a]), seen, matches, deadline)))
    ensures exists i :: PolledProof(db, a, k, seen, matches, i)
  {
    var results := Evidence.NewResults(Evidence.Verdicts(SubjectOf(db.actions[a]), seen, matches, deadline));
    var h: nat, j :| 0 <= j < |results| && Releases.ProvedByResult(db, db.actions[a], h, k, results[j]);
    JudgedResultProof(db, a, k, seen, matches, deadline, results[j], h);
  }

  lemma RetryProof(db: Tables, a: int, k: Key, seen: Observation, matches: seq<ErrorBatchMatch>)
    requires a in db.actions && ActionOk(db.actions[a]) && db.actions[a].retry.Some? && ProvedRejection(db.actions[a].retry.value)
    requires Releases.ProvedBySome(db, db.actions[a], k, RetryResults(db.actions[a].members))
    ensures exists i :: PolledProof(db, a, k, seen, matches, i)
  {
    var act := db.actions[a];
    var results := RetryResults(act.members);
    var h: nat, j :| 0 <= j < |results| && Releases.ProvedByResult(db, act, h, k, results[j]);
    RetryResultsCover(act.members, |act.members|);
    assert act.members[..|act.members|] == act.members;
    assert Evidence.AwaitedId(act.members, results[j].memberId);
    var i :| 0 <= i < |act.members| && Pending(act.members[i]) && act.members[i].id == results[j].memberId;
    assert i == h;
    assert PolledProof(db, a, k, seen, matches, h);
  }

  lemma DecisionProof(db: Tables, a: int, seen: Observation, matches: seq<ErrorBatchMatch>, now: int, timeout: int, k: Key)
    requires a in db.actions && IsProduct(db.actions[a].kind) && ActionOk(db.actions[a]) && Listed(db, db.actions[a], matches)
    requires var tx := Decide(a, db.actions[a], seen, matches, now, timeout);
             (tx.TxPoll? || tx.TxConclude?) && Releases.ProvedBySome(db, db.actions[a], k, tx.results)
    ensures exists i :: PolledProof(db, a, k, seen, matches, i)
  {
    var act := db.actions[a];
    if act.retry.Some? && ProvedRejection(act.retry.value) {
      RetryProof(db, a, k, seen, matches);
    } else {
      JudgedProof(db, a, k, seen, matches, Evidence.DeadlineReached(StartedAt(act), now, timeout));
    }
  }

  lemma DecisionReleases(s: System, b: int, seen: Observation, matches: seq<ErrorBatchMatch>, at: int, timeout: int, k: Key, a: int)
    requires RunInv(s) && Reconcilable(s.db, b) && Listed(s.db, s.db.actions[b], matches)
    requires k in s.db.identities && s.db.identities[k].active == Some(a) && a in s.db.actions && IsProduct(s.db.actions[a].kind)
    ensures var next := Commit(s.db, Decide(b, s.db.actions[b], seen, matches, at, timeout), s.now);
            k in next.identities &&
            (next.identities[k].active == Some(a) || (b == a && exists i :: PolledProof(s.db, a, k, seen, matches, i)))
  {
    var tx := Decide(b, s.db.actions[b], seen, matches, at, timeout);
    CommitReleases(s.db, tx, s.now, k, a) by {
      DecisionFromService(s.db, b, seen, matches, at, timeout);
    }
    if Releases.Proof(s.db, tx, a, k) {
      assert ActionOk(s.db.actions[b]);
      assert tx.TxPoll? || tx.TxConclude?;
      DecisionProof(s.db, a, seen, matches, at, timeout, k);
    }
  }

  lemma CommitReleases(db: Tables, tx: Tx, now: int, k: Key, a: int)
    requires Inv(db) && FromEvidence(tx)
    requires k in db.identities && db.identities[k].active == Some(a) && a in db.actions && IsProduct(db.actions[a].kind)
    ensures k in Commit(db, tx, now).identities
    ensures Commit(db, tx, now).identities[k].active == Some(a) || Releases.Proof(db, tx, a, k)
  {
    if Can(db, tx, now) {
      Releases.ReleasedOnProof(db, tx, now, k, a);
    }
  }

  lemma ElsewhereReleases(s: System, step: Step, k: Key, a: int)
    requires RunInv(s) && Enabled(s, step) && (step.Elsewhere? || step.Dispatch?)
    requires k in s.db.identities && s.db.identities[k].active == Some(a) && a in s.db.actions && IsProduct(s.db.actions[a].kind)
    ensures k in Next(s, step).db.identities
    ensures Next(s, step).db.identities[k].active == Some(a) || EvidenceFor(s, step, a, k)
  {
    CommitReleases(s.db, if step.Elsewhere? then step.tx else TxBeginAttempt(step.a, step.baseline), s.now, k, a);
  }

  lemma ReconcileReleases(s: System, step: Step, k: Key, a: int)
    requires RunInv(s) && Enabled(s, step) && step.Reconcile?
    requires k in s.db.identities && s.db.identities[k].active == Some(a) && a in s.db.actions && IsProduct(s.db.actions[a].kind)
    ensures k in Next(s, step).db.identities
    ensures Next(s, step).db.identities[k].active == Some(a) || EvidenceFor(s, step, a, k)
  {
    DecisionReleases(s, step.a, step.seen, step.matches, step.at, step.timeout, k, a);
  }

  /**
   No step takes an identity from a product action unless it brings the evidence: unknown, interrupted
   and never-sent calls release nothing.
   */
  lemma StepReleasesOnEvidence(s: System, step: Step, k: Key, a: int)
    requires RunInv(s) && Enabled(s, step)
    requires k in s.db.identities && s.db.identities[k].active == Some(a) && a in s.db.actions && IsProduct(s.db.actions[a].kind)
    ensures k in Next(s, step).db.identities
    ensures Next(s, step).db.identities[k].active == Some(a) || EvidenceFor(s, step, a, k)
  {
    match step
    case Dispatch(_, _) => ElsewhereReleases(s, step, k, a);
    case Record(e, stored) => RecordReleases(s, e, stored, k, a);
    case RecordLost(e) => LostReleasesNothing(s, e, k, a);
    case Reconcile(_, _, _, _, _) => ReconcileReleases(s, step, k, a);
    case Elsewhere(_) => ElsewhereReleases(s, step, k, a);
    case _ =>
  }

  // ---------------------------------------------------------------- classes and orphans over whole runs

  /** In every run the class of a finished product action is the fold of its members, by either reducer. */
  lemma ClassesOfEveryRun(states: seq<System>, steps: seq<Step>, n: nat, a: int)
    requires IsRun(states, steps) && n < |states| && a in states[n].db.actions
    requires var act := states[n].db.actions[a]; IsProduct(act.kind) && act.state.Terminal? && act.attempt.Some?
    ensures var act := states[n].db.actions[a];
            && AllSettled(act) && act.outcome.Some?
            && Coarse(act.outcome.value) == Evidence.ActionClass(ClassesOf(act.members))
            && Coarse(act.outcome.value) == Reducers.ResolvedActionClass(Reducers.TallyOf(ClassesOf(act.members)))
  {
    EveryStateOk(states, steps, n);
    var act := states[n].db.actions[a];
    assert ActionOk(act) && Sound(act);
    StoredClassIsResolved(act);
  }

  /** The transaction a step tries to commit, if it touches the journal. */
  ghost function TxOf(s: System, step: Step): Option<Tx>
    requires Enabled(s, step)
  {
    match step
    case Dispatch(a, baseline) => Some(TxBeginAttempt(a, baseline))
    case Record(e, stored) =>
      if stored then Some(Storing(s.db, e, Submissions.Classify(s.db.actions[e.action].members, s.workers[e].reply))) else None
    case RecordLost(e) => Some(Storing(s.db, e, LostAnswer(s.db.actions[e.action].members, e.kind)))
    case Reconcile(a, seen, matches, at, timeout) => Some(Decide(a, s.db.actions[a], seen, matches, at, timeout))
    case Elsewhere(tx) => Some(tx)
    case _ => None
  }

  lemma StepTxFromEvidence(s: System, step: Step)
    requires RunInv(s) && Enabled(s, step) && TxOf(s, step).Some?
    ensures FromEvidence(TxOf(s, step).value)
  {
    if step.Reconcile? {
      DecisionFromService(s.db, step.a, step.seen, step.matches, step.at, step.timeout);
    }
  }

  lemma StepIsCommit(s: System, step: Step)
    requires Enabled(s, step)
    ensures var tx := TxOf(s, step);
            if tx.Some? then Next(s, step).db == Commit(s.db, tx.value, s.now)
            else Next(s, step).db == s.db.(batches := Next(s, step).db.batches)
  {
  }

  lemma StepLeavesOrphan(s: System, step: Step, k: Key)
    requires RunInv(s) && Enabled(s, step) && Releases.Orphaned(s.db, k)
    ensures k in Next(s, step).db.identities && Next(s, step).db.identities[k] == s.db.identities[k]
  {
    StepIsCommit(s, step);
    var tx := TxOf(s, step);
    if tx.Some? && Can(s.db, tx.value, s.now) {
      StepTxFromEvidence(s, step);
      Releases.OrphanStays(s.db, tx.value, s.now, k);
    }
  }

  ghost predicate KeptIfOrphaned(x: Tables, y: Tables, k: Key) {
    Releases.Orphaned(x, k) ==> k in y.identities && y.identities[k] == x.identities[k]
  }

  lemma RunStepLeavesOrphan(states: seq<System>, steps: seq<Step>, n: nat, k: Key)
    requires IsRun(states, steps) && n < |steps|
    ensures KeptIfOrphaned(states[n].db, states[n + 1].db, k)
  {
    EveryStateOk(states, steps, n);
    if Releases.Orphaned(states[n].db, k) {
      StepLeavesOrphan(states[n], steps[n], k);
    }
  }

  lemma {:induction false} ChainKeepsOrphan(dbs: seq<Tables>, m: nat, n: nat, k: Key)
    requires m <= n < |dbs| && Releases.Orphaned(dbs[m], k)
    requires forall i :: 0 <= i < |dbs| - 1 ==> KeptIfOrphaned(dbs[i], dbs[i + 1], k)
    ensures k in dbs[n].identities && dbs[n].identities[k] == dbs[m].identities[k]
    decreases n - m
  {
    if m < n {
      ChainKeepsOrphan(dbs, m, n - 1, k);
      assert KeptIfOrphaned(dbs[n - 1], dbs[n - 1 + 1], k);
    }
  }

  /** An identity orphaned by an aborted plan stays locked for the rest of every run. */
  lemma OrphanedForever(states: seq<System>, steps: seq<Step>, m: nat, n: nat, k: Key)
    requires IsRun(states, steps) && m <= n < |states| && Releases.Orphaned(states[m].db, k)
    ensures k in states[n].db.identities && states[n].db.identities[k] == states[m].db.identities[k]
  {
    var dbs := Journals(states);
    forall i | 0 <= i < |dbs| - 1 ensures KeptIfOrphaned(dbs[i], dbs[i + 1], k) {
      RunStepLeavesOrphan(states, steps, i, k);
    }
    ChainKeepsOrphan(dbs, m, n, k);
  }

  /** The plan that a committed resolution of this step belongs to. */
  ghost function NewlyResolved(s: System, step: Step): set<int> {
    if step.Elsewhere? && step.tx.TxResolve? && Can(s.db, step.tx, s.now) then {s.db.actions[step.tx.a].plan} else {}
  }

  /** The plans resolved in the first `n` steps. */
  ghost function ResolvedPlans(states: seq<System>, steps: seq<Step>, n: nat): set<int>
    requires n <= |steps| < |states|
  {
    if n == 0 then {} else ResolvedPlans(states, steps, n - 1) + NewlyResolved(states[n - 1], steps[n - 1])
  }

  lemma ResolvedByStep(s: System, step: Step, resolved: set<int>)
    requires Enabled(s, step) && TxOf(s, step).Some? && Can(s.db, TxOf(s, step).value, s.now)
    ensures PlanClasses.ResolvedAfter(s.db, TxOf(s, step).value, resolved) == resolved + NewlyResolved(s, step)
  {
  }

  lemma StepKeepsPlanClasses(s: System, step: Step, resolved: set<int>)
    requires RunInv(s) && Enabled(s, step) && PlanClasses.PlanClassesOk(s.db, resolved)
    ensures PlanClasses.PlanClassesOk(Next(s, step).db, resolved + NewlyResolved(s, step))
  {
    StepIsCommit(s, step);
    var tx := TxOf(s, step);
    if tx.Some? && Can(s.db, tx.value, s.now) {
      StepTxFromEvidence(s, step);
      PlanClasses.CommitKeepsPlanClasses(s.db, tx.value, s.now, resolved);
      ResolvedByStep(s, step, resolved);
    } else {
      QuietStepResolvesNothing(s, step, resolved);
    }
  }

  lemma QuietStepResolvesNothing(s: System, step: Step, resolved: set<int>)
    requires Enabled(s, step) && !(TxOf(s, step).Some? && Can(s.db, TxOf(s, step).value, s.now))
    requires PlanClasses.PlanClassesOk(s.db, resolved)
    ensures PlanClasses.PlanClassesOk(Next(s, step).db, resolved + NewlyResolved(s, step))
  {
    StepIsCommit(s, step);
    assert resolved + NewlyResolved(s, step) == resolved;
    if TxOf(s, step).None? {
      BatchesLeaveClasses(s.db, Next(s, step).db, resolved);
    }
  }

  lemma BatchesLeaveClasses(db: Tables, next: Tables, resolved: set<int>)
    requires PlanClasses.PlanClassesOk(db, resolved) && next == db.(batches := next.batches)
    ensures PlanClasses.PlanClassesOk(next, resolved)
  {
    forall p | p in next.plans ensures PlanClasses.PlanClassOk(next, p, resolved) {
      assert PlanClasses.PlanClassOk(db, p, resolved);
      PlanClasses.SameTally(db, next, p);
    }
  }

  lemma RunStepKeepsPlanClasses(states: seq<System>, steps: seq<Step>, n: nat, resolved: set<int>)
    requires IsRun(states, steps) && n < |steps| && PlanClasses.PlanClassesOk(states[n].db, resolved)
    ensures PlanClasses.PlanClassesOk(states[n + 1].db, resolved + NewlyResolved(states[n], steps[n]))
  {
    EveryStateOk(states, steps, n);
    StepKeepsPlanClasses(states[n], steps[n], resolved);
  }

  /**
   In every run the class of a finished plan is what the classes of its actions reduce to now: by the dispatch rule
   until one of its members is resolved, by the resolution rule from then on.
   */
  lemma {:induction false} PlanClassesOfEveryRun(states: seq<System>, steps: seq<Step>, n: nat)
    requires IsRun(states, steps) && n < |states|
    ensures PlanClasses.PlanClassesOk(states[n].db, ResolvedPlans(states, steps, n))
  {
    if n > 0 {
      PlanClassesOfEveryRun(states, steps, n - 1);
      RunStepKeepsPlanClasses(states, steps, n - 1, ResolvedPlans(states, steps, n - 1));
    }
  }
}
