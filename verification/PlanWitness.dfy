/** A run whose plan ends as a success by the dispatch rule, although the resolution rule would call it partial. */
module PlanWitness {
  import opened Common
  import opened Publication
  import opened Tables
  import opened Transactions
  import opened Slots
  import opened Folds
  import opened Invariant
  import opened Preservation
  import opened Journal
  import opened Reconciliation
  import opened PublicationRun
  import opened PublicationTheorems
  import Evidence
  import PlanClasses
  import Reducers

  // ---------------------------------------------------------------- the plan

  const KeyA := Key([], ['a'])
  const KeyB := Key([], ['b'])
  const KeyC := Key([], ['c'])

  function Product(request: Request, members: seq<Member>): Action {
    Action(1, [], AddToGroup, request, members, Planned, 0, None, None, None)
  }

  function Waiting(id: int, vendor: string): Member { Member(id, 1, id, vendor, None, false) }

  /** One product that will be rejected. */
  function One(): Action { Product(AddRequest(1, [['a']]), [Waiting(1, ['a'])]) }

  /** Two products, of which one will be found and one will be rejected. */
  function Two(): Action { Product(AddRequest(1, [['b'], ['c']]), [Waiting(2, ['b']), Waiting(3, ['c'])]) }

  function Missing(k: Key): IdentityDraft { IdentityDraft(k, RemoteMissing, 0, 0, 0) }

  function Drafts(): seq<IdentityDraft> { [Missing(KeyA), Missing(KeyB), Missing(KeyC)] }

  const Vacant := Identity(RemoteMissing, 0, 0, 0, None)

  function Inserted(): Tables {
    Tables(map[1 := Plan(Awaiting, None)], map[1 := One(), 2 := Two()],
           map[KeyA := Vacant, KeyB := Vacant, KeyC := Vacant], map[])
  }

  lemma InsertBoth()
    ensures var empty := Tables(map[], map[], map[], map[]);
            && CanInsertPlan(empty, 1, map[1 := One(), 2 := Two()], Drafts())
            && InsertPlan(empty, 1, map[1 := One(), 2 := Two()], Drafts(), Success) == Inserted()
  {
    var drafts := Drafts();
    assert drafts[..2] == [Missing(KeyA), Missing(KeyB)] && drafts[..2][..1] == [Missing(KeyA)] && drafts[..2][..1][..0] == [];
    assert Upsert(map[], [Missing(KeyA)]) == map[KeyA := Vacant];
    assert Upsert(map[], drafts[..2]) == map[KeyA := Vacant, KeyB := Vacant];
    assert Upsert(map[], drafts) == map[KeyA := Vacant, KeyB := Vacant, KeyC := Vacant];
  }

  // ---------------------------------------------------------------- both attempts

  function Begun(act: Action): Action { act.(state := Dispatching, revision := 1, attempt := Some(Attempt(0, None, None))) }

  lemma BeginOne()
    ensures var db := Inserted();
            && CanBeginAttempt(db, 1) && var next := BeginAttempt(db, 1, None, 0);
            && next.actions == map[1 := Begun(One()), 2 := Two()] && next.batches == map[] && PlanOpen(next, 1)
            && next.identities.Keys == {KeyA, KeyB, KeyC} && next.identities[KeyB] == Vacant && next.identities[KeyC] == Vacant
  {
    var db := Inserted();
    assert Keys(db.actions[1]) == [KeyA];
    assert BoundRows(db.identities, [KeyA]) == {KeyA};
  }

  lemma BeginTwo(db: Tables)
    requires db.actions == map[1 := Begun(One()), 2 := Two()] && PlanOpen(db, 1)
    requires db.identities.Keys == {KeyA, KeyB, KeyC} && db.identities[KeyB] == Vacant && db.identities[KeyC] == Vacant
    ensures CanBeginAttempt(db, 2)
    ensures BeginAttempt(db, 2, None, 0).actions == map[1 := Begun(One()), 2 := Begun(Two())]
  {
    assert Keys(db.actions[2]) == [KeyB, KeyC];
    assert BoundRows(db.identities, [KeyB, KeyC]) == {KeyB, KeyC};
  }

  predicate NoResolution(steps: seq<Step>) {
    forall i :: 0 <= i < |steps| ==> !(steps[i].Elsewhere? && steps[i].tx.TxResolve?)
  }

  lemma {:induction false} NothingResolved(states: seq<System>, steps: seq<Step>, n: nat)
    requires NoResolution(steps) && n <= |steps| < |states|
    ensures PublicationTheorems.ResolvedPlans(states, steps, n) == {}
  {
    if n > 0 {
      NothingResolved(states, steps, n - 1);
    }
  }

  lemma Go(states: seq<System>, steps: seq<Step>, step: Step) returns (longer: seq<System>, more: seq<Step>)
    requires IsRun(states, steps) && Enabled(states[|steps|], step) && NoResolution(steps) && !step.Elsewhere?
    ensures IsRun(longer, more) && NoResolution(more) && |more| == |steps| + 1 && longer[|more|] == Next(states[|steps|], step)
  {
    longer, more := Extend(states, steps, step);
  }

  lemma PlanInserted() returns (states: seq<System>, steps: seq<Step>)
    ensures IsRun(states, steps) && NoResolution(steps) && |steps| == 1 && states[1].now == 0 && states[1].db == Inserted()
  {
    InsertBoth();
    var start := System(Tables(map[], map[], map[], map[]), 0, map[], []);
    states, steps := Extend([start], [], Elsewhere(TxInsertPlan(1, map[1 := One(), 2 := Two()], Drafts(), Success)));
  }

  lemma DispatchStep(s: System, a: int)
    requires s.now == 0 && CanBeginAttempt(s.db, a)
    ensures var step := Dispatch(a, None);
            Enabled(s, step) && Next(s, step).now == 0 && Next(s, step).db == BeginAttempt(s.db, a, None, 0)
  {
  }

  lemma Dispatched() returns (states: seq<System>, steps: seq<Step>)
    ensures IsRun(states, steps) && NoResolution(steps) && |steps| == 3 && states[3].now == 0 && states[3].db.batches == map[]
    ensures states[3].db.actions == map[1 := Begun(One()), 2 := Begun(Two())]
  {
    states, steps := PlanInserted();
    BeginOne();
    DispatchStep(states[1], 1);
    states, steps := Go(states, steps, Dispatch(1, None));
    BeginTwo(states[2].db);
    DispatchStep(states[2], 2);
    states, steps := Go(states, steps, Dispatch(2, None));
  }

  // ---------------------------------------------------------------- both answers are lost, and the Error List names two codes

  function Lost(act: Action): Action {
    Begun(act).(state := Reconciling, revision := 2,
                attempt := Some(Attempt(0, None, Some(Answer(LostAnswer(act.members, Original), 0)))))
  }

  lemma LoseAnswer(s: System, a: int, act: Action)
    requires s.now == 0 && a in s.db.actions && s.db.actions[a] == Begun(act) && IsProduct(act.kind) && act.members != []
    ensures var t := Next(s, RecordLost(Errand(a, Original)));
            t.now == 0 && t.db.batches == s.db.batches && t.db.actions == s.db.actions[a := Lost(act)]
  {
    var answer := LostAnswer(act.members, Original);
    assert CanAwaitEvidence(s.db, a, answer);
    assert Storing(s.db, Errand(a, Original), answer) == TxAwait(a, answer);
  }

  function Batch(): ErrorBatch { ErrorBatch([], Stamp(0, 0), [['a'], ['c']]) }

  lemma BothLost() returns (states: seq<System>, steps: seq<Step>)
    ensures IsRun(states, steps) && NoResolution(steps) && |steps| == 6 && states[6].now == 0 && states[6].db.batches == map[1 := Batch()]
    ensures states[6].db.actions == map[1 := Lost(One()), 2 := Lost(Two())]
  {
    states, steps := Dispatched();
    LoseAnswer(states[3], 1, One());
    states, steps := Go(states, steps, RecordLost(Errand(1, Original)));
    LoseAnswer(states[4], 2, Two());
    states, steps := Go(states, steps, RecordLost(Errand(2, Original)));
    states, steps := Go(states, steps, FeedErrors(1, Batch()));
  }

  // ---------------------------------------------------------------- both reconciliations

  function Matches(): seq<ErrorBatchMatch> { [ErrorBatchMatch(1, [['a'], ['c']])] }

  lemma Named(v: string)
    ensures Evidence.BatchesFor(Matches(), v) ==
            (if v == ['a'] then [Matches()[0]] else []) + (if v == ['c'] then [Matches()[0]] else [])
  {
    var named, only := Matches()[0].rejected, Matches()[0];
    assert named[..1][..0] == [] && named[..1] == [['a']] && Matches()[..0] == [];
    assert Evidence.Namings(only, named[..1][..0], v) == [];
    assert Evidence.Namings(only, named[..1], v) == if v == ['a'] then [only] else [];
  }

  lemma BatchesFound()
    ensures |Evidence.BatchesFor(Matches(), ['a'])| == 1 && |Evidence.BatchesFor(Matches(), ['b'])| == 0
    ensures |Evidence.BatchesFor(Matches(), ['c'])| == 1
  {
    Named(['a']);
    Named(['b']);
    Named(['c']);
  }

  /** Reconciling the action on what was seen and on the one batch ends it with the class. */
  ghost predicate Concluding(act: Action, a: int, seen: Observation, results: seq<MemberResult>, cls: ResultClass) {
    && IsProduct(act.kind) && act.plan == 1 && act.seller == [] && act.state.Reconciling? && act.retry.None?
    && act.attempt.Some? && act.attempt.value.baseline.None?
    && Decide(a, act, seen, Matches(), 0, 1) == TxConclude(a, results, cls)
  }

  /** The members are all decided, and their classes fold to `cls`. */
  ghost predicate FoldsTo(verdicts: seq<Evidence.Verdict>, cls: ResultClass) {
    Evidence.AllKnown(verdicts) && Evidence.ActionClass(Evidence.Classes(verdicts)) == cls
  }

  lemma ConcludingIf(act: Action, a: int, seen: Observation, cls: ResultClass) returns (results: seq<MemberResult>)
    requires IsProduct(act.kind) && act.plan == 1 && act.seller == [] && act.state.Reconciling? && act.retry.None?
    requires act.attempt.Some? && act.attempt.value.baseline.None? && !ShouldRetry(act, seen, Matches(), 0)
    requires FoldsTo(Judgement(act, seen, Matches(), 0, 1), cls)
    ensures Concluding(act, a, seen, results, cls)
  {
    results := Evidence.NewResults(Judgement(act, seen, Matches(), 0, 1));
  }

  lemma OneFolds()
    ensures FoldsTo(Judgement(Lost(One()), Observation([], []), Matches(), 0, 1), Rejected)
  {
    BatchesFound();
    var verdicts := Judgement(Lost(One()), Observation([], []), Matches(), 0, 1);
    assert verdicts[0].Decided? && verdicts[0].result.cls == Rejected;
    assert Evidence.Classes(verdicts) == [Rejected];
  }

  lemma OneIsRejected() returns (results: seq<MemberResult>)
    ensures Concluding(Lost(One()), 1, Observation([], []), results, Rejected)
  {
    OneFolds();
    results := ConcludingIf(Lost(One()), 1, Observation([], []), Rejected);
  }

  const Found := Card(1, 1, 1, ['b'])

  lemma CardsFound()
    ensures Evidence.CardsFor([Found], ['b']) == [Found] && Evidence.CardsFor([Found], ['c']) == []
  {
    assert [Found][..0] == [];
  }

  lemma TwoVerdicts()
    ensures var verdicts := Judgement(Lost(Two()), Observation([Found], []), Matches(), 0, 1);
            |verdicts| == 2 && verdicts[0].Decided? && verdicts[0].result.cls == Success && verdicts[1].Decided? && verdicts[1].result.cls == Rejected
  {
    BatchesFound();
    CardsFound();
  }

  lemma OneOfEachIsPartial(classes: seq<ResultClass>)
    requires classes == [Success, Rejected]
    ensures Evidence.ActionClass(classes) == Partial
  {
    assert Evidence.Accepts(classes[0]) && classes[1].Rejected?;
  }

  lemma TwoFolds()
    ensures FoldsTo(Judgement(Lost(Two()), Observation([Found], []), Matches(), 0, 1), Partial)
  {
    TwoVerdicts();
    var verdicts := Judgement(Lost(Two()), Observation([Found], []), Matches(), 0, 1);
    TwoClasses(verdicts);
  }

  lemma TwoClasses(verdicts: seq<Evidence.Verdict>)
    requires |verdicts| == 2 && verdicts[0].Decided? && verdicts[0].result.cls == Success
    requires verdicts[1].Decided? && verdicts[1].result.cls == Rejected
    ensures FoldsTo(verdicts, Partial)
  {
    OneOfEachIsPartial(Evidence.Classes(verdicts));
  }

  lemma TwoIsPartial() returns (results: seq<MemberResult>)
    ensures Concluding(Lost(Two()), 2, Observation([Found], []), results, Partial)
  {
    TwoFolds();
    results := ConcludingIf(Lost(Two()), 2, Observation([Found], []), Partial);
  }

  predicate EndedAs(x: Action, y: Action, cls: ResultClass) {
    y.state.Terminal? && y.outcome == Some(cls) && y.plan == x.plan && y.kind == x.kind && y.attempt == x.attempt
  }

  lemma ConcludedRows(db: Tables, a: int, results: seq<MemberResult>, cls: ResultClass, b: int)
    requires Inv(db) && CanConclude(db, a, results) && forall i :: 0 <= i < |results| ==> Evidential(results[i])
    requires b in db.actions && b != a && IsProduct(db.actions[b].kind)
    ensures var next := Conclude(db, a, results, cls);
            && next.actions.Keys == db.actions.Keys && next.batches == db.batches && next.actions[b] == db.actions[b]
            && EndedAs(db.actions[a], next.actions[a], cls)
  {
    PollSettles(db, a, results);
  }

  lemma ConcludeStep(s: System, a: int, seen: Observation, results: seq<MemberResult>, cls: ResultClass, b: int)
    requires RunInv(s) && s.now == 0 && s.db.batches == map[1 := Batch()] && a in s.db.actions
    requires Concluding(s.db.actions[a], a, seen, results, cls)
    requires b in s.db.actions && b != a && IsProduct(s.db.actions[b].kind)
    ensures var step := Reconcile(a, seen, Matches(), 0, 1);
            && Enabled(s, step) && var t := Next(s, step);
            && t.now == 0 && t.db.actions.Keys == s.db.actions.Keys && t.db.batches == s.db.batches
            && t.db.actions[b] == s.db.actions[b] && EndedAs(s.db.actions[a], t.db.actions[a], cls)
  {
    var only := Matches()[0];
    assert ListedBatch(s.db, s.db.actions[a], only);
    assert Listed(s.db, s.db.actions[a], Matches());
    DecisionCommits(s.db, a, seen, Matches(), 0, 1, 0);
    DecisionFromService(s.db, a, seen, Matches(), 0, 1);
    ConcludedRows(s.db, a, results, cls, b);
  }

  /** The second action waits for its reconciliation, at the end of a run without a resolution. */
  ghost predicate SecondPending(s: System, results: seq<MemberResult>) {
    && s.now == 0 && s.db.batches == map[1 := Batch()] && s.db.actions.Keys == {1, 2}
    && Concluding(s.db.actions[2], 2, Observation([Found], []), results, Partial)
  }

  lemma BothPending() returns (states: seq<System>, steps: seq<Step>, first: seq<MemberResult>, second: seq<MemberResult>)
    ensures IsRun(states, steps) && NoResolution(steps) && |steps| == 6 && SecondPending(states[6], second)
    ensures Concluding(states[6].db.actions[1], 1, Observation([], []), first, Rejected)
  {
    states, steps := BothLost();
    first := OneIsRejected();
    second := TwoIsPartial();
  }

  lemma FirstReconciled() returns (states: seq<System>, steps: seq<Step>, second: seq<MemberResult>)
    ensures IsRun(states, steps) && NoResolution(steps) && |steps| == 7 && SecondPending(states[7], second)
    ensures var one := states[7].db.actions[1];
            one.state.Terminal? && one.outcome == Some(Rejected) && IsProduct(one.kind) && one.plan == 1 && one.attempt.Some?
  {
    var first: seq<MemberResult>;
    states, steps, first, second := BothPending();
    EveryStateOk(states, steps, 6);
    ConcludeStep(states[6], 1, Observation([], []), first, Rejected, 2);
    states, steps := Go(states, steps, Reconcile(1, Observation([], []), Matches(), 0, 1));
  }

  /** Both actions of the plan have ended, one rejected and one partial. */
  predicate BothEnded(db: Tables) {
    && db.actions.Keys == {1, 2} && db.actions[1].plan == 1 && db.actions[2].plan == 1 && db.actions[1].attempt.Some?
    && db.actions[1].state.Terminal? && db.actions[2].state.Terminal?
    && db.actions[1].outcome == Some(Rejected) && db.actions[2].outcome == Some(Partial)
  }

  lemma BothReconciled() returns (states: seq<System>, steps: seq<Step>)
    ensures IsRun(states, steps) && NoResolution(steps) && |steps| == 8 && BothEnded(states[8].db)
  {
    var second: seq<MemberResult>;
    states, steps, second := FirstReconciled();
    EveryStateOk(states, steps, 7);
    ConcludeStep(states[7], 2, Observation([Found], []), second, Partial, 1);
    states, steps := Go(states, steps, Reconcile(2, Observation([Found], []), Matches(), 0, 1));
  }

  // ---------------------------------------------------------------- the two rules on the finished plan

  lemma RulesDiffer(db: Tables)
    requires BothEnded(db)
    ensures Reducers.DispatchedPlanClass(PlanTally(db, 1)) == Success && Reducers.ResolvedPlanClass(PlanTally(db, 1)) == Partial
  {
    assert ActionsOf(db, 1) == {1, 2};
    assert WithClass(db, 1, Rejected) == {1} && WithClass(db, 1, Partial) == {2};
    assert WithClass(db, 1, Unresolved) == {} && WithClass(db, 1, InternalError) == {};
    assert WithClass(db, 1, Success) == {} && WithClass(db, 1, Skipped) == {};
  }

  lemma BothEndedFinishes(db: Tables)
    requires Inv(db) && BothEnded(db)
    ensures 1 in db.plans && db.plans[1].state.PlanTerminal? && ActionsOf(db, 1) != {}
  {
    assert InPlan(db, 1, 1) && 1 in ActionsOf(db, 1);
    assert PlanOk(db, 1) && Attempted(db, 1) && !Unfinished(db, 1);
  }

  /**
   A plan of three products: one action is rejected, the other partly. Once both are reconciled the plan is stored as a
   success, although the resolution rule makes it partial.
   */
  lemma SomeRunEndsAsSuccess() returns (states: seq<System>, steps: seq<Step>)
    ensures IsRun(states, steps) && |steps| == 8
    ensures var db := states[8].db;
            && 1 in db.plans && db.plans[1] == Plan(PlanTerminal, Some(Success))
            && Reducers.ResolvedPlanClass(PlanTally(db, 1)) == Partial
  {
    states, steps := BothReconciled();
    var db := states[8].db;
    EveryStateOk(states, steps, 8);
    BothEndedFinishes(db);
    RulesDiffer(db);
    PlanClassesOfEveryRun(states, steps, 8);
    NothingResolved(states, steps, 8);
    assert PlanClasses.PlanClassOk(db, 1, {});
  }
}
