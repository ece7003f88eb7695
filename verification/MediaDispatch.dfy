/**
 The media dispatcher of one process: a poller that records interrupted actions and starts workers, the
 in-flight set between them, and workers that begin an attempt, call the marketplace and store the answer.
 */
module MediaDispatch {
  import opened Common

  // ---------------------------------------------------------------- the process

  /** The journal row of a media action. */
  datatype Row = Waiting | Begun | Ended

  /** Where the worker of an action is. */
  datatype Worker = Loading | Calling | Storing | Leaving

  /** Where the poller is; it holds the processing lock from the listing to the end of its loop. */
  datatype Poller = Idle | Sweeping(listed: set<int>) | Burying(a: int, rest: set<int>) | Starting(candidates: set<int>)

  /** `calls` is every remote call in order; `buried` the actions recorded as interrupted. */
  datatype Process = Process(rows: map<int, Row>, attempts: map<int, nat>, inFlight: set<int>,
                             workers: map<int, Worker>, poller: Poller, calls: seq<int>, buried: set<int>,
                             concurrency: nat)

  /** `EndElsewhere`: another transaction ends media that no worker has begun. */
  datatype Step =
    | Plan(added: set<int>)
    | EndElsewhere(ended: set<int>)
    | ListInterrupted(listed: set<int>)
    | CheckInFlight(a: int)
    | BuryInterrupted(stored: bool)
    | ListDispatchable(candidates: set<int>)
    | StartWorker(a: int)
    | FinishPoll
    | BeginAttempt(a: int)
    | GiveUp(a: int)
    | SkipWithoutAttempt(a: int)
    | CallMarketplace(a: int)
    | StoreAnswer(a: int, stored: bool)
    | Leave(a: int)
    | Crash

  ghost predicate Enabled(s: Process, step: Step) {
    match step
    case Plan(added) => added !! s.rows.Keys
    case EndElsewhere(ended) => forall a :: a in ended ==> a in s.rows && s.rows[a].Waiting?
    case ListInterrupted(listed) =>
      s.poller.Idle? && forall a :: a in listed ==> a in s.rows && s.rows[a].Begun?
    case CheckInFlight(a) => s.poller.Sweeping? && a in s.poller.listed
    case BuryInterrupted(_) => s.poller.Burying?
    case ListDispatchable(candidates) =>
      s.poller.Sweeping? && s.poller.listed == {} && forall a :: a in candidates ==> a in s.rows
    case StartWorker(a) => s.poller.Starting? && a in s.poller.candidates
    case FinishPoll => s.poller.Starting? || s.poller.Sweeping?
    case BeginAttempt(a) => a in s.workers && s.workers[a].Loading? && a in s.rows && s.rows[a].Waiting?
    case GiveUp(a) => a in s.workers && s.workers[a].Loading?
    case SkipWithoutAttempt(a) => a in s.workers && s.workers[a].Loading? && a in s.rows && s.rows[a].Waiting?
    case CallMarketplace(a) => a in s.workers && s.workers[a].Calling?
    case StoreAnswer(a, _) => a in s.workers && s.workers[a].Storing? && a in s.rows
    case Leave(a) => a in s.workers && s.workers[a].Leaving?
    case Crash => true
  }

  ghost function Next(s: Process, step: Step): Process
    requires Enabled(s, step)
  {
    match step
    case Plan(added) => s.(rows := s.rows + map a | a in added :: Waiting, attempts := s.attempts + map a | a in added :: 0)
    case EndElsewhere(ended) => s.(rows := map a | a in s.rows :: if a in ended then Ended else s.rows[a])
    case ListInterrupted(listed) => s.(poller := Sweeping(listed))
    case CheckInFlight(a) =>
      var rest := s.poller.listed - {a};
      s.(poller := if a in s.inFlight then Sweeping(rest) else Burying(a, rest))
    case BuryInterrupted(stored) =>
      var a := s.poller.a;
      var done := stored && a in s.rows && s.rows[a].Begun?;
      s.(poller := Sweeping(s.poller.rest),
         rows := if done then s.rows[a := Ended] else s.rows,
         buried := if done then s.buried + {a} else s.buried)
    case ListDispatchable(candidates) => s.(poller := Starting(candidates))
    case StartWorker(a) =>
      var rest := s.poller.candidates - {a};
      if |s.inFlight| < s.concurrency && a !in s.inFlight then
        s.(poller := Starting(rest), inFlight := s.inFlight + {a}, workers := s.workers[a := Loading])
      else s.(poller := Starting(rest))
    case FinishPoll => s.(poller := Idle)
    case BeginAttempt(a) =>
      s.(rows := s.rows[a := Begun], workers := s.workers[a := Calling],
         attempts := s.attempts[a := (if a in s.attempts then s.attempts[a] else 0) + 1])
    case GiveUp(a) => s.(workers := s.workers[a := Leaving])
    case SkipWithoutAttempt(a) => s.(rows := s.rows[a := Ended], workers := s.workers[a := Leaving])
    case CallMarketplace(a) => s.(calls := s.calls + [a], workers := s.workers[a := Storing])
    case StoreAnswer(a, stored) =>
      s.(rows := if stored && s.rows[a].Begun? then s.rows[a := Ended] else s.rows, workers := s.workers[a := Leaving])
    case Leave(a) => s.(workers := s.workers - {a}, inFlight := s.inFlight - {a})
    case Crash => s.(workers := map[], inFlight := {}, poller := Idle)
  }

  predicate MayStillCall(s: Process, a: int) {
    a in s.workers && (s.workers[a].Calling? || s.workers[a].Storing?)
  }

  ghost predicate RowOk(s: Process, a: int)
    requires a in s.rows && a in s.attempts
  {
    && (s.rows[a].Waiting? ==> s.attempts[a] == 0 && a !in s.calls && !MayStillCall(s, a))
    && s.attempts[a] <= 1
    && (s.rows[a].Begun? ==> s.attempts[a] == 1)
    && (a in s.workers && s.workers[a].Calling? ==> s.rows[a].Begun? && a !in s.calls)
    && (a in s.calls ==> s.attempts[a] == 1)
  }

  ghost predicate Inv(s: Process) {
    && s.rows.Keys == s.attempts.Keys
    && s.inFlight == s.workers.Keys && |s.inFlight| <= s.concurrency
    && (forall a :: a in s.rows ==> RowOk(s, a))
    && (forall a :: a in s.calls ==> a in s.rows)
    && (forall a :: a in s.workers ==> a in s.rows)
    && (forall i, j :: 0 <= i < j < |s.calls| ==> s.calls[i] != s.calls[j])
    && (forall a :: a in s.buried ==> a in s.rows && s.rows[a].Ended? && !MayStillCall(s, a))
    && (s.poller.Burying? ==> s.poller.a !in s.workers)
    && (s.poller.Starting? ==> forall a :: a in s.poller.candidates ==> a in s.rows)
  }

  predicate PollerStep(step: Step) {
    step.ListInterrupted? || step.CheckInFlight? || step.BuryInterrupted? || step.ListDispatchable? ||
    step.StartWorker? || step.FinishPoll?
  }

  lemma SweepKeeps(s: Process, step: Step)
    requires Inv(s) && Enabled(s, step) && (step.ListInterrupted? || step.CheckInFlight? || step.ListDispatchable? || step.FinishPoll?)
    ensures Inv(Next(s, step))
  {
    var t := Next(s, step);
    assert t == s.(poller := t.poller);
    forall a | a in t.rows ensures a in t.attempts && RowOk(t, a) { assert RowOk(s, a); }
  }

  lemma BuryKeeps(s: Process, stored: bool)
    requires Inv(s) && Enabled(s, BuryInterrupted(stored))
    ensures Inv(Next(s, BuryInterrupted(stored)))
  {
    var t := Next(s, BuryInterrupted(stored));
    forall a | a in t.rows ensures a in t.attempts && RowOk(t, a) { assert RowOk(s, a); }
  }

  lemma StartKeeps(s: Process, a: int)
    requires Inv(s) && Enabled(s, StartWorker(a))
    ensures Inv(Next(s, StartWorker(a)))
  {
    var t := Next(s, StartWorker(a));
    forall b | b in t.rows ensures b in t.attempts && RowOk(t, b) { assert RowOk(s, b); }
  }

  lemma PollerStepKeeps(s: Process, step: Step)
    requires Inv(s) && Enabled(s, step) && PollerStep(step)
    ensures Inv(Next(s, step))
  {
    match step
    case BuryInterrupted(stored) => BuryKeeps(s, stored);
    case StartWorker(a) => StartKeeps(s, a);
    case ListInterrupted(_) => SweepKeeps(s, step);
    case CheckInFlight(_) => SweepKeeps(s, step);
    case ListDispatchable(_) => SweepKeeps(s, step);
    case FinishPoll => SweepKeeps(s, step);
  }

  lemma BookStepKeeps(s: Process, step: Step)
    requires Inv(s) && Enabled(s, step) && (step.Plan? || step.EndElsewhere? || step.Crash?)
    ensures Inv(Next(s, step))
  {
    var t := Next(s, step);
    forall a | a in t.rows ensures a in t.attempts && RowOk(t, a) {
      if a in s.rows { assert RowOk(s, a); }
    }
  }

  lemma BeginKeeps(s: Process, a: int)
    requires Inv(s) && Enabled(s, BeginAttempt(a))
    ensures Inv(Next(s, BeginAttempt(a)))
  {
    var t := Next(s, BeginAttempt(a));
    forall b | b in t.rows ensures b in t.attempts && RowOk(t, b) { assert RowOk(s, b); }
  }

  lemma CallKeeps(s: Process, a: int)
    requires Inv(s) && Enabled(s, CallMarketplace(a))
    ensures Inv(Next(s, CallMarketplace(a)))
  {
    var t := Next(s, CallMarketplace(a));
    assert RowOk(s, a);
    forall b | b in t.rows ensures b in t.attempts && RowOk(t, b) { assert RowOk(s, b); }
  }

  lemma EndKeeps(s: Process, step: Step)
    requires Inv(s) && Enabled(s, step) && (step.GiveUp? || step.SkipWithoutAttempt? || step.StoreAnswer? || step.Leave?)
    ensures Inv(Next(s, step))
  {
    var t := Next(s, step);
    forall a | a in t.rows ensures a in t.attempts && RowOk(t, a) { assert RowOk(s, a); }
  }

  lemma WorkerStepKeeps(s: Process, step: Step)
    requires Inv(s) && Enabled(s, step) && !PollerStep(step) && !step.Plan? && !step.EndElsewhere? && !step.Crash?
    ensures Inv(Next(s, step))
  {
    if step.BeginAttempt? {
      BeginKeeps(s, step.a);
    } else if step.CallMarketplace? {
      CallKeeps(s, step.a);
    } else {
      EndKeeps(s, step);
    }
  }

  lemma StepKeeps(s: Process, step: Step)
    requires Inv(s) && Enabled(s, step)
    ensures Inv(Next(s, step))
  {
    if PollerStep(step) {
      PollerStepKeeps(s, step);
    } else if step.Plan? || step.EndElsewhere? || step.Crash? {
      BookStepKeeps(s, step);
    } else {
      WorkerStepKeeps(s, step);
    }
  }

  // ---------------------------------------------------------------- who does what

  /** A step of the worker of action `a`. */
  predicate StepOf(step: Step, a: int) {
    match step
    case BeginAttempt(b) => b == a
    case GiveUp(b) => b == a
    case SkipWithoutAttempt(b) => b == a
    case CallMarketplace(b) => b == a
    case StoreAnswer(b, _) => b == a
    case Leave(b) => b == a
    case _ => false
  }

  /** Only its own steps and a crash disturb a worker; a worker starts exactly for an action without one, when there is room. */
  lemma WorkersStay(s: Process, step: Step, a: int)
    requires Inv(s) && Enabled(s, step)
    ensures var t := Next(s, step);
            && (a in s.workers && !StepOf(step, a) && step != Crash ==> a in t.workers && t.workers[a] == s.workers[a])
            && (a !in s.workers && a in t.workers ==> step == StartWorker(a) && t.workers[a] == Loading && a in t.inFlight)
            && (step == StartWorker(a) && a !in s.workers ==> (a in t.workers <==> |s.workers.Keys| < s.concurrency))
            && (a in s.workers && a !in t.workers ==> step == Crash || (step == Leave(a) && s.workers[a] == Leaving && a !in t.inFlight))
  {
  }

  /** A call is made exactly by the worker that began the attempt, once, and is followed by storing its answer. */
  lemma CallsAreOwn(s: Process, step: Step, a: int)
    requires Inv(s) && Enabled(s, step)
    ensures var t := Next(s, step);
            && (t.calls != s.calls ==> step.CallMarketplace? && t.calls == s.calls + [step.a])
            && (step == CallMarketplace(a) ==> s.workers[a] == Calling && a in s.rows && s.rows[a] == Begun && t.workers[a] == Storing)
            && (a in t.workers && t.workers[a] == Calling && !(a in s.workers && s.workers[a] == Calling) ==>
                  step == BeginAttempt(a) && s.rows[a] == Waiting && t.rows[a] == Begun)
  {
    if step.CallMarketplace? {
      assert RowOk(s, step.a);
    }
  }

  /** A listed action is skipped while it has a worker and recorded as interrupted otherwise; the record ends a begun row. */
  lemma SweepsRight(s: Process, a: int, stored: bool)
    requires Inv(s)
    ensures Enabled(s, CheckInFlight(a)) ==>
              var t := Next(s, CheckInFlight(a));
              t.poller == if a in s.workers then Sweeping(s.poller.listed - {a}) else Burying(a, s.poller.listed - {a})
    ensures Enabled(s, BuryInterrupted(stored)) && s.poller.a == a ==>
              var t := Next(s, BuryInterrupted(stored));
              && (a in t.buried <==> a in s.buried || (stored && a in s.rows && s.rows[a] == Begun))
              && (stored && a in s.rows && s.rows[a] == Begun ==> t.rows[a] == Ended)
              && t.poller == Sweeping(s.poller.rest)
  {
  }

  /** Rows only move forward, each move by its own step; an interrupted row is recorded only without a worker. */
  lemma RowsMove(s: Process, step: Step, a: int)
    requires Inv(s) && Enabled(s, step) && a in s.rows && a in Next(s, step).rows && Next(s, step).rows[a] != s.rows[a]
    ensures var (x, y) := (s.rows[a], Next(s, step).rows[a]);
            || (x == Waiting && y == Begun && step == BeginAttempt(a))
            || (x == Waiting && y == Ended && (step == SkipWithoutAttempt(a) || (step.EndElsewhere? && a in step.ended)))
            || (x == Begun && y == Ended && step == StoreAnswer(a, true))
            || (x == Begun && y == Ended && step == BuryInterrupted(true) && s.poller.a == a && a !in s.workers)
  {
    assert RowOk(s, a);
  }

  ghost predicate IsRun(states: seq<Process>, steps: seq<Step>) {
    && |states| == |steps| + 1
    && states[0] == Process(map[], map[], {}, map[], Idle, [], {}, states[0].concurrency)
    && forall i :: 0 <= i < |steps| ==> Enabled(states[i], steps[i]) && states[i + 1] == Next(states[i], steps[i])
  }

  lemma {:induction false} EveryStateOk(states: seq<Process>, steps: seq<Step>, n: nat)
    requires IsRun(states, steps) && n < |states|
    ensures Inv(states[n]) && states[n].concurrency == states[0].concurrency
  {
    if n > 0 {
      EveryStateOk(states, steps, n - 1);
      StepKeeps(states[n - 1], steps[n - 1]);
    }
  }

  /**
   For every interleaving of polls, workers, failed writes and crashes: never more workers than the
   concurrency, at most one attempt and one call per action, and an action that is recorded as
   interrupted has no worker that may still call for it.
   */
  lemma EveryRunIsSafe(states: seq<Process>, steps: seq<Step>, n: nat, a: int)
    requires IsRun(states, steps) && n < |states| && a in states[n].rows
    ensures var s := states[n];
            && |s.workers.Keys| <= states[0].concurrency
            && a in s.attempts && s.attempts[a] <= 1
            && (forall i, j :: 0 <= i < j < |s.calls| ==> s.calls[i] != s.calls[j])
            && (a in s.buried ==> !MayStillCall(s, a))
    ensures n < |steps| && steps[n].BuryInterrupted? && a in states[n + 1].buried && a !in states[n].buried ==>
            a !in states[n].workers
  {
    EveryStateOk(states, steps, n);
    assert RowOk(states[n], a);
  }
}
