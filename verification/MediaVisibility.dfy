/**
 The leased, revision-fenced job that watches whether uploaded media became visible. Any number of
 pollers may claim and update it; leases expire and results arrive late.
 */
module MediaVisibility {
  import opened Common
  import opened Publication

  /** A row of the visibility table; `finishedAt` None while the job is open. Times are in microseconds. */
  datatype Job = Job(revision: nat, nextCheckAt: int, leasedUntil: Option<int>, deadlineAt: int,
                     finishedAt: Option<int>, checkCount: nat)

  /** What a poller remembers of its claim. */
  datatype Claim = Claim(revision: nat, deadlineAt: int)

  /** The result of a check: the action's outcome, if the check ends the job. */
  datatype Update = Update(visible: bool, photos: int, outcome: Option<Outcome>, nextDelay: int)

  const Minute: int := 60_000_000
  const FirstCheck: int := 10_000_000

  function Min(x: int, y: int): int { if x <= y then x else y }

  // ---------------------------------------------------------------- statements as functions

  function Scheduled(now: int, interval: int, timeout: int): Job {
    Job(0, now + Min(interval, FirstCheck), None, now + timeout, None, 0)
  }

  predicate Due(job: Job, now: int) {
    && job.finishedAt.None? && job.nextCheckAt <= now
    && (job.leasedUntil.None? || job.leasedUntil.value <= now)
  }

  function Claimed(job: Job, now: int, lease: int): Job {
    job.(leasedUntil := Some(now + lease), revision := job.revision + 1, checkCount := job.checkCount + 1)
  }

  /** The outcomes an update may carry. */
  predicate ValidUpdate(u: Update) {
    && u.nextDelay > 0 && u.photos >= 0
    && (u.outcome.Some? ==>
          || (u.outcome.value.cls.Success? && u.outcome.value.code.MediaVisible? && u.visible)
          || (u.outcome.value.cls.Unresolved? && u.outcome.value.code.MediaVisibilityTimeout? && !u.visible))
  }

  predicate TimesOut(u: Update) { u.outcome.Some? && u.outcome.value.cls.Unresolved? }

  /** `clock` is the wall clock, which may be past the transaction's `now`. */
  predicate Accepts(job: Job, claim: Claim, u: Update, clock: int) {
    && ValidUpdate(u) && claim.revision > 0
    && job.revision == claim.revision && job.finishedAt.None?
    && (TimesOut(u) ==> job.deadlineAt <= clock)
  }

  function Updated(job: Job, u: Update, now: int): Job {
    job.(nextCheckAt := Min(job.deadlineAt, now + u.nextDelay), leasedUntil := None, revision := job.revision + 1,
         finishedAt := if u.outcome.Some? then Some(now) else None)
  }

  /** The stored job, updated in place. */
  class VisibilityRow {
    var revision: nat
    var nextCheckAt: int
    var leasedUntil: Option<int>
    var deadlineAt: int
    var finishedAt: Option<int>
    var checkCount: nat

    function Row(): Job
      reads this
    {
      Job(revision, nextCheckAt, leasedUntil, deadlineAt, finishedAt, checkCount)
    }

    constructor (now: int, interval: int, timeout: int)
      requires 0 < interval < timeout
      ensures Row() == Scheduled(now, interval, timeout)
    {
      revision, leasedUntil, finishedAt, checkCount := 0, None, None, 0;
      var first := Min(interval, FirstCheck);
      if first <= 0 {
        first := interval;
      }
      nextCheckAt, deadlineAt := now + first, now + timeout;
    }

    method ClaimVisibility(now: int, lease: int) returns (claim: Option<Claim>)
      requires lease > 0
      modifies this
      ensures claim.Some? <==> Due(old(Row()), now)
      ensures Row() == if claim.Some? then Claimed(old(Row()), now, lease) else old(Row())
      ensures claim.Some? ==> claim.value == Claim(Row().revision, Row().deadlineAt)
    {
      if finishedAt.Some? || nextCheckAt > now || (leasedUntil.Some? && leasedUntil.value > now) {
        return None;
      }
      leasedUntil := Some(now + lease);
      revision := revision + 1;
      checkCount := checkCount + 1;
      claim := Some(Claim(revision, deadlineAt));
    }

    method UpdateVisibility(claim: Claim, u: Update, now: int, clock: int) returns (ok: bool)
      modifies this
      ensures ok <==> Accepts(old(Row()), claim, u, clock)
      ensures Row() == if ok then Updated(old(Row()), u, now) else old(Row())
    {
      if claim.revision == 0 || u.nextDelay <= 0 || u.photos < 0 {
        return false;
      }
      if u.outcome.Some? {
        var o := u.outcome.value;
        if !((o.cls.Success? && o.code.MediaVisible? && u.visible) ||
             (o.cls.Unresolved? && o.code.MediaVisibilityTimeout? && !u.visible)) {
          return false;
        }
      }
      if revision != claim.revision || finishedAt.Some? || (TimesOut(u) && deadlineAt > clock) {
        return false;
      }
      nextCheckAt := Min(deadlineAt, now + u.nextDelay);
      leasedUntil := None;
      revision := revision + 1;
      finishedAt := if u.outcome.Some? then Some(now) else None;
      ok := true;
    }
  }

  // ---------------------------------------------------------------- the poller's check

  /**
   One check: the catalogue is asked only before the deadline (`seen` is what it showed), and the clock
   is read again afterwards.
   */
  function CheckVisibility(claim: Claim, interval: int, before: int, seen: Option<(bool, nat)>, after: int): Update {
    var visible := before < claim.deadlineAt && seen.Some? && seen.value.0;
    Update(visible,
           if before < claim.deadlineAt && seen.Some? then seen.value.1 else 0,
           if visible then Some(Outcome(Success, MediaVisible, 0))
           else if claim.deadlineAt <= after then Some(Outcome(Unresolved, MediaVisibilityTimeout, 0))
           else None,
           if interval >= Minute then interval else Minute)
  }

  /** A check's result is always well formed, times out only at the deadline, and then ends the job. */
  lemma CheckIsAccepted(job: Job, claim: Claim, interval: int, before: int, seen: Option<(bool, nat)>, after: int, clock: int)
    requires job.revision == claim.revision > 0 && job.finishedAt.None? && job.deadlineAt == claim.deadlineAt
    requires before <= after <= clock
    ensures var u := CheckVisibility(claim, interval, before, seen, after);
            && Accepts(job, claim, u, clock)
            && (claim.deadlineAt <= after ==> u.outcome.Some?)
            && (u.outcome.Some? && u.outcome.value.cls.Success? ==> before < claim.deadlineAt && seen == Some((true, u.photos)))
  {
  }

  /** Media seen before the deadline is a success, the deadline without it a timeout, and anything else goes on. */
  lemma CheckDecides(claim: Claim, interval: int, before: int, seen: Option<(bool, nat)>, after: int)
    ensures var u := CheckVisibility(claim, interval, before, seen, after);
            && (u.outcome == Some(Outcome(Success, MediaVisible, 0)) <==> before < claim.deadlineAt && exists n: nat :: seen == Some((true, n)))
            && (u.outcome == Some(Outcome(Unresolved, MediaVisibilityTimeout, 0)) <==>
                  claim.deadlineAt <= after && !(before < claim.deadlineAt && exists n: nat :: seen == Some((true, n))))
            && (u.outcome.None? <==> after < claim.deadlineAt && !(before < claim.deadlineAt && exists n: nat :: seen == Some((true, n))))
            && (u.visible <==> u.outcome.Some? && u.outcome.value.cls.Success?)
            && (before < claim.deadlineAt && seen.Some? ==> u.photos == seen.value.1)
            && (!(before < claim.deadlineAt && seen.Some?) ==> u.photos == 0)
            && u.nextDelay >= 60_000_000 && u.nextDelay >= interval && (u.nextDelay == interval || u.nextDelay == 60_000_000)
  {
    if seen.Some? {
      assert seen == Some((seen.value.0, seen.value.1));
    }
  }

  // ---------------------------------------------------------------- every interleaving

  /** What a poller may try at some moment; failed tries leave no trace in the journal. */
  datatype Event =
    | TryClaim(now: int, lease: int)
    | TryUpdate(claim: Claim, u: Update, now: int, clock: int)

  /** The tries that succeeded, in order. */
  datatype Entry =
    | DidClaim(claim: Claim, at: int, lease: int)
    | DidUpdate(claim: Claim, u: Update, at: int, clock: int)

  datatype World = World(job: Job, journal: seq<Entry>)

  function Step(w: World, e: Event): World {
    match e
    case TryClaim(now, lease) =>
      if Due(w.job, now) then
        var job := Claimed(w.job, now, lease);
        World(job, w.journal + [DidClaim(Claim(job.revision, job.deadlineAt), now, lease)])
      else w
    case TryUpdate(claim, u, now, clock) =>
      if Accepts(w.job, claim, u, clock) then World(Updated(w.job, u, now), w.journal + [DidUpdate(claim, u, now, clock)])
      else w
  }

  function RunFrom(w: World, events: seq<Event>): World {
    if events == [] then w else Step(RunFrom(w, events[..|events| - 1]), events[|events| - 1])
  }

  predicate Ends(e: Entry) { e.DidUpdate? && e.u.outcome.Some? }

  /** A poller only brings claims it was given. */
  ghost predicate Issued(journal: seq<Entry>, claim: Claim) {
    exists i :: 0 <= i < |journal| && journal[i].DidClaim? && journal[i].claim == claim
  }

  ghost predicate Honest(w: World, events: seq<Event>) {
    forall n :: 0 <= n < |events| && events[n].TryUpdate? ==>
      Issued(RunFrom(w, events[..n]).journal, events[n].claim)
  }

  /** Each successful update directly follows the claim it belongs to. */
  predicate UpdateFollowsClaim(w: World, i: nat)
    requires i < |w.journal|
  {
    w.journal[i].DidUpdate? ==>
      && i > 0 && w.journal[i - 1].DidClaim? && w.journal[i - 1].claim == w.journal[i].claim
      && (TimesOut(w.journal[i].u) ==> w.job.deadlineAt <= w.journal[i].clock)
      && ValidUpdate(w.journal[i].u)
  }

  /** The revision counts the successful tries; claims carry the revision they created. */
  predicate Fenced(w: World) {
    && w.job.revision == |w.journal| && w.job.nextCheckAt <= w.job.deadlineAt
    && (forall i :: 0 <= i < |w.journal| && w.journal[i].DidClaim? ==>
          w.journal[i].claim == Claim(i + 1, w.job.deadlineAt))
    && (forall i :: 0 <= i < |w.journal| ==> UpdateFollowsClaim(w, i))
    && (forall i :: 0 <= i < |w.journal| && Ends(w.journal[i]) ==> i == |w.journal| - 1)
    && (w.job.finishedAt.Some? <==> |w.journal| > 0 && Ends(w.journal[|w.journal| - 1]))
  }

  lemma StepFenced(w: World, e: Event)
    requires Fenced(w) && (e.TryUpdate? ==> Issued(w.journal, e.claim))
    ensures Fenced(Step(w, e)) && Step(w, e).job.deadlineAt == w.job.deadlineAt
    ensures w.journal <= Step(w, e).journal
    ensures Step(w, e) != w ==> w.job.finishedAt.None? && Step(w, e).job.revision == w.job.revision + 1
  {
    var next := Step(w, e);
    if next != w {
      var n := |w.journal|;
      if e.TryUpdate? {
        var i :| 0 <= i < n && w.journal[i].DidClaim? && w.journal[i].claim == e.claim;
        assert i == n - 1;
      }
      forall i | 0 <= i < |next.journal| ensures UpdateFollowsClaim(next, i) {
        if i < n {
          assert next.journal[i] == w.journal[i] && (i > 0 ==> next.journal[i - 1] == w.journal[i - 1]);
          assert UpdateFollowsClaim(w, i);
        }
      }
    }
  }

  lemma {:induction false} RunFenced(w: World, events: seq<Event>)
    requires Fenced(w) && Honest(w, events)
    ensures Fenced(RunFrom(w, events)) && RunFrom(w, events).job.deadlineAt == w.job.deadlineAt
    ensures w.journal <= RunFrom(w, events).journal
  {
    if events != [] {
      var n := |events| - 1;
      var front := events[..n];
      forall i | 0 <= i < |front| && front[i].TryUpdate? ensures Issued(RunFrom(w, front[..i]).journal, front[i].claim) {
        assert front[..i] == events[..i] && front[i] == events[i];
      }
      RunFenced(w, front);
      StepFenced(RunFrom(w, front), events[n]);
    }
  }

  /** What entry `i` of the journal of successful tries says. */
  ghost predicate EntryOk(w: World, i: nat)
    requires i < |w.journal|
  {
    && (w.journal[i].DidUpdate? ==> i > 0 && w.journal[i - 1].DidClaim? && w.journal[i - 1].claim == w.journal[i].claim)
    && (w.journal[i].DidUpdate? ==> w.journal[i].u.nextDelay > 0 && w.journal[i].u.photos >= 0)
    && (Ends(w.journal[i]) ==>
          && i == |w.journal| - 1 && w.job.finishedAt.Some?
          && var (u, o) := (w.journal[i].u, w.journal[i].u.outcome.value);
             if o.cls.Success? then o.code == MediaVisible && u.visible
             else o.cls == Unresolved && o.code == MediaVisibilityTimeout && !u.visible && w.job.deadlineAt <= w.journal[i].clock)
  }

  lemma FencedEntry(w: World, i: nat)
    requires Fenced(w) && i < |w.journal|
    ensures EntryOk(w, i)
  {
    assert UpdateFollowsClaim(w, i);
  }

  /**
   Whatever the order of claims, expired leases and late updates: revisions only grow, an update succeeds
   only for the latest claim and once, and the job ends at most once, for good, with success only when
   media was seen and a timeout only at or after the deadline.
   */
  lemma EveryInterleaving(now: int, interval: int, timeout: int, events: seq<Event>)
    requires 0 < interval < timeout
    requires Honest(World(Scheduled(now, interval, timeout), []), events)
    ensures var w := RunFrom(World(Scheduled(now, interval, timeout), []), events);
            && w.job.revision == |w.journal| && w.job.deadlineAt == now + timeout
            && forall i :: 0 <= i < |w.journal| ==> EntryOk(w, i)
  {
    var start := World(Scheduled(now, interval, timeout), []);
    RunFenced(start, events);
    var w := RunFrom(start, events);
    forall i | 0 <= i < |w.journal| ensures EntryOk(w, i) {
      FencedEntry(w, i);
    }
  }

  // ---------------------------------------------------------------- when a job may be claimed

  /** A claim waits for the first check, for the lease before it to run out, and after a check for the delay or the deadline. */
  predicate ClaimInTime(w: World, first: int, i: nat)
    requires i < |w.journal|
  {
    w.journal[i].DidClaim? ==>
      if i == 0 then first <= w.journal[i].at
      else if w.journal[i - 1].DidClaim? then w.journal[i - 1].at + w.journal[i - 1].lease <= w.journal[i].at
      else w.journal[i - 1].at + w.journal[i - 1].u.nextDelay <= w.journal[i].at || w.job.deadlineAt <= w.journal[i].at
  }

  /** The row says when the next claim is due. */
  predicate Timed(w: World, first: int) {
    && (w.journal == [] ==> w.job.nextCheckAt == first && w.job.leasedUntil.None?)
    && (w.journal != [] ==>
          var last := w.journal[|w.journal| - 1];
          if last.DidClaim? then w.job.leasedUntil == Some(last.at + last.lease)
          else w.job.leasedUntil.None? && w.job.nextCheckAt == Min(w.job.deadlineAt, last.at + last.u.nextDelay))
    && forall i :: 0 <= i < |w.journal| ==> ClaimInTime(w, first, i)
  }

  lemma StepTimed(w: World, e: Event, first: int)
    requires Timed(w, first)
    ensures Timed(Step(w, e), first)
  {
    var next := Step(w, e);
    forall i | 0 <= i < |next.journal| ensures ClaimInTime(next, first, i) {
      if i < |w.journal| { assert ClaimInTime(w, first, i); }
    }
  }

  lemma {:induction false} RunTimed(w: World, events: seq<Event>, first: int)
    requires Timed(w, first)
    ensures Timed(RunFrom(w, events), first)
  {
    if events != [] {
      RunTimed(w, events[..|events| - 1], first);
      StepTimed(RunFrom(w, events[..|events| - 1]), events[|events| - 1], first);
    }
  }

  /**
   Under every order of events: nobody claims a job before its first check is due (after the interval, at most ten
   seconds), while a claim's lease runs, or before the delay of the last check or the deadline is over.
   */
  lemma LeasesAreKept(now: int, interval: int, timeout: int, events: seq<Event>, i: nat)
    requires 0 < interval < timeout
    requires i < |RunFrom(World(Scheduled(now, interval, timeout), []), events).journal|
    ensures ClaimInTime(RunFrom(World(Scheduled(now, interval, timeout), []), events),
                        now + (if interval <= 10_000_000 then interval else 10_000_000), i)
  {
    RunTimed(World(Scheduled(now, interval, timeout), []), events, now + (if interval <= 10_000_000 then interval else 10_000_000));
  }

  /**
   The job row itself never stands in the way: an open job whose lease ran out can be claimed at its deadline, and the
   row accepts the check of that claim as its last. Whether that commits depends on the action and its card as well.
   */
  lemma DeadlineIsReached(w: World, now: int, lease: int, interval: int, seen: Option<(bool, nat)>, after: int, clock: int)
    requires Fenced(w) && w.job.finishedAt.None? && w.job.deadlineAt <= now <= after <= clock
    requires w.job.leasedUntil.None? || w.job.leasedUntil.value <= now
    ensures var claimed := Step(w, TryClaim(now, lease));
            var claim := Claim(claimed.job.revision, claimed.job.deadlineAt);
            Step(claimed, TryUpdate(claim, CheckVisibility(claim, interval, now, seen, after), after, clock)).job.finishedAt.Some?
  {
  }
}
