/**
 The rate limiter in front of one marketplace bucket: a token bucket, the block after an HTTP 429
 (section 4 of RFC 6585), a bounded queue of waiters and one admission. Time and tokens are real numbers.
 */
module Limiter {
  import opened Common

  /** A token bucket; `tokens` may be negative when tokens were reserved ahead. */
  datatype Bucket = Bucket(tokens: real, last: real)

  datatype Spec = Spec(interval: real, burst: int, maxWaiters: nat)

  predicate SpecOk(spec: Spec) { spec.interval > 0.0 && spec.burst > 0 && spec.maxWaiters > 0 }

  function MinReal(x: real, y: real): real { if x <= y then x else y }

  /** Tokens at `now`, refilled one per interval up to the burst. */
  function TokensAt(spec: Spec, b: Bucket, now: real): real
    requires SpecOk(spec)
  {
    var elapsed := if now < b.last then 0.0 else now - b.last;
    MinReal(spec.burst as real, b.tokens + elapsed / spec.interval)
  }

  function Reserve(spec: Spec, b: Bucket, now: real, n: int): Bucket
    requires SpecOk(spec)
  {
    Bucket(TokensAt(spec, b, now) - n as real, now)
  }

  /** The least integer not below `x`. */
  function Ceil(x: real): (n: int)
    ensures x <= n as real < x + 1.0
  {
    if x.Floor as real == x then x.Floor else x.Floor + 1
  }

  function Between(n: int, low: int, high: int): int {
    if n < low then low else if n > high then high else n
  }

  /** Takes as many whole tokens as it needs to leave at most `remaining`. */
  function Clamp(spec: Spec, b: Bucket, now: real, remaining: int): Bucket
    requires SpecOk(spec)
  {
    var keep := Between(remaining, 0, spec.burst);
    var tokens := TokensAt(spec, b, now);
    if tokens <= keep as real then b
    else Reserve(spec, b, now, Between(Ceil(tokens - keep as real), 0, spec.burst))
  }

  /** Clamping never adds a token, and when it acts it leaves more than `keep - 1` and at most `keep`. */
  lemma ClampLeaves(spec: Spec, b: Bucket, now: real, remaining: int)
    requires SpecOk(spec)
    ensures var keep := Between(remaining, 0, spec.burst);
            var after := TokensAt(spec, Clamp(spec, b, now, remaining), now);
            && after <= TokensAt(spec, b, now) && after <= keep as real
            && (TokensAt(spec, b, now) > keep as real ==> (keep - 1) as real < after)
            && (TokensAt(spec, b, now) <= keep as real ==> after == TokensAt(spec, b, now))
  {
    var keep := Between(remaining, 0, spec.burst);
    var tokens := TokensAt(spec, b, now);
    if tokens > keep as real {
      var consume := Ceil(tokens - keep as real);
      assert 0 < consume <= spec.burst;
      assert TokensAt(spec, Clamp(spec, b, now, remaining), now) == tokens - consume as real;
    }
  }

  // ---------------------------------------------------------------- the limiter under its mutex

  datatype State = State(bucket: Bucket, blockedUntil: Option<real>, waiters: nat, admissionTaken: bool)

  /** How long the server block still lasts; a block that is over is cleared and the bucket clamped. */
  function BlockDelay(spec: Spec, s: State, now: real, remaining: int): (real, State)
    requires SpecOk(spec)
  {
    if s.blockedUntil.None? then (0.0, s)
    else if now < s.blockedUntil.value then (s.blockedUntil.value - now, s)
    else (0.0, s.(blockedUntil := None, bucket := Clamp(spec, s.bucket, now, remaining)))
  }

  function TryAllow(spec: Spec, s: State, now: real): (bool, State)
    requires SpecOk(spec)
  {
    var (delay, t) := BlockDelay(spec, s, now, 1);
    if delay > 0.0 || TokensAt(spec, t.bucket, now) < 1.0 then (false, t)
    else (true, t.(bucket := Reserve(spec, t.bucket, now, 1)))
  }

  /** The block delay if there is one, otherwise the delay until the reserved token is there. */
  function ReserveToken(spec: Spec, s: State, now: real): (real, real, State)
    requires SpecOk(spec)
  {
    var (delay, t) := BlockDelay(spec, s, now, 1);
    if delay > 0.0 then (0.0, delay, t)
    else
      var b := Reserve(spec, t.bucket, now, 1);
      (if b.tokens < 0.0 then -b.tokens * spec.interval else 0.0, 0.0, t.(bucket := b))
  }

  function BlockLength(spec: Spec, retryAfter: Option<real>): real {
    if retryAfter.Some? && retryAfter.value > 0.0 then retryAfter.value else spec.interval
  }

  function Observe429(spec: Spec, s: State, now: real, retryAfter: Option<real>): State
    requires SpecOk(spec)
  {
    var until := now + BlockLength(spec, retryAfter);
    s.(blockedUntil := if s.blockedUntil.None? || until > s.blockedUntil.value then Some(until) else s.blockedUntil,
       bucket := Clamp(spec, s.bucket, now, 0))
  }

  // ---------------------------------------------------------------- every interleaving of callers

  /** Where a call of Wait is. */
  datatype Caller =
    | Arriving
    | Queued
    | Admitting
    | SleepingBlock(until: real)
    | SleepingToken(until: real)
    | LastCheck
    | Passed
    | Failed

  predicate InQueue(c: Caller) { !c.Arriving? && !c.Passed? && !c.Failed? }

  predicate HoldsAdmission(c: Caller) { InQueue(c) && !c.Queued? }

  datatype Event = Blocked(at: real, length: real) | Pass(caller: int, at: real)

  datatype World = World(spec: Spec, state: State, now: real, callers: map<int, Caller>, log: seq<Event>)

  datatype Step =
    | Arrive(g: int)
    | TryNow(g: int)
    | Admit(g: int)
    | TryReserve(g: int)
    | WakeFromBlock(g: int)
    | WakeFromToken(g: int)
    | CheckBlock(g: int)
    | Cancel(g: int)
    | See429(retryAfter: Option<real>)
    | SeeRemaining(remaining: int)
    | Elapse(d: real)

  predicate Enabled(w: World, s: Step) {
    match s
    case Arrive(g) => g !in w.callers
    case TryNow(g) => g in w.callers && w.callers[g].Arriving?
    case Admit(g) => g in w.callers && w.callers[g].Queued? && !w.state.admissionTaken
    case TryReserve(g) => g in w.callers && w.callers[g].Admitting?
    case WakeFromBlock(g) => g in w.callers && w.callers[g].SleepingBlock? && w.callers[g].until <= w.now
    case WakeFromToken(g) => g in w.callers && w.callers[g].SleepingToken? && w.callers[g].until <= w.now
    case CheckBlock(g) => g in w.callers && w.callers[g].LastCheck?
    case Cancel(g) => g in w.callers && InQueue(w.callers[g])
    case See429(_) => true
    case SeeRemaining(_) => true
    case Elapse(d) => d >= 0.0
  }

  /** A reservation that is cancelled before its time gives its token back. */
  function Returned(spec: Spec, b: Bucket, c: Caller, now: real): Bucket
    requires SpecOk(spec)
  {
    if c.SleepingToken? && now < c.until then Bucket(MinReal(spec.burst as real, TokensAt(spec, b, now) + 1.0), now) else b
  }

  /** The caller leaves the queue, and the admission if it held it. */
  function Leaving(w: World, g: int, end: Caller): World
    requires g in w.callers
  {
    w.(callers := w.callers[g := end],
       state := w.state.(waiters := if w.state.waiters > 0 then w.state.waiters - 1 else 0,
                         admissionTaken := if HoldsAdmission(w.callers[g]) then false else w.state.admissionTaken))
  }

  function Next(w: World, s: Step): World
    requires Enabled(w, s) && SpecOk(w.spec)
  {
    match s
    case Arrive(g) => w.(callers := w.callers[g := Arriving])
    case TryNow(g) =>
      var (allowed, state) := TryAllow(w.spec, w.state, w.now);
      if allowed then w.(state := state, callers := w.callers[g := Passed], log := w.log + [Pass(g, w.now)])
      else if state.waiters >= w.spec.maxWaiters then w.(state := state, callers := w.callers[g := Failed])
      else w.(state := state.(waiters := state.waiters + 1), callers := w.callers[g := Queued])
    case Admit(g) => w.(state := w.state.(admissionTaken := true), callers := w.callers[g := Admitting])
    case TryReserve(g) =>
      var (tokenDelay, blockDelay, state) := ReserveToken(w.spec, w.state, w.now);
      w.(state := state,
         callers := w.callers[g := if blockDelay > 0.0 then SleepingBlock(w.now + blockDelay) else SleepingToken(w.now + tokenDelay)])
    case WakeFromBlock(g) => w.(callers := w.callers[g := Admitting])
    case WakeFromToken(g) => w.(callers := w.callers[g := LastCheck])
    case CheckBlock(g) =>
      var (delay, state) := BlockDelay(w.spec, w.state, w.now, 0);
      if delay > 0.0 then w.(state := state)
      else Leaving(w.(state := state, log := w.log + [Pass(g, w.now)]), g, Passed)
    case Cancel(g) =>
      Leaving(w.(state := w.state.(bucket := Returned(w.spec, w.state.bucket, w.callers[g], w.now))), g, Failed)
    case See429(retryAfter) =>
      w.(state := Observe429(w.spec, w.state, w.now, retryAfter),
         log := w.log + [Blocked(w.now, BlockLength(w.spec, retryAfter))])
    case SeeRemaining(remaining) => w.(state := w.state.(bucket := Clamp(w.spec, w.state.bucket, w.now, remaining)))
    case Elapse(d) => w.(now := w.now + d)
  }

  function Queue(w: World): set<int> { set g | g in w.callers && InQueue(w.callers[g]) }

  /** A block that has not run out is still in force. */
  predicate InForce(w: World, e: Event) {
    e.Blocked? ==> e.at + e.length <= w.now || (w.state.blockedUntil.Some? && e.at + e.length <= w.state.blockedUntil.value)
  }

  /** Blocks are in force until they run out, and nobody passed before an earlier block ran out. */
  ghost predicate BlocksOk(w: World) {
    && (forall i :: 0 <= i < |w.log| ==> InForce(w, w.log[i]))
    && (forall i, j :: 0 <= i < j < |w.log| && w.log[i].Blocked? && w.log[j].Pass? ==>
          w.log[i].at + w.log[i].length <= w.log[j].at)
  }

  ghost predicate QueueOk(w: World) {
    && w.state.waiters == |Queue(w)| <= w.spec.maxWaiters
    && (forall g :: g in w.callers && HoldsAdmission(w.callers[g]) ==> w.state.admissionTaken)
    && (forall g, h :: g in w.callers && h in w.callers && HoldsAdmission(w.callers[g]) && HoldsAdmission(w.callers[h]) ==> g == h)
  }

  ghost predicate Inv(w: World) { SpecOk(w.spec) && BlocksOk(w) && QueueOk(w) }

  // ---------------------------------------------------------------- the blocks

  predicate Unblocked(s: State, now: real) { s.blockedUntil.None? || s.blockedUntil.value <= now }

  lemma BlockDelayMeaning(spec: Spec, s: State, now: real, remaining: int)
    requires SpecOk(spec)
    ensures var (delay, t) := BlockDelay(spec, s, now, remaining);
            && (delay > 0.0 <==> !Unblocked(s, now))
            && t.blockedUntil == (if Unblocked(s, now) then None else s.blockedUntil)
            && t.waiters == s.waiters && t.admissionTaken == s.admissionTaken
  {
  }

  /** Time went on, and a block was cleared only when it was over. */
  lemma BlocksFrame(w: World, t: World)
    requires BlocksOk(w) && t.log == w.log && w.now <= t.now
    requires t.state.blockedUntil == w.state.blockedUntil || (t.state.blockedUntil.None? && Unblocked(w.state, t.now))
    ensures BlocksOk(t)
  {
    forall i | 0 <= i < |t.log| ensures InForce(t, t.log[i]) {
      assert InForce(w, w.log[i]);
    }
  }

  /** A caller passes at a moment when no block is in force. */
  lemma PassKeepsBlocks(w: World, t: World, g: int)
    requires BlocksOk(w) && Unblocked(w.state, w.now) && t.now == w.now && t.log == w.log + [Pass(g, w.now)]
    requires t.state.blockedUntil.None?
    ensures BlocksOk(t)
  {
    forall i | 0 <= i < |w.log| && w.log[i].Blocked? ensures w.log[i].at + w.log[i].length <= w.now {
      assert InForce(w, w.log[i]);
    }
  }

  lemma See429KeepsBlocks(w: World, retryAfter: Option<real>)
    requires BlocksOk(w) && SpecOk(w.spec)
    ensures BlocksOk(Next(w, See429(retryAfter)))
  {
    var t := Next(w, See429(retryAfter));
    forall i | 0 <= i < |t.log| ensures InForce(t, t.log[i]) {
      if i < |w.log| { assert InForce(w, w.log[i]); }
    }
  }

  lemma StepKeepsBlocks(w: World, s: Step)
    requires SpecOk(w.spec) && BlocksOk(w) && Enabled(w, s)
    ensures BlocksOk(Next(w, s))
  {
    var t := Next(w, s);
    match s
    case See429(retryAfter) => See429KeepsBlocks(w, retryAfter);
    case TryNow(g) =>
      BlockDelayMeaning(w.spec, w.state, w.now, 1);
      if TryAllow(w.spec, w.state, w.now).0 { PassKeepsBlocks(w, t, g); } else { BlocksFrame(w, t); }
    case CheckBlock(g) =>
      BlockDelayMeaning(w.spec, w.state, w.now, 0);
      if Unblocked(w.state, w.now) { PassKeepsBlocks(w, t, g); } else { BlocksFrame(w, t); }
    case TryReserve(g) =>
      BlockDelayMeaning(w.spec, w.state, w.now, 1);
      BlocksFrame(w, t);
    case _ => BlocksFrame(w, t);
  }

  // ---------------------------------------------------------------- the queue

  /** A caller moves between places of the same kind. */
  lemma MoveKeepsQueue(w: World, t: World, g: int, c: Caller)
    requires QueueOk(w) && t.spec == w.spec && t.callers == w.callers[g := c]
    requires if g in w.callers then InQueue(c) == InQueue(w.callers[g]) else !InQueue(c)
    requires HoldsAdmission(c) ==> g in w.callers && (HoldsAdmission(w.callers[g]) || !w.state.admissionTaken)
    requires t.state.waiters == w.state.waiters
    requires t.state.admissionTaken == (w.state.admissionTaken || HoldsAdmission(c))
    ensures QueueOk(t)
  {
    assert Queue(t) == Queue(w);
  }

  lemma JoinKeepsQueue(w: World, t: World, g: int)
    requires QueueOk(w) && t.spec == w.spec && g in w.callers && w.callers[g].Arriving? && t.callers == w.callers[g := Queued]
    requires t.state.waiters == w.state.waiters + 1 <= w.spec.maxWaiters && t.state.admissionTaken == w.state.admissionTaken
    ensures QueueOk(t)
  {
    assert Queue(t) == Queue(w) + {g};
  }

  lemma LeaveKeepsQueue(w: World, g: int, end: Caller)
    requires QueueOk(w) && g in w.callers && InQueue(w.callers[g]) && !InQueue(end)
    ensures QueueOk(Leaving(w, g, end))
  {
    assert g in Queue(w);
    assert Queue(Leaving(w, g, end)) == Queue(w) - {g};
  }

  lemma SameQueue(w: World, t: World)
    requires QueueOk(w) && t.spec == w.spec && t.callers == w.callers
    requires t.state.waiters == w.state.waiters && t.state.admissionTaken == w.state.admissionTaken
    ensures QueueOk(t)
  {
    assert Queue(t) == Queue(w);
  }

  lemma TryNowKeepsQueue(w: World, g: int)
    requires SpecOk(w.spec) && QueueOk(w) && Enabled(w, TryNow(g))
    ensures QueueOk(Next(w, TryNow(g)))
  {
    var t := Next(w, TryNow(g));
    BlockDelayMeaning(w.spec, w.state, w.now, 1);
    if t.callers[g].Queued? { JoinKeepsQueue(w, t, g); } else { MoveKeepsQueue(w, t, g, t.callers[g]); }
  }

  lemma CheckKeepsQueue(w: World, g: int)
    requires SpecOk(w.spec) && QueueOk(w) && Enabled(w, CheckBlock(g))
    ensures QueueOk(Next(w, CheckBlock(g)))
  {
    var (delay, state) := BlockDelay(w.spec, w.state, w.now, 0);
    BlockDelayMeaning(w.spec, w.state, w.now, 0);
    if delay > 0.0 {
      SameQueue(w, Next(w, CheckBlock(g)));
    } else {
      var passed := w.(state := state, log := w.log + [Pass(g, w.now)]);
      SameQueue(w, passed);
      LeaveKeepsQueue(passed, g, Passed);
    }
  }

  lemma CancelKeepsQueue(w: World, g: int)
    requires SpecOk(w.spec) && QueueOk(w) && Enabled(w, Cancel(g))
    ensures QueueOk(Next(w, Cancel(g)))
  {
    var cancelled := w.(state := w.state.(bucket := Returned(w.spec, w.state.bucket, w.callers[g], w.now)));
    SameQueue(w, cancelled);
    LeaveKeepsQueue(cancelled, g, Failed);
  }

  lemma StepKeepsQueue(w: World, s: Step)
    requires SpecOk(w.spec) && QueueOk(w) && Enabled(w, s)
    ensures QueueOk(Next(w, s))
  {
    var t := Next(w, s);
    match s
    case TryNow(g) => TryNowKeepsQueue(w, g);
    case CheckBlock(g) => CheckKeepsQueue(w, g);
    case Cancel(g) => CancelKeepsQueue(w, g);
    case TryReserve(g) =>
      BlockDelayMeaning(w.spec, w.state, w.now, 1);
      MoveKeepsQueue(w, t, g, t.callers[g]);
    case Arrive(g) => MoveKeepsQueue(w, t, g, Arriving);
    case Admit(g) => MoveKeepsQueue(w, t, g, Admitting);
    case WakeFromBlock(g) => MoveKeepsQueue(w, t, g, Admitting);
    case WakeFromToken(g) => MoveKeepsQueue(w, t, g, LastCheck);
    case _ => SameQueue(w, t);
  }

  // ---------------------------------------------------------------- runs

  predicate Initial(w: World) {
    && SpecOk(w.spec) && w.callers == map[] && w.log == []
    && w.state == State(Bucket(w.spec.burst as real, w.now), None, 0, false)
  }

  predicate IsRun(worlds: seq<World>, steps: seq<Step>) {
    && |worlds| == |steps| + 1 && Initial(worlds[0])
    && forall i :: 0 <= i < |steps| ==>
         Enabled(worlds[i], steps[i]) && SpecOk(worlds[i].spec) && worlds[i + 1] == Next(worlds[i], steps[i])
  }

  lemma {:induction false} EveryWorldOk(worlds: seq<World>, steps: seq<Step>, n: nat)
    requires IsRun(worlds, steps) && n < |worlds|
    ensures Inv(worlds[n]) && worlds[n].spec == worlds[0].spec
  {
    if n > 0 {
      EveryWorldOk(worlds, steps, n - 1);
      StepKeepsBlocks(worlds[n - 1], steps[n - 1]);
      StepKeepsQueue(worlds[n - 1], steps[n - 1]);
    } else {
      assert Queue(worlds[0]) == {};
    }
  }

  /**
   Under every interleaving: after a 429 nobody passes before its block has run out, the queue never holds
   more than its maximum, and at most one caller holds the admission.
   */
  lemma EveryInterleaving(worlds: seq<World>, steps: seq<Step>, n: nat)
    requires IsRun(worlds, steps) && n < |worlds|
    ensures var w := worlds[n];
            && (forall i, j :: 0 <= i < j < |w.log| && w.log[i].Blocked? && w.log[j].Pass? ==>
                  w.log[i].at + w.log[i].length <= w.log[j].at)
            && |Queue(w)| <= worlds[0].spec.maxWaiters
            && (forall g, h :: g in w.callers && h in w.callers && HoldsAdmission(w.callers[g]) && HoldsAdmission(w.callers[h]) ==> g == h)
  {
    EveryWorldOk(worlds, steps, n);
  }
}
