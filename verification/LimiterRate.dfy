/** How many callers the rate limiter lets through in any stretch of time. */
module LimiterRate {
  import opened Common
  import opened Limiter

  function Refill(spec: Spec, d: real): real
    requires SpecOk(spec)
  {
    d / spec.interval
  }

  lemma RefillAdds(spec: Spec, a: real, b: real)
    requires SpecOk(spec)
    ensures Refill(spec, a + b) == Refill(spec, a) + Refill(spec, b)
    ensures a >= 0.0 ==> Refill(spec, a) >= 0.0
  {
  }

  /** Waiting for `x` tokens refills `x` tokens. */
  lemma RefillBack(spec: Spec, x: real)
    requires SpecOk(spec)
    ensures Refill(spec, x * spec.interval) == x
  {
    var i := spec.interval;
    var q := (x * i) / i;
    assert q * i == x * i;
    assert (q - x) * i == 0.0;
  }

  function Tokens(w: World): real
    requires SpecOk(w.spec)
  {
    TokensAt(w.spec, w.state.bucket, w.now)
  }

  /** A caller with a token of its own that has not passed yet. */
  predicate HasToken(c: Caller) { c.SleepingToken? || c.LastCheck? }

  function Holders(w: World): set<int> { set g | g in w.callers && HasToken(w.callers[g]) }

  function Passes(log: seq<Event>): nat {
    if log == [] then 0 else Passes(log[..|log| - 1]) + (if log[|log| - 1].Pass? then 1 else 0)
  }

  /** Tokens in the bucket, tokens handed out, and callers let through. */
  function Credit(w: World): real
    requires SpecOk(w.spec)
  {
    Tokens(w) + |Holders(w)| as real + Passes(w.log) as real
  }

  /** The bucket is never filled before the present, and owes less than a token to those who are not asleep for one. */
  ghost predicate BucketOk(w: World)
    requires SpecOk(w.spec)
  {
    && w.state.bucket.last <= w.now
    && (forall g :: g in w.callers && w.callers[g].SleepingToken? ==>
          && Tokens(w) > -2.0
          && (w.callers[g].until <= w.now ==> Tokens(w) > -1.0)
          && (w.now <= w.callers[g].until ==> Tokens(w) + Refill(w.spec, w.callers[g].until - w.now) > -1.0))
    && ((forall g :: g in w.callers ==> !w.callers[g].SleepingToken?) ==> Tokens(w) > -1.0)
  }

  // ---------------------------------------------------------------- the bucket

  lemma TokensLater(spec: Spec, b: Bucket, now: real, d: real)
    requires SpecOk(spec) && b.last <= now && d >= 0.0
    ensures TokensAt(spec, b, now) <= TokensAt(spec, b, now + d) <= TokensAt(spec, b, now) + Refill(spec, d)
    ensures TokensAt(spec, b, now + d) >= MinReal(spec.burst as real, TokensAt(spec, b, now) + Refill(spec, d))
  {
    RefillAdds(spec, now - b.last, d);
    RefillAdds(spec, d, 0.0);
    assert now + d - b.last == (now - b.last) + d;
  }

  lemma TokensNow(spec: Spec, tokens: real, now: real)
    requires SpecOk(spec) && tokens <= spec.burst as real
    ensures TokensAt(spec, Bucket(tokens, now), now) == tokens
  {
  }

  lemma ClampNow(spec: Spec, b: Bucket, now: real, remaining: int)
    requires SpecOk(spec) && b.last <= now
    ensures var after := TokensAt(spec, Clamp(spec, b, now, remaining), now);
            after <= TokensAt(spec, b, now) && (after == TokensAt(spec, b, now) || after > -1.0)
    ensures Clamp(spec, b, now, remaining).last <= now
  {
    ClampLeaves(spec, b, now, remaining);
  }

  lemma BlockDelayTokens(spec: Spec, s: State, now: real, remaining: int)
    requires SpecOk(spec) && s.bucket.last <= now
    ensures var t := BlockDelay(spec, s, now, remaining).1;
            && TokensAt(spec, t.bucket, now) <= TokensAt(spec, s.bucket, now)
            && (TokensAt(spec, t.bucket, now) == TokensAt(spec, s.bucket, now) || TokensAt(spec, t.bucket, now) > -1.0)
            && t.bucket.last <= now
  {
    ClampNow(spec, s.bucket, now, remaining);
  }

  // ---------------------------------------------------------------- the credit never grows faster than the refill

  lemma SameHolders(w: World, t: World)
    requires t.callers.Keys >= w.callers.Keys
    requires forall g :: g in t.callers ==> HasToken(t.callers[g]) == (g in w.callers && HasToken(w.callers[g]))
    ensures Holders(t) == Holders(w)
  {
    forall g ensures g in Holders(t) <==> g in Holders(w) { }
  }

  lemma PassesAppend(log: seq<Event>, e: Event)
    ensures Passes(log + [e]) == Passes(log) + (if e.Pass? then 1 else 0)
  {
    assert (log + [e])[..|log|] == log;
  }

  lemma OneHolderMore(w: World, t: World, g: int)
    requires g in w.callers && !HasToken(w.callers[g]) && g in t.callers && HasToken(t.callers[g])
    requires t.callers == w.callers[g := t.callers[g]]
    ensures |Holders(t)| == |Holders(w)| + 1
  {
    assert Holders(t) == Holders(w) + {g};
  }

  lemma OneHolderLess(w: World, t: World, g: int)
    requires g in w.callers && HasToken(w.callers[g]) && g in t.callers && !HasToken(t.callers[g])
    requires t.callers == w.callers[g := t.callers[g]]
    ensures |Holders(t)| == |Holders(w)| - 1
  {
    assert Holders(t) == Holders(w) - {g};
    assert g in Holders(w);
  }

  lemma TryNowCredit(w: World, g: int)
    requires SpecOk(w.spec) && Enabled(w, TryNow(g)) && w.state.bucket.last <= w.now
    ensures Credit(Next(w, TryNow(g))) <= Credit(w)
    ensures Tokens(Next(w, TryNow(g))) == Tokens(w) || Tokens(Next(w, TryNow(g))) > -1.0
    ensures Next(w, TryNow(g)).state.bucket.last <= w.now
  {
    var t := Next(w, TryNow(g));
    var (delay, s) := BlockDelay(w.spec, w.state, w.now, 1);
    BlockDelayTokens(w.spec, w.state, w.now, 1);
    SameHolders(w, t);
    PassesAppend(w.log, Pass(g, w.now));
    if TryAllow(w.spec, w.state, w.now).0 {
      TokensNow(w.spec, TokensAt(w.spec, s.bucket, w.now) - 1.0, w.now);
    }
  }

  /** How long a bucket that owes tokens takes to pay them back. */
  function PayBack(spec: Spec, left: real): real { if left < 0.0 then -left * spec.interval else 0.0 }

  lemma PayBackRefills(spec: Spec, left: real)
    requires SpecOk(spec)
    ensures PayBack(spec, left) >= 0.0 && left + Refill(spec, PayBack(spec, left)) >= 0.0
  {
    RefillBack(spec, if left < 0.0 then -left else 0.0);
  }

  lemma ReserveIs(spec: Spec, state: State, now: real)
    requires SpecOk(spec)
    ensures var (delay, t) := BlockDelay(spec, state, now, 1);
            var (tokenDelay, blockDelay, next) := ReserveToken(spec, state, now);
            var left := TokensAt(spec, t.bucket, now) - 1.0;
            && left <= spec.burst as real && blockDelay == delay
            && next.bucket == (if delay > 0.0 then t.bucket else Bucket(left, now))
            && tokenDelay == if delay > 0.0 then 0.0 else PayBack(spec, left)
  {
    var (delay, t) := BlockDelay(spec, state, now, 1);
    var left := TokensAt(spec, t.bucket, now) - 1.0;
    assert Reserve(spec, t.bucket, now, 1) == Bucket(left, now);
  }

  /** A reservation takes one token and is slept for until that token is there. */
  lemma ReserveTokens(spec: Spec, state: State, now: real)
    requires SpecOk(spec) && state.bucket.last <= now
    ensures var (tokenDelay, blockDelay, next) := ReserveToken(spec, state, now);
            var before, after := TokensAt(spec, state.bucket, now), TokensAt(spec, next.bucket, now);
            && next.bucket.last <= now
            && if blockDelay > 0.0 then after == before
               else after <= before - 1.0 && (before > -1.0 ==> after > -2.0) && tokenDelay >= 0.0 &&
                    after + Refill(spec, tokenDelay) >= 0.0
  {
    var t := BlockDelay(spec, state, now, 1).1;
    var left := TokensAt(spec, t.bucket, now) - 1.0;
    BlockDelayTokens(spec, state, now, 1);
    ReserveIs(spec, state, now);
    TokensNow(spec, left, now);
    PayBackRefills(spec, left);
  }

  lemma TryReserveCredit(w: World, g: int)
    requires SpecOk(w.spec) && Enabled(w, TryReserve(g)) && w.state.bucket.last <= w.now
    ensures Credit(Next(w, TryReserve(g))) <= Credit(w)
    ensures Next(w, TryReserve(g)).state.bucket.last <= w.now
    ensures var t := Next(w, TryReserve(g));
            if t.callers[g].SleepingToken? then
              Tokens(t) <= Tokens(w) - 1.0 && (Tokens(w) > -1.0 ==> Tokens(t) > -2.0) &&
              t.callers[g].until >= w.now && Tokens(t) + Refill(w.spec, t.callers[g].until - w.now) >= 0.0
            else Tokens(t) == Tokens(w) && t.callers[g].SleepingBlock?
  {
    var t := Next(w, TryReserve(g));
    var (tokenDelay, blockDelay, _) := ReserveToken(w.spec, w.state, w.now);
    ReserveTokens(w.spec, w.state, w.now);
    if blockDelay > 0.0 {
      SameHolders(w, t);
    } else {
      OneHolderMore(w, t, g);
      assert t.callers[g].until - w.now == tokenDelay;
    }
  }

  lemma CheckBlockCredit(w: World, g: int)
    requires SpecOk(w.spec) && Enabled(w, CheckBlock(g)) && w.state.bucket.last <= w.now
    ensures Credit(Next(w, CheckBlock(g))) <= Credit(w)
    ensures Tokens(Next(w, CheckBlock(g))) == Tokens(w) || Tokens(Next(w, CheckBlock(g))) > -1.0
    ensures Next(w, CheckBlock(g)).state.bucket.last <= w.now
  {
    var t := Next(w, CheckBlock(g));
    BlockDelayTokens(w.spec, w.state, w.now, 0);
    if BlockDelay(w.spec, w.state, w.now, 0).0 > 0.0 {
      SameHolders(w, t);
    } else {
      OneHolderLess(w, t, g);
      PassesAppend(w.log, Pass(g, w.now));
    }
  }

  lemma CancelCredit(w: World, g: int)
    requires SpecOk(w.spec) && Enabled(w, Cancel(g)) && w.state.bucket.last <= w.now
    ensures Credit(Next(w, Cancel(g))) <= Credit(w)
    ensures Tokens(Next(w, Cancel(g))) >= Tokens(w)
    ensures w.callers[g].SleepingToken? && w.now < w.callers[g].until && Tokens(w) > -2.0 ==> Tokens(Next(w, Cancel(g))) > -1.0
    ensures Next(w, Cancel(g)).state.bucket.last <= w.now
  {
    var t := Next(w, Cancel(g));
    if HasToken(w.callers[g]) {
      OneHolderLess(w, t, g);
    } else {
      SameHolders(w, t);
    }
    if w.callers[g].SleepingToken? && w.now < w.callers[g].until {
      TokensNow(w.spec, MinReal(w.spec.burst as real, Tokens(w) + 1.0), w.now);
    }
  }

  // ---------------------------------------------------------------- every step

  function ElapsedIn(s: Step): real { if s.Elapse? then s.d else 0.0 }

  lemma ElapseCredit(w: World, d: real)
    requires SpecOk(w.spec) && w.state.bucket.last <= w.now && d >= 0.0
    ensures Credit(w.(now := w.now + d)) <= Credit(w) + Refill(w.spec, d)
  {
    TokensLater(w.spec, w.state.bucket, w.now, d);
    assert Holders(w.(now := w.now + d)) == Holders(w);
  }

  lemma QuietCredit(w: World, s: Step)
    requires SpecOk(w.spec) && Enabled(w, s) && w.state.bucket.last <= w.now
    requires s.Arrive? || s.Admit? || s.WakeFromBlock? || s.WakeFromToken? || s.See429? || s.SeeRemaining?
    ensures Credit(Next(w, s)) <= Credit(w)
    ensures Tokens(Next(w, s)) == Tokens(w) || Tokens(Next(w, s)) > -1.0
    ensures Next(w, s).state.bucket.last <= w.now
  {
    var t := Next(w, s);
    SameHolders(w, t);
    if s.See429? {
      ClampNow(w.spec, w.state.bucket, w.now, 0);
      PassesAppend(w.log, Blocked(w.now, BlockLength(w.spec, s.retryAfter)));
    } else if s.SeeRemaining? {
      ClampNow(w.spec, w.state.bucket, w.now, s.remaining);
    }
  }

  lemma StepCredit(w: World, s: Step)
    requires SpecOk(w.spec) && Enabled(w, s) && w.state.bucket.last <= w.now
    ensures Credit(Next(w, s)) <= Credit(w) + Refill(w.spec, ElapsedIn(s))
    ensures Next(w, s).now == w.now + ElapsedIn(s) && ElapsedIn(s) >= 0.0 && Next(w, s).spec == w.spec
  {
    RefillAdds(w.spec, 0.0, 0.0);
    match s
    case TryNow(g) => TryNowCredit(w, g);
    case TryReserve(g) => TryReserveCredit(w, g);
    case CheckBlock(g) => CheckBlockCredit(w, g);
    case Cancel(g) => CancelCredit(w, g);
    case Elapse(d) => ElapseCredit(w, d);
    case _ => QuietCredit(w, s);
  }

  predicate Asleep(w: World, g: int) { g in w.callers && w.callers[g].SleepingToken? }

  /** The bucket lost nothing, or is well above its floor, and nobody new fell asleep for a token. */
  lemma FloorKept(w: World, t: World)
    requires SpecOk(w.spec) && t.spec == w.spec && BucketOk(w) && t.now == w.now && t.state.bucket.last <= t.now
    requires Tokens(t) >= Tokens(w) || Tokens(t) > -1.0
    requires forall g :: Asleep(t, g) ==> Asleep(w, g) && t.callers[g] == w.callers[g]
    requires (exists g :: Asleep(w, g)) && (forall g :: !Asleep(t, g)) ==> Tokens(t) > -1.0
    ensures BucketOk(t)
  {
    forall g | Asleep(t, g)
      ensures Tokens(t) > -2.0
      ensures t.callers[g].until <= t.now ==> Tokens(t) > -1.0
      ensures t.now <= t.callers[g].until ==> Tokens(t) + Refill(t.spec, t.callers[g].until - t.now) > -1.0
    {
      assert Asleep(w, g);
      if t.now <= t.callers[g].until { RefillAdds(t.spec, t.callers[g].until - t.now, 0.0); }
    }
    if (forall g :: !Asleep(t, g)) && (forall g :: !Asleep(w, g)) {
      assert forall g :: g in w.callers ==> !w.callers[g].SleepingToken? by {
        forall g | g in w.callers ensures !w.callers[g].SleepingToken? { assert !Asleep(w, g); }
      }
    }
  }

  lemma ElapseFloor(w: World, d: real)
    requires SpecOk(w.spec) && BucketOk(w) && d >= 0.0
    ensures BucketOk(w.(now := w.now + d))
  {
    var t := w.(now := w.now + d);
    TokensLater(w.spec, w.state.bucket, w.now, d);
    forall g | g in t.callers && t.callers[g].SleepingToken?
      ensures Tokens(t) > -2.0
      ensures t.callers[g].until <= t.now ==> Tokens(t) > -1.0
      ensures t.now <= t.callers[g].until ==> Tokens(t) + Refill(t.spec, t.callers[g].until - t.now) > -1.0
    {
      SleeperLater(w, d, w.callers[g].until);
    }
  }

  lemma SleeperLater(w: World, d: real, until: real)
    requires SpecOk(w.spec) && w.state.bucket.last <= w.now && d >= 0.0
    requires until <= w.now ==> Tokens(w) > -1.0
    requires w.now <= until ==> Tokens(w) + Refill(w.spec, until - w.now) > -1.0
    ensures var t := w.(now := w.now + d);
            && (until <= t.now ==> Tokens(t) > -1.0)
            && (t.now <= until ==> Tokens(t) + Refill(t.spec, until - t.now) > -1.0)
  {
    var t := w.(now := w.now + d);
    TokensLater(w.spec, w.state.bucket, w.now, d);
    if t.now <= until {
      RefillAdds(w.spec, d, until - t.now);
      RefillAdds(w.spec, until - t.now, 0.0);
      assert d + (until - t.now) == until - w.now;
    } else if w.now <= until {
      RefillAdds(w.spec, until - w.now, d - (until - w.now));
      RefillAdds(w.spec, d - (until - w.now), 0.0);
    }
  }

  lemma TryReserveFloor(w: World, g: int)
    requires SpecOk(w.spec) && BucketOk(w) && QueueOk(w) && Enabled(w, TryReserve(g))
    ensures BucketOk(Next(w, TryReserve(g)))
  {
    var t := Next(w, TryReserve(g));
    TryReserveCredit(w, g);
    assert HoldsAdmission(w.callers[g]);
    assert forall h :: h in w.callers ==> !w.callers[h].SleepingToken? by {
      forall h | h in w.callers ensures !w.callers[h].SleepingToken? {
        if HoldsAdmission(w.callers[h]) { assert h == g; }
      }
    }
    if t.callers[g].SleepingToken? {
      var until := t.callers[g].until;
      if until <= t.now { assert until - w.now == 0.0; }
    }
  }

  /** The caller was not asleep for a token and is not afterwards. */
  lemma SameSleepers(w: World, t: World, g: int)
    requires g in t.callers && !Asleep(w, g) && !Asleep(t, g) && t.callers == w.callers[g := t.callers[g]]
    ensures forall h :: Asleep(t, h) <==> Asleep(w, h)
  {
  }

  lemma TryNowFloor(w: World, g: int)
    requires SpecOk(w.spec) && BucketOk(w) && Enabled(w, TryNow(g))
    ensures BucketOk(Next(w, TryNow(g)))
  {
    TryNowCredit(w, g);
    SameSleepers(w, Next(w, TryNow(g)), g);
    FloorKept(w, Next(w, TryNow(g)));
  }

  lemma CheckBlockSleepers(w: World, g: int)
    requires SpecOk(w.spec) && Enabled(w, CheckBlock(g))
    ensures var t := Next(w, CheckBlock(g));
            t.now == w.now && t.spec == w.spec && forall h :: (Asleep(t, h) <==> Asleep(w, h)) && (Asleep(t, h) ==> t.callers[h] == w.callers[h])
  {
  }

  lemma CheckBlockFloor(w: World, g: int)
    requires SpecOk(w.spec) && BucketOk(w) && Enabled(w, CheckBlock(g))
    ensures BucketOk(Next(w, CheckBlock(g)))
  {
    CheckBlockCredit(w, g);
    CheckBlockSleepers(w, g);
    FloorKept(w, Next(w, CheckBlock(g)));
  }

  lemma QuietSleepers(w: World, s: Step)
    requires SpecOk(w.spec) && Enabled(w, s) && (s.Arrive? || s.Admit? || s.WakeFromBlock? || s.See429? || s.SeeRemaining?)
    ensures var t := Next(w, s);
            t.now == w.now && t.spec == w.spec && forall h :: (Asleep(t, h) <==> Asleep(w, h)) && (Asleep(t, h) ==> t.callers[h] == w.callers[h])
  {
  }

  lemma QuietFloor(w: World, s: Step)
    requires SpecOk(w.spec) && BucketOk(w) && Enabled(w, s)
    requires s.Arrive? || s.Admit? || s.WakeFromBlock? || s.See429? || s.SeeRemaining?
    ensures BucketOk(Next(w, s))
  {
    QuietCredit(w, s);
    QuietSleepers(w, s);
    FloorKept(w, Next(w, s));
  }

  lemma StepFloor(w: World, s: Step)
    requires SpecOk(w.spec) && BucketOk(w) && QueueOk(w) && Enabled(w, s)
    ensures BucketOk(Next(w, s))
  {
    match s
    case TryReserve(g) => TryReserveFloor(w, g);
    case Elapse(d) => ElapseFloor(w, d);
    case TryNow(g) => TryNowFloor(w, g);
    case CheckBlock(g) => CheckBlockFloor(w, g);
    case Cancel(g) => CancelFloor(w, g);
    case WakeFromToken(g) => WakeFloor(w, g);
    case _ => QuietFloor(w, s);
  }

  lemma WakeFloor(w: World, g: int)
    requires SpecOk(w.spec) && BucketOk(w) && Enabled(w, WakeFromToken(g))
    ensures BucketOk(Next(w, WakeFromToken(g)))
  {
    assert w.callers[g].SleepingToken? && Tokens(w) > -1.0;
    FloorKept(w, Next(w, WakeFromToken(g)));
  }

  lemma CancelFloor(w: World, g: int)
    requires SpecOk(w.spec) && BucketOk(w) && QueueOk(w) && Enabled(w, Cancel(g))
    ensures BucketOk(Next(w, Cancel(g)))
  {
    CancelCredit(w, g);
    if Asleep(w, g) {
      assert Tokens(Next(w, Cancel(g))) > -1.0;
    } else {
      assert forall h :: Asleep(w, h) ==> Asleep(Next(w, Cancel(g)), h);
    }
    FloorKept(w, Next(w, Cancel(g)));
  }

  // ---------------------------------------------------------------- any stretch of a run

  lemma {:induction false} EveryBucketOk(worlds: seq<World>, steps: seq<Step>, n: nat)
    requires IsRun(worlds, steps) && n < |worlds|
    ensures SpecOk(worlds[n].spec) && BucketOk(worlds[n])
  {
    EveryWorldOk(worlds, steps, n);
    if n > 0 {
      EveryBucketOk(worlds, steps, n - 1);
      EveryWorldOk(worlds, steps, n - 1);
      StepFloor(worlds[n - 1], steps[n - 1]);
    } else {
      TokensNow(worlds[0].spec, worlds[0].spec.burst as real, worlds[0].now);
    }
  }

  lemma CreditStep(worlds: seq<World>, steps: seq<Step>, n: nat)
    requires IsRun(worlds, steps) && n < |steps|
    ensures SpecOk(worlds[n].spec) && worlds[n + 1].spec == worlds[n].spec && ElapsedIn(steps[n]) >= 0.0
    ensures worlds[n + 1].now == worlds[n].now + ElapsedIn(steps[n])
    ensures Credit(worlds[n + 1]) <= Credit(worlds[n]) + Refill(worlds[n].spec, ElapsedIn(steps[n]))
  {
    EveryWorldOk(worlds, steps, n);
    EveryBucketOk(worlds, steps, n);
    StepCredit(worlds[n], steps[n]);
  }

  /** What grows by no more than the gains grows by no more than their total. */
  lemma {:induction false} ChainCredit(credits: seq<real>, totals: seq<real>, m: nat, n: nat)
    requires m <= n < |credits| == |totals|
    requires forall i :: 0 <= i < |credits| - 1 ==> credits[i + 1] - credits[i] <= totals[i + 1] - totals[i]
    ensures credits[n] - credits[m] <= totals[n] - totals[m]
    decreases n - m
  {
    if m < n {
      ChainCredit(credits, totals, m, n - 1);
      assert credits[n - 1 + 1] - credits[n - 1] <= totals[n - 1 + 1] - totals[n - 1];
    }
  }

  lemma RefillBetween(spec: Spec, x: real, d: real)
    requires SpecOk(spec)
    ensures Refill(spec, x + d) - Refill(spec, x) == Refill(spec, d)
  {
    RefillAdds(spec, x, d);
  }

  lemma {:induction false} SameSpec(worlds: seq<World>, steps: seq<Step>, n: nat)
    requires IsRun(worlds, steps) && n < |worlds|
    ensures SpecOk(worlds[0].spec) && worlds[n].spec == worlds[0].spec
  {
    EveryWorldOk(worlds, steps, 0);
    if n > 0 {
      SameSpec(worlds, steps, n - 1);
      CreditStep(worlds, steps, n - 1);
    }
  }

  lemma GainStep(worlds: seq<World>, steps: seq<Step>, spec: Spec, i: nat)
    requires IsRun(worlds, steps) && i < |steps| && SpecOk(spec) && worlds[i].spec == spec && worlds[i + 1].spec == spec
    ensures Credit(worlds[i + 1]) - Credit(worlds[i]) <= Refill(spec, worlds[i + 1].now) - Refill(spec, worlds[i].now)
  {
    CreditStep(worlds, steps, i);
    RefillBetween(spec, worlds[i].now, ElapsedIn(steps[i]));
  }

  lemma CreditBetween(worlds: seq<World>, steps: seq<Step>, m: nat, n: nat)
    requires IsRun(worlds, steps) && m <= n < |worlds|
    ensures SpecOk(worlds[m].spec) && worlds[n].spec == worlds[m].spec
    ensures Credit(worlds[n]) <= Credit(worlds[m]) + Refill(worlds[m].spec, worlds[n].now - worlds[m].now)
  {
    var spec := worlds[0].spec;
    forall i | 0 <= i < |worlds| ensures SpecOk(spec) && worlds[i].spec == spec { SameSpec(worlds, steps, i); }
    var credits := seq(|worlds|, i requires 0 <= i < |worlds| => Credit(worlds[i]));
    var totals := seq(|worlds|, i requires 0 <= i < |worlds| => Refill(spec, worlds[i].now));
    forall i | 0 <= i < |credits| - 1 ensures credits[i + 1] - credits[i] <= totals[i + 1] - totals[i] {
      GainStep(worlds, steps, spec, i);
    }
    ChainCredit(credits, totals, m, n);
    RefillBetween(spec, worlds[m].now, worlds[n].now - worlds[m].now);
  }

  lemma AtMostOneHolder(w: World)
    requires QueueOk(w)
    ensures |Holders(w)| <= 1
  {
    if g :| g in w.callers && HasToken(w.callers[g]) {
      forall h | h in Holders(w) ensures h == g { assert HoldsAdmission(w.callers[h]) && HoldsAdmission(w.callers[g]); }
      SubsetSameSize(Holders(w), {g});
    } else {
      forall h ensures h !in Holders(w) { assert h in w.callers ==> !HasToken(w.callers[h]); }
      SubsetSameSize(Holders(w), {});
    }
  }

  lemma FloorOf(w: World)
    requires SpecOk(w.spec) && BucketOk(w)
    ensures Tokens(w) + |Holders(w)| as real > -1.0
  {
    if g :| g in w.callers && w.callers[g].SleepingToken? {
      assert g in Holders(w);
      assert Holders(w) != {};
    }
  }

  /**
   In any stretch of any run, fewer than `burst + 2 + elapsed / interval` callers pass, whatever they do, whatever
   the server announces and whenever they are cancelled.
   */
  lemma RateIsBounded(worlds: seq<World>, steps: seq<Step>, m: nat, n: nat)
    requires IsRun(worlds, steps) && m <= n < |worlds|
    ensures SpecOk(worlds[m].spec)
    ensures (Passes(worlds[n].log) - Passes(worlds[m].log)) as real <
            worlds[m].spec.burst as real + 2.0 + Refill(worlds[m].spec, worlds[n].now - worlds[m].now)
  {
    CreditBetween(worlds, steps, m, n);
    EveryWorldOk(worlds, steps, m);
    EveryBucketOk(worlds, steps, n);
    AtMostOneHolder(worlds[m]);
    FloorOf(worlds[n]);
    assert Tokens(worlds[m]) <= worlds[m].spec.burst as real;
  }
}
