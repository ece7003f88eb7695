/** What one call of the rate limiter decides, and who holds the admission. */
module LimiterRules {
  import opened Common
  import opened Limiter

  /** The bucket as time alone has filled it. */
  lemma TokensFill(spec: Spec, b: Bucket, now: real)
    requires SpecOk(spec) && b.last <= now
    ensures var filled := b.tokens + (now - b.last) / spec.interval;
            TokensAt(spec, b, now) == if filled >= spec.burst as real then spec.burst as real else filled
  {
  }

  // ---------------------------------------------------------------- passing at once

  /** No server block is in force at `now`. */
  predicate Open(s: State, now: real) { s.blockedUntil.Some? ==> s.blockedUntil.value <= now }

  /** A caller passes at once exactly when no block is in force and a token is there; it takes that token. */
  lemma PassesIff(spec: Spec, s: State, now: real)
    requires SpecOk(spec) && s.blockedUntil.None?
    ensures var (allowed, t) := TryAllow(spec, s, now);
            && (allowed <==> TokensAt(spec, s.bucket, now) >= 1.0)
            && (allowed ==> t == s.(bucket := t.bucket) && t.bucket == Bucket(TokensAt(spec, s.bucket, now) - 1.0, now))
            && (!allowed ==> t == s)
  {
  }

  /** While a block is in force nobody passes or reserves, and nothing changes; the rest of the block is what is reported. */
  lemma BlockHolds(spec: Spec, s: State, now: real, remaining: int)
    requires SpecOk(spec) && !Open(s, now)
    ensures TryAllow(spec, s, now) == (false, s)
    ensures ReserveToken(spec, s, now) == (0.0, s.blockedUntil.value - now, s)
    ensures BlockDelay(spec, s, now, remaining) == (s.blockedUntil.value - now, s)
  {
  }

  /** The first call after a block clears it and goes on with no more tokens than it allows. */
  lemma BlockEnds(spec: Spec, s: State, now: real, remaining: int)
    requires SpecOk(spec) && s.blockedUntil.Some? && Open(s, now)
    ensures var cleared := s.(blockedUntil := None, bucket := Clamp(spec, s.bucket, now, 1));
            && TryAllow(spec, s, now) == TryAllow(spec, cleared, now)
            && ReserveToken(spec, s, now).0 == ReserveToken(spec, cleared, now).0
            && ReserveToken(spec, s, now).1 == ReserveToken(spec, cleared, now).1
            && ReserveToken(spec, s, now).2 == ReserveToken(spec, cleared, now).2
            && TokensAt(spec, cleared.bucket, now) <= 1.0
    ensures BlockDelay(spec, s, now, remaining) == (0.0, s.(blockedUntil := None, bucket := Clamp(spec, s.bucket, now, remaining)))
  {
    ClampLeaves(spec, s.bucket, now, 1);
    var cleared := s.(blockedUntil := None, bucket := Clamp(spec, s.bucket, now, 1));
    assert BlockDelay(spec, s, now, 1) == (0.0, cleared) && BlockDelay(spec, cleared, now, 1) == (0.0, cleared);
  }

  // ---------------------------------------------------------------- reserving

  /** A reservation takes one token, also one that is not there yet, and is slept for exactly until it is. */
  lemma ReservesUntil(spec: Spec, s: State, now: real)
    requires SpecOk(spec) && s.blockedUntil.None?
    ensures var (delay, block, t) := ReserveToken(spec, s, now);
            var left := TokensAt(spec, s.bucket, now) - 1.0;
            && block == 0.0 && t == s.(bucket := Bucket(left, now))
            && (left >= 0.0 ==> delay == 0.0) && (left < 0.0 ==> delay == (0.0 - left) * spec.interval)
  {
  }

  // ---------------------------------------------------------------- what the server announces

  /** A 429 blocks for the announced time, or for one interval, never shortens a block, and empties the bucket. */
  lemma BlockStarts(spec: Spec, s: State, now: real, retryAfter: Option<real>)
    requires SpecOk(spec)
    ensures var t := Observe429(spec, s, now, retryAfter);
            var announced := now + (if retryAfter.Some? && retryAfter.value > 0.0 then retryAfter.value else spec.interval);
            && t.blockedUntil.Some? && t.blockedUntil.value >= announced
            && (s.blockedUntil.Some? ==> t.blockedUntil.value >= s.blockedUntil.value)
            && (t.blockedUntil.value == announced || (s.blockedUntil.Some? && t.blockedUntil == s.blockedUntil))
            && TokensAt(spec, t.bucket, now) <= 0.0
            && t.waiters == s.waiters && t.admissionTaken == s.admissionTaken
  {
    ClampLeaves(spec, s.bucket, now, 0);
  }

  // ---------------------------------------------------------------- the queue

  /** A caller that cannot pass at once joins the queue exactly when there is room in it. */
  lemma JoinsIff(w: World, g: int)
    requires Inv(w) && Enabled(w, TryNow(g))
    ensures var (t, allowed) := (Next(w, TryNow(g)), TryAllow(w.spec, w.state, w.now).0);
            && (t.callers[g] == Passed <==> allowed)
            && (t.callers[g] == Queued <==> !allowed && |Queue(w)| < w.spec.maxWaiters)
            && (t.callers[g] == Failed <==> !allowed && |Queue(w)| >= w.spec.maxWaiters)
  {
  }

  /** Nobody wakes early, and a cancelled sleeper gives its token back exactly when its time had not come. */
  lemma SleepsAndCancels(w: World, g: int)
    requires SpecOk(w.spec) && g in w.callers
    ensures Enabled(w, WakeFromToken(g)) <==> w.callers[g].SleepingToken? && w.callers[g].until <= w.now
    ensures Enabled(w, WakeFromBlock(g)) <==> w.callers[g].SleepingBlock? && w.callers[g].until <= w.now
    ensures Enabled(w, Cancel(g)) ==>
              var t := Next(w, Cancel(g));
              && t.callers[g] == Failed
              && (if w.callers[g].SleepingToken? && w.callers[g].until > w.now
                  then TokensAt(w.spec, t.state.bucket, w.now) ==
                       if TokensAt(w.spec, w.state.bucket, w.now) + 1.0 >= w.spec.burst as real then w.spec.burst as real
                       else TokensAt(w.spec, w.state.bucket, w.now) + 1.0
                  else t.state.bucket == w.state.bucket)
  {
  }

  /** The admission is taken only while a caller holds it. */
  ghost predicate AdmissionHeld(w: World) {
    w.state.admissionTaken ==> exists g :: g in w.callers && HoldsAdmission(w.callers[g])
  }

  lemma StepHolds(w: World, s: Step)
    requires Inv(w) && AdmissionHeld(w) && Enabled(w, s)
    ensures AdmissionHeld(Next(w, s))
  {
    var t := Next(w, s);
    if t.state.admissionTaken {
      if s.Admit? {
        assert HoldsAdmission(t.callers[s.g]);
      } else {
        assert w.state.admissionTaken by { TakenBefore(w, s); }
        var g :| g in w.callers && HoldsAdmission(w.callers[g]);
        StillHolds(w, s, g);
      }
    }
  }

  lemma TakenBefore(w: World, s: Step)
    requires Inv(w) && Enabled(w, s) && !s.Admit? && Next(w, s).state.admissionTaken
    ensures w.state.admissionTaken
  {
  }

  lemma StillHolds(w: World, s: Step, g: int)
    requires Inv(w) && Enabled(w, s) && !s.Admit? && Next(w, s).state.admissionTaken
    requires g in w.callers && HoldsAdmission(w.callers[g])
    ensures g in Next(w, s).callers && HoldsAdmission(Next(w, s).callers[g])
  {
  }

  /** In every run the admission is free or in somebody's hands: a caller that leaves has given it back. */
  lemma {:induction false} EveryAdmissionHeld(worlds: seq<World>, steps: seq<Step>, n: nat)
    requires IsRun(worlds, steps) && n < |worlds|
    ensures AdmissionHeld(worlds[n])
  {
    if n > 0 {
      EveryAdmissionHeld(worlds, steps, n - 1);
      EveryWorldOk(worlds, steps, n - 1);
      StepHolds(worlds[n - 1], steps[n - 1]);
    }
  }
}
