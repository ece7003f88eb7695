/** The limiter's state as it changes under its mutex. */
module LimiterStore {
  import opened Common
  import opened Limiter

  class RateLimiter {
    var bucket: Bucket
    var blockedUntil: Option<real>
    var waiters: nat
    var admissionTaken: bool
    const spec: Spec

    ghost function Value(): State
      reads this
    {
      State(bucket, blockedUntil, waiters, admissionTaken)
    }

    constructor (spec: Spec, now: real)
      requires SpecOk(spec)
      ensures this.spec == spec && Value() == State(Bucket(spec.burst as real, now), None, 0, false)
    {
      this.spec := spec;
      bucket := Bucket(spec.burst as real, now);
      blockedUntil, waiters, admissionTaken := None, 0, false;
    }

    method BlockDelayLocked(now: real, remaining: int) returns (delay: real)
      requires SpecOk(spec)
      modifies this
      ensures (delay, Value()) == BlockDelay(spec, old(Value()), now, remaining)
    {
      if blockedUntil.None? {
        return 0.0;
      }
      if now < blockedUntil.value {
        return blockedUntil.value - now;
      }
      blockedUntil := None;
      ClampRemaining(now, remaining);
      delay := 0.0;
    }

    method ClampRemaining(now: real, remaining: int)
      requires SpecOk(spec)
      modifies this
      ensures Value() == old(Value()).(bucket := Clamp(spec, old(bucket), now, remaining))
    {
      var keep := remaining;
      if keep < 0 {
        keep := 0;
      }
      if keep > spec.burst {
        keep := spec.burst;
      }
      var tokens := TokensAt(spec, bucket, now);
      if tokens <= keep as real {
        return;
      }
      var consume := Ceil(tokens - keep as real);
      if consume <= 0 {
        return;
      }
      if consume > spec.burst {
        consume := spec.burst;
      }
      bucket := Bucket(tokens - consume as real, now);
    }

    method TryAllowNow(now: real) returns (allowed: bool)
      requires SpecOk(spec)
      modifies this
      ensures (allowed, Value()) == TryAllow(spec, old(Value()), now)
    {
      var delay := BlockDelayLocked(now, 1);
      if delay > 0.0 {
        return false;
      }
      var tokens := TokensAt(spec, bucket, now);
      if tokens < 1.0 {
        return false;
      }
      bucket := Bucket(tokens - 1.0, now);
      allowed := true;
    }

    /** `limit` and `remaining` are what the response headers announced. */
    method Observe(now: real, status: int, retryAfter: Option<real>, limit: Option<int>, remaining: Option<int>)
      requires SpecOk(spec)
      modifies this
      ensures Value() ==
              if status == 429 then Observe429(spec, old(Value()), now, retryAfter)
              else if remaining.None? then old(Value())
              else old(Value()).(bucket := Clamp(spec, old(bucket), now,
                                                 if limit.Some? && limit.value < remaining.value then limit.value else remaining.value))
    {
      if status == 429 {
        var length := spec.interval;
        if retryAfter.Some? && retryAfter.value > 0.0 {
          length := retryAfter.value;
        }
        if blockedUntil.None? || now + length > blockedUntil.value {
          blockedUntil := Some(now + length);
        }
        ClampRemaining(now, 0);
        return;
      }
      if remaining.None? {
        return;
      }
      var keep := remaining.value;
      if limit.Some? && limit.value < keep {
        keep := limit.value;
      }
      ClampRemaining(now, keep);
    }
  }
}
