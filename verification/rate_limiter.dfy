/** BlockingTokenBucketRateLimiter as a class whose fields change in place.

    The clock is not read inside: every operation that reads
    System.currentTimeMillis() takes the reading as `now`, and the blocking
    loop of acquire takes the successive readings it would make as `clock`.
    A sleep is not performed; it is returned as a duration. The lock covers
    only the refill and the debit or refusal of each iteration; the wait is
    computed after the lock is released. TokenBucket.Serve describes any
    serialised order of the locked parts; this class computes each wait from
    the state its own iteration left. */
module RateLimiter {

  import TB = TokenBucket
  import opened TimeUnits

  class BlockingTokenBucketRateLimiter {
    const capacity: int
    const refillTokens: int
    const refillPeriodMillis: int
    var availableTokens: int
    var lastRefillTime: int

    function Limits(): TB.Limits {
      TB.Limits(capacity, refillTokens, refillPeriodMillis)
    }

    function Bucket(): TB.Bucket
      reads this
    {
      TB.Bucket(availableTokens, lastRefillTime)
    }

    /** The limiter's invariant: usable parameters, and never fewer than zero
        or more than `capacity` tokens. */
    ghost predicate Valid()
      reads this
    {
      Limits().Valid() && Bucket().Within(Limits())
    }

    /** The limiter starts full, with its refill period starting at `now`. */
    constructor (capacity: int, refillTokens: int, refillPeriod: int, timeUnit: TimeUnit, now: int)
      requires capacity >= 0 && refillTokens > 0
      requires IsLong(refillPeriod) && ToMillis(refillPeriod, timeUnit) > 0
      ensures Valid()
      ensures this.capacity == capacity && this.refillTokens == refillTokens
      ensures refillPeriodMillis == ToMillis(refillPeriod, timeUnit)
      ensures Bucket() == TB.Full(Limits(), now)
    {
      this.capacity := capacity;
      this.refillTokens := refillTokens;
      this.refillPeriodMillis := ToMillis(refillPeriod, timeUnit);
      this.availableTokens := capacity;
      this.lastRefillTime := now;
    }

    /** refillTokens() at clock reading `now`. */
    method RefillTokens(now: int)
      requires Valid()
      modifies this
      ensures Valid()
      ensures Bucket() == TB.Refill(Limits(), old(Bucket()), now)
    {
      var elapsed := now - lastRefillTime;
      if elapsed > refillPeriodMillis {
        var refillCount := elapsed / refillPeriodMillis;
        availableTokens := TB.Min(capacity, availableTokens + refillCount * refillTokens);
        lastRefillTime := now;
      }
    }

    /** calculateWaitTime(permits), reading the current token count. */
    method CalculateWaitTime(permits: int) returns (w: int)
      requires Valid()
      ensures w == TB.WaitTime(Limits(), availableTokens, permits)
    {
      if availableTokens >= permits {
        return 0;
      }
      var tokensNeeded := permits - availableTokens;
      var refillsNeeded := (tokensNeeded + refillTokens - 1) / refillTokens;
      w := refillsNeeded * refillPeriodMillis;
    }

    /** One iteration of the loop in acquire(permits), at clock reading `now`:
        under the lock it either debits the permits and reports Admitted, or
        leaves the refilled state as it is; then it reports the time it would
        sleep, computed from the state the locked part left. */
    method TryAcquire(permits: nat, now: int) returns (step: TB.Step)
      requires Valid()
      modifies this
      ensures Valid()
      ensures (Bucket(), step) == TB.Attempt(Limits(), old(Bucket()), permits, now)
    {
      RefillTokens(now);
      if availableTokens >= permits {
        availableTokens := availableTokens - permits;
        return TB.Admitted;
      }
      var w := CalculateWaitTime(permits);
      step := TB.Sleep(w);
    }

    /** acquire(permits): iterate until the permits are debited, taking the
        clock readings in `clock` one per iteration and collecting the sleeps
        between them. If the readings run out first, the caller is still
        blocked and `admitted` is false. */
    method Acquire(permits: nat, clock: seq<int>) returns (admitted: bool, sleeps: seq<int>)
      requires Valid()
      modifies this
      ensures Valid()
      ensures TB.Run(Bucket(), admitted, sleeps) == TB.RunAcquire(Limits(), old(Bucket()), permits, clock)
    {
      admitted, sleeps := false, [];
      var i := 0;
      while i < |clock|
        invariant 0 <= i <= |clock|
        invariant Valid()
        invariant TB.RunAcquire(Limits(), old(Bucket()), permits, clock) ==
                  TB.AfterSleeps(sleeps, TB.RunAcquire(Limits(), Bucket(), permits, clock[i..]))
      {
        TB.RunAcquireUnfold(Limits(), Bucket(), permits, clock[i..]);
        assert clock[i..][1..] == clock[i + 1..];
        var step := TryAcquire(permits, clock[i]);
        if step == TB.Admitted {
          admitted := true;
          return;
        }
        TB.AfterSleepsAppend(sleeps, step.millis, TB.RunAcquire(Limits(), Bucket(), permits, clock[i + 1..]));
        sleeps := sleeps + [step.millis];
        i := i + 1;
      }
      assert clock[i..] == [];
    }
  }
}
