/** The token-bucket arithmetic of BlockingTokenBucketRateLimiter, on values.

    A bucket holds `available` tokens and remembers `lastRefill`, the clock
    reading (milliseconds) of its last refill. Refilling happens only when
    strictly more than one refill period has elapsed, credits
    `refillTokens` per whole elapsed period and never fills past `capacity`.
    One iteration of `acquire` refills, then either debits the permits or
    reports how long the caller would sleep before looking again.

    The class in module RateLimiter updates its fields exactly as the
    functions here say; the properties of the limiter are lemmas here. */
module TokenBucket {

  import TimeUnits

  /** The fixed parameters of a limiter. */
  datatype Limits = Limits(capacity: int, refillTokens: int, refillPeriodMillis: int) {
    predicate Valid() { capacity >= 0 && refillTokens > 0 && refillPeriodMillis > 0 }
  }

  /** The mutable part of a limiter. */
  datatype Bucket = Bucket(available: int, lastRefill: int) {
    predicate Within(lim: Limits) { 0 <= available <= lim.capacity }
  }

  /** The result of one iteration of the acquire loop. */
  datatype Step = Admitted | Sleep(millis: int)

  /** What a run of the acquire loop over a sequence of clock readings leaves:
      the bucket, whether the permits were granted, and the sleeps taken. */
  datatype Run = Run(bucket: Bucket, admitted: bool, sleeps: seq<int>)

  /** One iteration of some caller's acquire loop, taken at clock reading `at`. */
  datatype Call = Call(at: int, permits: nat)

  /** A limiter just constructed at clock reading `now`: full, with its
      refill period starting then. */
  function Full(lim: Limits, now: int): (b: Bucket)
    requires lim.Valid()
    ensures b.Within(lim) && b.available == lim.capacity && b.lastRefill == now
  {
    Bucket(lim.capacity, now)
  }

  function Min(a: int, b: int): int { if a <= b then a else b }

  /** The number of whole refill periods in a non-negative elapsed time. */
  function WholePeriods(lim: Limits, elapsed: int): (k: nat)
    requires lim.Valid() && elapsed >= 0
    ensures k * lim.refillPeriodMillis <= elapsed < (k + 1) * lim.refillPeriodMillis
  {
    var p := lim.refillPeriodMillis;
    assert elapsed == (elapsed / p) * p + elapsed % p;
    assert (elapsed / p + 1) * p == (elapsed / p) * p + p;
    elapsed / p
  }

  /** refillTokens(): a refill fires only when more than one whole period has
      elapsed since the last one; it then credits every whole elapsed period,
      caps the result at the capacity and restarts the period at `now`. */
  function Refill(lim: Limits, b: Bucket, now: int): (r: Bucket)
    requires lim.Valid()
    ensures now - b.lastRefill <= lim.refillPeriodMillis <==> r == b
    ensures now - b.lastRefill > lim.refillPeriodMillis ==>
              && r.lastRefill == now
              && r.available == Min(lim.capacity,
                                    b.available + WholePeriods(lim, now - b.lastRefill) * lim.refillTokens)
    ensures b.Within(lim) ==> r.Within(lim) && b.available <= r.available
  {
    var elapsed := now - b.lastRefill;
    if elapsed > lim.refillPeriodMillis then
      var k := WholePeriods(lim, elapsed);
      assert k * lim.refillTokens >= 0;
      Bucket(Min(lim.capacity, b.available + k * lim.refillTokens), now)
    else
      b
  }

  /** The number of refills whose tokens cover the shortfall of `available`
      against `permits`: the least natural `k` with `k * refillTokens` at least
      the shortfall (zero when there is none). */
  function RefillsNeeded(lim: Limits, available: int, permits: int): (k: nat)
    requires lim.Valid()
    ensures k * lim.refillTokens >= permits - available
    ensures k > 0 ==> (k - 1) * lim.refillTokens < permits - available
  {
    if available >= permits then 0
    else
      var t := lim.refillTokens;
      var n := permits - available + t - 1;
      assert n == (n / t) * t + n % t && 0 <= n % t < t;
      assert (n / t - 1) * t == (n / t) * t - t;
      n / t
  }

  /** calculateWaitTime(permits): nothing when enough tokens are there,
      otherwise the whole number of refill periods the missing tokens need. */
  function WaitTime(lim: Limits, available: int, permits: int): (w: int)
    requires lim.Valid()
    ensures w == RefillsNeeded(lim, available, permits) * lim.refillPeriodMillis
    ensures w == 0 <==> available >= permits
    ensures available < permits ==> w >= lim.refillPeriodMillis
  {
    if available >= permits then 0
    else
      var k := RefillsNeeded(lim, available, permits);
      assert k >= 1;
      assert k * lim.refillPeriodMillis == (k - 1) * lim.refillPeriodMillis + lim.refillPeriodMillis;
      assert (k - 1) * lim.refillPeriodMillis >= 0;
      k * lim.refillPeriodMillis
  }

  /** One iteration of acquire(permits) at clock reading `now`: refill, then
      debit exactly `permits` if that many are available, or else leave the
      refilled bucket alone and sleep for the wait time. */
  function Attempt(lim: Limits, b: Bucket, permits: nat, now: int): (r: (Bucket, Step))
    requires lim.Valid()
    ensures var refilled := Refill(lim, b, now);
            && (r.1 == Admitted <==> refilled.available >= permits)
            && (r.1 == Admitted ==>
                  && r.0.lastRefill == refilled.lastRefill
                  && r.0.available == refilled.available - permits >= 0)
            && (r.1.Sleep? ==>
                  && r.0 == refilled
                  && r.1.millis == WaitTime(lim, refilled.available, permits) > 0)
    ensures b.Within(lim) ==> r.0.Within(lim)
  {
    var refilled := Refill(lim, b, now);
    if refilled.available >= permits then
      (refilled.(available := refilled.available - permits), Admitted)
    else
      (refilled, Sleep(WaitTime(lim, refilled.available, permits)))
  }

  /** The acquire loop over successive clock readings: it stops at the first
      admitted iteration; when the readings run out first, the caller is
      still waiting. */
  function RunAcquire(lim: Limits, b: Bucket, permits: nat, clock: seq<int>): (r: Run)
    requires lim.Valid()
    ensures r.admitted ==> |r.sleeps| < |clock|
    ensures !r.admitted ==> |r.sleeps| == |clock|
    ensures forall i :: 0 <= i < |r.sleeps| ==> r.sleeps[i] >= lim.refillPeriodMillis
    ensures b.Within(lim) ==> r.bucket.Within(lim)
    decreases |clock|
  {
    if clock == [] then Run(b, false, [])
    else
      var (b1, step) := Attempt(lim, b, permits, clock[0]);
      if step == Admitted then
        Run(b1, true, [])
      else
        var rest := RunAcquire(lim, b1, permits, clock[1..]);
        Run(rest.bucket, rest.admitted, [step.millis] + rest.sleeps)
  }

  /** A run preceded by the given sleeps. */
  function AfterSleeps(sleeps: seq<int>, r: Run): Run {
    Run(r.bucket, r.admitted, sleeps + r.sleeps)
  }

  lemma AfterSleepsAppend(sleeps: seq<int>, w: int, r: Run)
    ensures AfterSleeps(sleeps, AfterSleeps([w], r)) == AfterSleeps(sleeps + [w], r)
  {
    assert sleeps + ([w] + r.sleeps) == (sleeps + [w]) + r.sleeps;
  }

  /** One iteration of the loop, unfolded. */
  lemma RunAcquireUnfold(lim: Limits, b: Bucket, permits: nat, clock: seq<int>)
    requires lim.Valid() && clock != []
    ensures var (b1, step) := Attempt(lim, b, permits, clock[0]);
            RunAcquire(lim, b, permits, clock) ==
              if step == Admitted then Run(b1, true, [])
              else AfterSleeps([step.millis], RunAcquire(lim, b1, permits, clock[1..]))
  {
  }

  /** The locked parts (refill, then debit or refusal) of several callers'
      acquire iterations, serialised by the lock in the order given; the
      result is the final bucket and the total number of permits granted. */
  function Serve(lim: Limits, b: Bucket, calls: seq<Call>): (r: (Bucket, nat))
    requires lim.Valid()
    ensures b.Within(lim) ==> r.0.Within(lim)
    decreases |calls|
  {
    if calls == [] then (b, 0)
    else
      var (b1, step) := Attempt(lim, b, calls[0].permits, calls[0].at);
      var rest := Serve(lim, b1, calls[1..]);
      (rest.0, rest.1 + (if step == Admitted then calls[0].permits else 0))
  }

  // ---------------------------------------------------------------------
  // Properties of the limiter

  /** A freshly built limiter grants any request it has capacity for at its
      first iteration, whatever the clock reads. */
  lemma FreshBucketAdmits(lim: Limits, created: int, permits: nat, now: int)
    requires lim.Valid() && permits <= lim.capacity
    ensures Attempt(lim, Full(lim, created), permits, now).1 == Admitted
    ensures RunAcquire(lim, Full(lim, created), permits, [now]).admitted
  {
  }

  /** A caller that sleeps for longer than the returned wait time, with no one
      else taking tokens in between, is admitted at its next iteration: the
      wait time is enough as long as the clock has moved strictly past it. */
  lemma {:induction false} SleepSuffices(lim: Limits, b: Bucket, permits: nat, now: int, later: int)
    requires lim.Valid() && b.Within(lim) && permits <= lim.capacity
    requires b.lastRefill <= now
    requires Attempt(lim, b, permits, now).1.Sleep?
    requires later - now > Attempt(lim, b, permits, now).1.millis
    ensures Attempt(lim, Attempt(lim, b, permits, now).0, permits, later).1 == Admitted
  {
    var p, t := lim.refillPeriodMillis, lim.refillTokens;
    var b1 := Refill(lim, b, now);
    assert Attempt(lim, b, permits, now).0 == b1;
    var k := RefillsNeeded(lim, b1.available, permits);
    var w := WaitTime(lim, b1.available, permits);
    assert w == k * p && k >= 1;
    assert b1.lastRefill <= now;
    var elapsed := later - b1.lastRefill;
    assert elapsed > k * p;
    assert k * p == (k - 1) * p + p && (k - 1) * p >= 0;
    assert elapsed > p;
    var n := WholePeriods(lim, elapsed);
    // n whole periods fit in elapsed, which exceeds k periods, so n >= k
    if n < k {
      TimeUnits.MulMono(n + 1, k, p);
      assert false;
    }
    TimeUnits.MulMono(k, n, t);
    var b2 := Refill(lim, b1, later);
    assert b2.available == Min(lim.capacity, b1.available + n * t);
    assert b1.available + n * t >= permits;
  }

  /** With monotone clock readings, a request the limiter has capacity for is
      admitted no later than the second iteration when the caller really
      sleeps past the first wait time. */
  lemma {:induction false} AdmittedAfterOneSleep(lim: Limits, b: Bucket, permits: nat, clock: seq<int>)
    requires lim.Valid() && b.Within(lim) && permits <= lim.capacity
    requires |clock| >= 2 && b.lastRefill <= clock[0]
    requires Attempt(lim, b, permits, clock[0]).1.Sleep? ==>
               clock[1] - clock[0] > Attempt(lim, b, permits, clock[0]).1.millis
    ensures RunAcquire(lim, b, permits, clock).admitted
    ensures |RunAcquire(lim, b, permits, clock).sleeps| <= 1
  {
    var (b1, step) := Attempt(lim, b, permits, clock[0]);
    if step.Sleep? {
      SleepSuffices(lim, b, permits, clock[0], clock[1]);
      assert clock[1..][0] == clock[1];
      assert RunAcquire(lim, b1, permits, clock[1..]).admitted;
      assert RunAcquire(lim, b1, permits, clock[1..]).sleeps == [];
    }
  }

  /** Refill needs strictly more than a period: a caller that wakes exactly
      when the wait time has elapsed, right after a refill, finds nothing
      credited and is sent to sleep a second time. */
  lemma ExactWaitIsNotEnough()
    ensures var lim := Limits(1, 1, 1000);
            var first := Attempt(lim, Bucket(0, 0), 1, 0);
            && first.1 == Sleep(1000)
            && Attempt(lim, first.0, 1, 0 + first.1.millis).1 == Sleep(1000)
  {
  }

  /** A request for more permits than the capacity is never admitted, however
      long the caller waits. */
  lemma {:induction false} NeverAdmitsBeyondCapacity(lim: Limits, b: Bucket, permits: nat, clock: seq<int>)
    requires lim.Valid() && b.Within(lim) && permits > lim.capacity
    ensures !RunAcquire(lim, b, permits, clock).admitted
    decreases |clock|
  {
    if clock != [] {
      var b1 := Attempt(lim, b, permits, clock[0]).0;
      NeverAdmitsBeyondCapacity(lim, b1, permits, clock[1..]);
    }
  }

  /** While no refill fires (every iteration comes within one period of the
      last refill), the limiter grants at most the tokens it holds. */
  lemma {:induction false} ServeWithoutRefill(lim: Limits, b: Bucket, calls: seq<Call>)
    requires lim.Valid() && b.Within(lim)
    requires forall i :: 0 <= i < |calls| ==> calls[i].at - b.lastRefill <= lim.refillPeriodMillis
    ensures Serve(lim, b, calls).1 <= b.available
    ensures Serve(lim, b, calls).0.lastRefill == b.lastRefill
    decreases |calls|
  {
    if calls != [] {
      var (b1, step) := Attempt(lim, b, calls[0].permits, calls[0].at);
      assert Refill(lim, b, calls[0].at) == b;
      assert b1.lastRefill == b.lastRefill;
      assert forall i :: 0 <= i < |calls[1..]| ==> calls[1..][i] == calls[i + 1];
      ServeWithoutRefill(lim, b1, calls[1..]);
    }
  }

  /** Within any window of one refill period, at most one refill fires, so
      the limiter grants at most the tokens it held at the start plus one
      capacity: never more than twice the capacity. */
  lemma {:induction false} ServeWithinOnePeriod(lim: Limits, b: Bucket, calls: seq<Call>, from: int)
    requires lim.Valid() && b.Within(lim)
    requires forall i :: 0 <= i < |calls| ==> from <= calls[i].at <= from + lim.refillPeriodMillis
    ensures Serve(lim, b, calls).1 <= b.available + lim.capacity <= 2 * lim.capacity
    decreases |calls|
  {
    if calls != [] {
      var c := calls[0];
      var (b1, step) := Attempt(lim, b, c.permits, c.at);
      var rest := calls[1..];
      assert forall i :: 0 <= i < |rest| ==> rest[i] == calls[i + 1];
      if c.at - b.lastRefill > lim.refillPeriodMillis {
        // the refill restarts the period at c.at >= from: no second refill
        assert b1.lastRefill == c.at;
        ServeWithoutRefill(lim, b1, rest);
      } else {
        assert Refill(lim, b, c.at) == b;
        ServeWithinOnePeriod(lim, b1, rest, from);
      }
    }
  }

  /** Twice the capacity is reached: a full bucket of one token, drained at
      the end of its period and refilled one millisecond later, grants two
      permits within a single millisecond. */
  lemma BurstAcrossRefill()
    ensures Serve(Limits(1, 1, 1000), Bucket(1, 0), [Call(1000, 1), Call(1001, 1)]).1 == 2
  {
  }
}
