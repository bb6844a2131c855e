/** The times of internal/document/cleanup_worker.go: how long a claimed batch is
    leased, and when a failed task is tried again. Durations are 64-bit integers. */
module CleanupSchedule {

  const MAX_DURATION: int := 0x7fff_ffff_ffff_ffff

  newtype duration = d: int | -0x8000_0000_0000_0000 <= d <= 0x7fff_ffff_ffff_ffff

  /** What the constructor of the worker leaves in its configuration. */
  datatype Config = Config(batchSize: duration, operationTimeout: duration, initialBackoff: duration,
      maxBackoff: duration)

  predicate Valid(c: Config) {
    c.batchSize > 0 && c.operationTimeout > 0 && 0 < c.initialBackoff <= c.maxBackoff
  }

  function Min(a: int, b: int): int { if a <= b then a else b }

  function Pow2(n: nat): nat { if n == 0 then 1 else 2 * Pow2(n - 1) }

  /** Doubling from the first delay, up to the longest one. */
  function Backoff(c: Config, attempts: int): int
    requires Valid(c)
  {
    Min(c.initialBackoff as int * Pow2(if attempts < 1 then 0 else attempts - 1), c.maxBackoff as int)
  }

  function Lease(c: Config): int { Min(c.batchSize as int * c.operationTimeout as int, MAX_DURATION) }

  lemma {:induction false} Pow2Monotone(a: nat, b: nat)
    requires a <= b
    ensures Pow2(a) <= Pow2(b)
  {
    if a < b { Pow2Monotone(a, b - 1); }
  }

  lemma ScaledMonotone(x: nat, a: nat, b: nat)
    requires a <= b
    ensures x * a <= x * b
  {
  }

  lemma BackoffMonotone(c: Config, a: int, b: int)
    requires Valid(c) && a <= b
    ensures 0 < c.initialBackoff as int <= Backoff(c, a) <= Backoff(c, b) <= c.maxBackoff as int
  {
    var m := if a < 1 then 0 else a - 1;
    var n := if b < 1 then 0 else b - 1;
    Pow2Monotone(0, m);
    Pow2Monotone(m, n);
    ScaledMonotone(c.initialBackoff as int, Pow2(m), Pow2(n));
    ScaledMonotone(c.initialBackoff as int, 1, Pow2(m));
  }

  /** Each failure doubles the delay, up to the longest one. */
  lemma BackoffDoubles(c: Config, n: nat)
    requires Valid(c) && n >= 1
    ensures Backoff(c, 1) == c.initialBackoff as int
    ensures Backoff(c, n + 1) == (if 2 * Backoff(c, n) <= c.maxBackoff as int then 2 * Backoff(c, n)
                                  else c.maxBackoff as int)
  {
    Doubled(c.initialBackoff as int, n);
  }

  lemma Doubled(x: int, n: nat)
    requires n > 0
    ensures x * Pow2(n) == 2 * (x * Pow2(n - 1))
  {
    assert Pow2(n) == 2 * Pow2(n - 1);
  }

  /** The loop of `backoff`. Every intermediate value is a `duration`: none overflows. */
  method BackoffDelay(c: Config, attempts: int) returns (delay: duration)
    requires Valid(c)
    ensures delay as int == Backoff(c, attempts)
  {
    var count := if attempts < 1 then 1 else attempts;
    delay := c.initialBackoff;
    var i := 1;
    while i < count && delay < c.maxBackoff
      invariant 1 <= i <= count
      invariant 0 < delay <= c.maxBackoff
      invariant delay as int == c.initialBackoff as int * Pow2(i - 1)
    {
      Doubled(c.initialBackoff as int, i);
      if delay > c.maxBackoff / 2 {
        Pow2Monotone(i, count - 1);
        ScaledMonotone(c.initialBackoff as int, Pow2(i), Pow2(count - 1));
        return c.maxBackoff;
      }
      delay := delay * 2;
      i := i + 1;
    }
    Pow2Monotone(i - 1, count - 1);
    ScaledMonotone(c.initialBackoff as int, Pow2(i - 1), Pow2(count - 1));
    if delay > c.maxBackoff { delay := c.maxBackoff; }
  }

  /** The overflow check before the batch's lease is multiplied out. */
  method LeaseDuration(c: Config) returns (lease: duration)
    requires Valid(c)
    ensures lease as int == Lease(c)
  {
    lease := MAX_DURATION as duration;
    var limit := MAX_DURATION as duration / c.operationTimeout;
    assert limit as int * c.operationTimeout as int <= MAX_DURATION < (limit as int + 1) * c.operationTimeout as int;
    if c.batchSize <= limit {
      ScaledMonotone(c.operationTimeout as int, c.batchSize as int, limit as int);
      lease := c.operationTimeout * c.batchSize;
    } else {
      ScaledMonotone(c.operationTimeout as int, limit as int + 1, c.batchSize as int);
    }
  }

  /** A lease is positive, no longer than the batch could need, and shorter only where it is cut off at the
      longest duration. */
  lemma LeaseBounds(c: Config)
    requires Valid(c)
    ensures 0 < Lease(c) <= c.batchSize as int * c.operationTimeout as int && Lease(c) <= MAX_DURATION
    ensures Lease(c) < c.batchSize as int * c.operationTimeout as int ==> Lease(c) == MAX_DURATION
  {
    ScaledMonotone(c.operationTimeout as int, 1, c.batchSize as int);
  }

  predicate EndsInLease(c: Config, done: nat) { done * c.operationTimeout as int <= Lease(c) }

  /** A batch of tasks done one after the other, each within the operation's
      timeout, ends within the lease exactly when the lease is not cut off. */
  lemma LeaseCoversBatch(c: Config)
    requires Valid(c)
    ensures (forall done: nat :: done <= c.batchSize as int ==> EndsInLease(c, done))
       <==> c.batchSize as int * c.operationTimeout as int <= MAX_DURATION
  {
    var n: nat := c.batchSize as int;
    forall done: nat | done <= n && n * c.operationTimeout as int <= MAX_DURATION ensures EndsInLease(c, done) {
      ScaledMonotone(c.operationTimeout as int, done, n);
    }
    assert EndsInLease(c, n) <==> n * c.operationTimeout as int <= Lease(c);
  }

  /** A batch whose tasks all take less than the timeout ends before the lease does. */
  predicate LeaseLasts(c: Config) { c.batchSize as int * (c.operationTimeout as int - 1) < Lease(c) }

  /** So it is, unless the lease is cut off by more than one tick a task. */
  lemma LeaseLastsIff(c: Config)
    requires Valid(c)
    ensures LeaseLasts(c) <==> c.batchSize as int * c.operationTimeout as int - c.batchSize as int < MAX_DURATION
  {
    var b, t := c.batchSize as int, c.operationTimeout as int;
    assert b * (t - 1) == b * t - b;
  }
}
