/** The wait before a retry: the loops of `retryDelay` compute a closed form. */
module Backoff {
  import opened Types

  const INT64_MAX: int := 0x7fff_ffff_ffff_ffff

  function Pow2(n: nat): (p: int)
    ensures p >= 1
  {
    if n == 0 then 1 else 2 * Pow2(n - 1)
  }

  function Capped(maximum: int, value: int): int { if value < maximum then value else maximum }

  /** `k` increments on top of the initial delay, up to the maximum. */
  function LinearForm(initial: int, increment: int, maximum: int, k: nat): int {
    Capped(maximum, initial + k * increment)
  }

  /** `k` doublings of the initial delay, up to the maximum. */
  function DoublingForm(initial: int, maximum: int, k: nat): int {
    Capped(maximum, initial * Pow2(k))
  }

  function Raised(initial: int, increment: int, k: nat): (d: int)
    ensures increment >= 0 ==> d >= initial
  {
    if k == 0 then initial else Raised(initial, increment, k - 1) + increment
  }

  function Doubled(initial: int, k: nat): (d: int)
    ensures initial >= 0 ==> d >= initial
  {
    if k == 0 then initial else 2 * Doubled(initial, k - 1)
  }

  /** The delay in nanoseconds; a count below 1 reads as 1. */
  function Delay(n: int, cfg: Config): (d: int)
    ensures ValidConfig(cfg) ==> d >= SECOND
  {
    var k: nat := if n < 1 then 0 else n - 1;
    var initial := cfg.initialDelaySeconds * SECOND;
    var maximum := cfg.maxDelaySeconds * SECOND;
    match cfg.delayStrategy
    case Fixed => initial
    case Linear => Capped(maximum, Raised(initial, cfg.delayIncrementSeconds * SECOND, k))
    case Exponential => Capped(maximum, Doubled(initial, k))
  }

  lemma {:induction false} RaisedIs(initial: int, increment: int, k: nat)
    ensures Raised(initial, increment, k) == initial + k * increment
  {
    if k > 0 {
      RaisedIs(initial, increment, k - 1);
      assert k * increment == (k - 1) * increment + increment;
    }
  }

  lemma {:induction false} DoubledIs(initial: int, k: nat)
    ensures Doubled(initial, k) == initial * Pow2(k)
  {
    if k > 0 {
      DoubledIs(initial, k - 1);
      assert initial * Pow2(k) == 2 * (initial * Pow2(k - 1));
    }
  }

  /** The delay without a loop: the same for every count, increments on top of the initial delay, or doublings of it. */
  function ClosedForm(n: int, cfg: Config): int {
    var k: nat := if n < 1 then 0 else n - 1;
    var initial, maximum := cfg.initialDelaySeconds * SECOND, cfg.maxDelaySeconds * SECOND;
    match cfg.delayStrategy
    case Fixed => initial
    case Linear => LinearForm(initial, cfg.delayIncrementSeconds * SECOND, maximum, k)
    case Exponential => DoublingForm(initial, maximum, k)
  }

  lemma DelayIs(n: int, cfg: Config)
    ensures Delay(n, cfg) == ClosedForm(n, cfg)
  {
    var k: nat := if n < 1 then 0 else n - 1;
    RaisedIs(cfg.initialDelaySeconds * SECOND, cfg.delayIncrementSeconds * SECOND, k);
    DoubledIs(cfg.initialDelaySeconds * SECOND, k);
  }

  lemma {:induction false} RaisedGrows(initial: int, increment: int, j: nat, k: nat)
    requires increment >= 0 && j <= k
    ensures Raised(initial, increment, j) <= Raised(initial, increment, k)
  {
    if j < k { RaisedGrows(initial, increment, j, k - 1); }
  }

  lemma {:induction false} DoubledGrows(initial: int, j: nat, k: nat)
    requires initial >= 0 && j <= k
    ensures Doubled(initial, j) <= Doubled(initial, k)
  {
    if j < k { DoubledGrows(initial, j, k - 1); }
  }

  /** Waiting never gets shorter as the count grows. */
  lemma DelayMonotone(m: int, n: int, cfg: Config)
    requires ValidConfig(cfg) && m <= n
    ensures Delay(m, cfg) <= Delay(n, cfg)
  {
    var j: nat, k: nat := if m < 1 then 0 else m - 1, if n < 1 then 0 else n - 1;
    RaisedGrows(cfg.initialDelaySeconds * SECOND, cfg.delayIncrementSeconds * SECOND, j, k);
    DoubledGrows(cfg.initialDelaySeconds * SECOND, j, k);
  }

  method LinearDelay(initial: int, increment: int, maximum: int, count: int) returns (delay: int)
    requires 1 <= initial <= maximum <= INT64_MAX && 1 <= increment && 1 <= count
    ensures delay == Capped(maximum, Raised(initial, increment, count - 1))
    ensures initial <= delay <= maximum
  {
    delay := initial;
    var attempt := 1;
    while attempt < count && delay < maximum
      invariant 1 <= attempt <= count
      invariant delay == Raised(initial, increment, attempt - 1)
      invariant initial <= delay <= maximum
    {
      if increment >= maximum - delay {
        RaisedGrows(initial, increment, attempt, count - 1);
        return maximum;
      }
      delay := delay + increment;
      assert delay <= INT64_MAX;
      attempt := attempt + 1;
    }
    RaisedGrows(initial, increment, attempt - 1, count - 1);
  }

  method DoublingDelay(initial: int, maximum: int, count: int) returns (delay: int)
    requires 1 <= initial <= maximum <= INT64_MAX && maximum % 2 == 0 && 1 <= count
    ensures delay == Capped(maximum, Doubled(initial, count - 1))
    ensures initial <= delay <= maximum
  {
    delay := initial;
    var i := 1;
    while i < count
      invariant 1 <= i <= count
      invariant delay == Doubled(initial, i - 1)
      invariant initial <= delay <= maximum
    {
      if delay >= maximum / 2 {
        DoubledGrows(initial, i, count - 1);
        delay := maximum;
        break;
      }
      delay := delay * 2;
      assert delay <= INT64_MAX;
      i := i + 1;
    }
    if delay > maximum {
      return maximum;
    }
  }

  /** `retryDelay`: no intermediate value leaves a 64-bit duration, and the result is the closed form. */
  method RetryDelay(n: int, cfg: Config) returns (delay: int)
    requires ValidConfig(cfg)
    ensures delay == Delay(n, cfg)
    ensures SECOND <= delay <= INT64_MAX
    ensures !cfg.delayStrategy.Fixed? ==> delay <= cfg.maxDelaySeconds * SECOND
  {
    var count := if n < 1 then 1 else n;
    var initial, maximum := cfg.initialDelaySeconds * SECOND, cfg.maxDelaySeconds * SECOND;
    match cfg.delayStrategy
    case Fixed => delay := initial;
    case Linear => delay := LinearDelay(initial, cfg.delayIncrementSeconds * SECOND, maximum, count);
    case Exponential => delay := DoublingDelay(initial, maximum, count);
  }
}
