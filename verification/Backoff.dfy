/** The retry delay of a failed abort, in Go's 64-bit durations. */
module Backoff {
  import opened Base
  import opened Words

  datatype Config = Config(maxAttempts: int, initialDelay: int, maxDelay: int) {
    /** What NewAbortReconciler leaves after filling in defaults. */
    predicate Valid() {
      && 0 < maxAttempts <= MAX_INT64
      && 0 < initialDelay <= MAX_INT64
      && 0 < maxDelay <= MAX_INT64
    }
  }

  const SECOND := 1_000_000_000

  const DEFAULT := Config(10, SECOND, 300 * SECOND)

  /** `InitialDelay * (1 << (attempt - 1))`, capped by MaxDelay. */
  function Ceiling(cfg: Config, attempt: nat): int
    requires attempt >= 1
  {
    var ceiling := Wrap64(cfg.initialDelay * Wrap64(Mask(attempt - 1)));
    if ceiling > cfg.maxDelay then cfg.maxDelay else ceiling
  }

  /** rand.Int63n panics on an argument that is not positive. */
  predicate Panics(cfg: Config, attempt: nat)
    requires attempt >= 1
  {
    Wrap64(Ceiling(cfg, attempt) + 1) <= 0
  }

  /** The delay drawn from a random non-negative number, or None where the draw panics. */
  method NextDelay(cfg: Config, attempt: nat, random: nat) returns (delay: Option<int>)
    requires cfg.Valid() && attempt >= 1
    ensures delay.None? <==> Panics(cfg, attempt)
    ensures delay.Some? ==> 0 <= delay.value <= cfg.maxDelay
    ensures delay.Some? && Fits(cfg, attempt) ==> delay.value <= cfg.initialDelay * Mask(attempt - 1)
    ensures delay.Some? ==> delay.value <= Ceiling(cfg, attempt) && (random <= Ceiling(cfg, attempt) ==> delay.value == random)
    ensures delay.Some? && Fits(cfg, attempt) && random <= cfg.initialDelay * Mask(attempt - 1) && random <= cfg.maxDelay ==>
      delay.value == random
  {
    var ceiling := Ceiling(cfg, attempt);
    var n := Wrap64(ceiling + 1);
    if n <= 0 {
      return None;
    }
    if Fits(cfg, attempt) {
      CeilingIsExact(cfg, attempt);
    }
    assert n == ceiling + 1 && ceiling <= cfg.maxDelay;
    DrawnBelow(random, n);
    hide Ceiling, Fits, Wrap64, Mask;
    delay := Some(random % n);
  }

  lemma DrawnBelow(random: nat, n: int)
    requires n > 0
    ensures 0 <= random % n < n && (random < n ==> random % n == random)
  {
  }

  /** The exponential product still fits a duration. */
  predicate Fits(cfg: Config, attempt: nat)
    requires attempt >= 1
  {
    cfg.initialDelay * Mask(attempt - 1) <= MAX_INT64
  }

  lemma ShiftFits(cfg: Config, attempt: nat)
    requires cfg.Valid() && attempt >= 1 && Fits(cfg, attempt)
    ensures Wrap64(Mask(attempt - 1)) == Mask(attempt - 1)
  {
    ProductGrows(Mask(attempt - 1), 1, cfg.initialDelay);
  }

  /** Where the product fits, the ceiling is the documented minimum, and the draw panics only when that minimum
      is the largest duration there is. */
  lemma CeilingIsExact(cfg: Config, attempt: nat)
    requires cfg.Valid() && attempt >= 1 && Fits(cfg, attempt)
    ensures
      var product := cfg.initialDelay * Mask(attempt - 1);
      && Ceiling(cfg, attempt) == (if product > cfg.maxDelay then cfg.maxDelay else product)
      && 0 < Ceiling(cfg, attempt) <= cfg.maxDelay
      && (Panics(cfg, attempt) <==> product == MAX_INT64 && cfg.maxDelay == MAX_INT64)
  {
    ShiftFits(cfg, attempt);
  }

  lemma {:induction false} MaskGrows(j: nat, k: nat)
    requires j <= k
    ensures Mask(j) <= Mask(k)
    decreases k - j
  {
    if j < k {
      MaskGrows(j, k - 1);
    }
  }

  /** If the last retried attempt's product fits, so does every earlier one, and the ceilings never fall. */
  lemma CeilingIsMonotone(cfg: Config, n: nat, m: nat)
    requires cfg.Valid() && 1 <= n <= m && Fits(cfg, m)
    ensures Fits(cfg, n) && Ceiling(cfg, n) <= Ceiling(cfg, m)
  {
    MaskGrows(n - 1, m - 1);
    ProductGrows(cfg.initialDelay, Mask(n - 1), Mask(m - 1));
    CeilingIsExact(cfg, n);
    CeilingIsExact(cfg, m);
  }

  lemma ProductGrows(x: nat, a: nat, b: nat)
    requires a <= b
    ensures x * a <= x * b
  {
    assert x * b == x * a + x * (b - a);
    assert 0 <= x * (b - a);
  }

  /** A configuration is safe for every attempt that is retried exactly if it is for the last one. */
  lemma RetriesAreSafe(cfg: Config)
    requires cfg.Valid() && cfg.maxAttempts >= 2
    ensures
      var last := cfg.initialDelay * Mask(cfg.maxAttempts - 2);
      (forall n: nat :: 1 <= n < cfg.maxAttempts ==> Fits(cfg, n) && !Panics(cfg, n))
      <==> last <= MAX_INT64 && !(last == MAX_INT64 && cfg.maxDelay == MAX_INT64)
  {
    var last := cfg.initialDelay * Mask(cfg.maxAttempts - 2);
    if last <= MAX_INT64 && !(last == MAX_INT64 && cfg.maxDelay == MAX_INT64) {
      forall n: nat | 1 <= n < cfg.maxAttempts ensures Fits(cfg, n) && !Panics(cfg, n) {
        MaskGrows(n - 1, cfg.maxAttempts - 2);
        ProductGrows(cfg.initialDelay, Mask(n - 1), Mask(cfg.maxAttempts - 2));
        CeilingIsExact(cfg, n);
      }
    } else {
      var n := cfg.maxAttempts - 1;
      if Fits(cfg, n) {
        CeilingIsExact(cfg, n);
      }
      assert !(Fits(cfg, n) && !Panics(cfg, n));
    }
  }

  lemma DefaultIsSafe(n: nat)
    requires 1 <= n < DEFAULT.maxAttempts
    ensures Fits(DEFAULT, n) && !Panics(DEFAULT, n)
    ensures Ceiling(DEFAULT, n) == (if n <= 9 && Mask(n - 1) <= 300 then Mask(n - 1) * SECOND else 300 * SECOND)
  {
    assert Mask(4) == 16;
    MaskSum(4, 4);
    RetriesAreSafe(DEFAULT);
    CeilingIsExact(DEFAULT, n);
  }

  /** The largest duration as both delays fits without overflow and still panics on the first retry. */
  lemma LargestDelayPanics()
    ensures var cfg := Config(2, MAX_INT64, MAX_INT64); Fits(cfg, 1) && Panics(cfg, 1)
  {
    var cfg := Config(2, MAX_INT64, MAX_INT64);
    assert Mask(0) == 1;
    CeilingIsExact(cfg, 1);
  }

  /** A product that overflows can turn negative, and the draw panics. */
  lemma OverflowPanics()
    ensures var cfg := Config(3, 0x4000_0000_0000_0000, SECOND); !Fits(cfg, 2) && Panics(cfg, 2)
  {
    var cfg := Config(3, 0x4000_0000_0000_0000, SECOND);
    assert Mask(1) == 2;
    assert Ceiling(cfg, 2) == -MAX_INT64 - 1;
  }
}
