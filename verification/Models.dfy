/** Jobs and their retry policies: validation, the delay before each retry, the backoff of a whole run. */
module Models {
  import opened Common

  datatype Backoff = Fixed | Exponential

  datatype PolicyError = TooFewAttempts | NegativeBase | MaxBelowBase

  /** Delays are durations in microseconds. */
  datatype RetryPolicy = RetryPolicy(maxAttempts: int, backoff: Backoff, base: Time, max: Time) {
    function Validate(): Result<RetryPolicy, PolicyError> {
      if maxAttempts < 1 then Err(TooFewAttempts)
      else if base < 0 then Err(NegativeBase)
      else if max < base then Err(MaxBelowBase)
      else Ok(this)
    }

    predicate Valid() { Validate().Ok? }

    predicate AllowsRetry(attempt: int) { attempt < maxAttempts }
  }

  datatype Job = Job(id: string, enabled: bool, policy: RetryPolicy)

  function Pow2(n: nat): nat {
    if n == 0 then 1 else 2 * Pow2(n - 1)
  }

  function Raw(p: RetryPolicy, attempt: nat): Time
    requires attempt >= 1
  {
    if p.backoff.Fixed? then p.base else p.base * Pow2(attempt - 1)
  }

  /** Microseconds between a failed attempt and its retry; attempts count from one. */
  function DelayForAttempt(p: RetryPolicy, attempt: int): Option<Time> {
    if attempt < 1 then None
    else Some(if Raw(p, attempt) < p.max then Raw(p, attempt) else p.max)
  }

  function Delay(p: RetryPolicy, attempt: nat): Time
    requires attempt >= 1
  {
    DelayForAttempt(p, attempt).value
  }

  /** The time a run waits in all when it fails `n` times and is retried each time. */
  function TotalBackoff(p: RetryPolicy, n: nat): Time {
    if n == 0 then 0 else TotalBackoff(p, n - 1) + Delay(p, n)
  }

  lemma {:induction false} RawMonotone(p: RetryPolicy, m: nat, n: nat)
    requires p.Valid() && 1 <= m <= n
    ensures p.base <= Raw(p, m) <= Raw(p, n)
    decreases n
  {
    if m < n {
      RawMonotone(p, m, n - 1);
    } else if m > 1 {
      RawMonotone(p, m - 1, m - 1);
      RawGrows(p, m - 1);
    }
    if m < n {
      RawGrows(p, n - 1);
    }
  }

  lemma {:induction false} RawGrows(p: RetryPolicy, n: nat)
    requires p.Valid() && n >= 1
    ensures Raw(p, n) <= Raw(p, n + 1)
  {
    assert Pow2(n) == 2 * Pow2(n - 1);
    assert p.base * Pow2(n) == 2 * (p.base * Pow2(n - 1));
    assert p.base * Pow2(n - 1) >= 0;
  }

  /** Delays lie between base and cap, never decrease, and stay at the cap once they reach it. */
  lemma {:induction false} DelaysAreBoundedAndMonotone(p: RetryPolicy, m: nat, n: nat)
    requires p.Valid() && 1 <= m <= n
    ensures p.base <= Delay(p, m) <= Delay(p, n) <= p.max
    ensures Delay(p, m) == p.max ==> Delay(p, n) == p.max
    ensures p.backoff.Fixed? ==> Delay(p, n) == p.base
  {
    RawMonotone(p, m, n);
  }

  /** The first delay is the base; then each is the one before, or its double, up to the cap. */
  lemma {:induction false} DelaysExactly(p: RetryPolicy, n: nat)
    requires p.Valid() && n >= 1
    ensures DelayForAttempt(p, 0).None? && Delay(p, 1) == p.base
    ensures p.backoff.Fixed? ==> Delay(p, n + 1) == Delay(p, n)
    ensures p.backoff.Exponential? ==>
      Delay(p, n + 1) == if 2 * Delay(p, n) < p.max then 2 * Delay(p, n) else p.max
  {
    assert Pow2(n) == 2 * Pow2(n - 1);
    assert p.base * Pow2(n) == 2 * (p.base * Pow2(n - 1));
    RawMonotone(p, n, n + 1);
  }

  lemma {:induction false} TotalBackoffIsCapped(p: RetryPolicy, n: nat)
    requires p.Valid()
    ensures 0 <= TotalBackoff(p, n) <= n * p.max
    ensures p.backoff.Fixed? ==> TotalBackoff(p, n) == n * p.base
  {
    if n > 0 {
      TotalBackoffIsCapped(p, n - 1);
      DelaysAreBoundedAndMonotone(p, n, n);
      assert n * p.max == (n - 1) * p.max + p.max && n * p.base == (n - 1) * p.base + p.base;
    }
  }

  /** Before the cap an exponential policy has waited `base * (2^n - 1)`; the cap can only shorten that. */
  lemma {:induction false} ExponentialBackoffTotal(p: RetryPolicy, n: nat)
    requires p.Valid() && p.backoff.Exponential?
    ensures TotalBackoff(p, n) <= p.base * (Pow2(n) - 1)
    ensures n == 0 || Raw(p, n) <= p.max ==> TotalBackoff(p, n) == p.base * (Pow2(n) - 1)
  {
    if n > 0 {
      ExponentialBackoffTotal(p, n - 1);
      if n > 1 {
        RawMonotone(p, n - 1, n);
      }
      Doubling(p.base, Pow2(n - 1));
    }
  }

  lemma {:induction false} Doubling(b: int, x: int)
    ensures b * (2 * x - 1) == b * (x - 1) + b * x
  {
  }

  lemma {:induction false} TimesMonotone(m: nat, n: nat, x: nat)
    requires m <= n
    ensures m * x <= n * x
  {
  }

  /** A run retried until its policy gives up waits at most `(max_attempts - 1) * max` in all. */
  lemma {:induction false} RunBackoffIsBounded(p: RetryPolicy, failures: nat)
    requires p.Valid() && (failures > 0 ==> p.AllowsRetry(failures))
    ensures failures < p.maxAttempts && TotalBackoff(p, failures) <= (p.maxAttempts - 1) * p.max
  {
    TotalBackoffIsCapped(p, failures);
    TimesMonotone(failures, p.maxAttempts - 1, p.max);
  }
}
