/**
 The exponential backoff of both backends, over real numbers. The random draw is an argument: any multiplier within
 the jitter range.
 */
module RetryDelay {

  /** `base` doubled `n` times, that is, times 2 ** n. */
  function Doubled(base: real, n: nat): real {
    if n == 0 then base else 2.0 * Doubled(base, n - 1)
  }

  lemma {:induction false} DoubledGrows(base: real, m: nat, n: nat)
    requires base >= 0.0 && m <= n
    ensures 0.0 <= base <= Doubled(base, m) <= Doubled(base, n)
  {
    if m < n {
      DoubledGrows(base, m, n - 1);
    } else if m > 0 {
      DoubledGrows(base, m - 1, m - 1);
    }
  }

  function Min(a: real, b: real): real { if a <= b then a else b }

  const MAXIMUM_EXPONENT := 62

  /** `RetryPolicy`, as `__post_init__` lets it through. */
  datatype RetryPolicy = RetryPolicy(base: real, maximum: real, jitter: real)

  predicate Proper(policy: RetryPolicy) {
    policy.base > 0.0 && policy.maximum >= policy.base && 0.0 <= policy.jitter <= 1.0
  }

  function Exponent(attempt: int): nat
    requires attempt >= 1
  {
    if attempt - 1 <= MAXIMUM_EXPONENT then attempt - 1 else MAXIMUM_EXPONENT
  }

  /** The delay before jitter; the exponent is clamped so that the power stays representable. */
  function Backoff(policy: RetryPolicy, attempt: int): real
    requires attempt >= 1
  {
    Min(Doubled(policy.base, Exponent(attempt)), policy.maximum)
  }

  function Jittered(policy: RetryPolicy, attempt: int, multiplier: real): real
    requires attempt >= 1
  {
    Backoff(policy, attempt) * multiplier
  }

  /** `delay_seconds`. */
  function Delay(policy: RetryPolicy, attempt: int, multiplier: real): real
    requires attempt >= 1
  {
    Min(Jittered(policy, attempt, multiplier), policy.maximum)
  }

  lemma ProductsOrdered(a: real, b: real, c: real, d: real)
    requires 0.0 <= a <= c && 0.0 <= b <= d
    ensures 0.0 <= a * b <= c * d
  {
    assert 0.0 <= a * b;
    assert a * b <= c * b by { assert 0.0 <= (c - a) * b; }
    assert c * b <= c * d by { assert 0.0 <= c * (d - b); }
  }

  /** Whatever the draw, the delay is never negative, never above the maximum, and never below the jittered base. */
  lemma DelayIsBounded(policy: RetryPolicy, attempt: int, multiplier: real)
    requires Proper(policy) && attempt >= 1 && 1.0 - policy.jitter <= multiplier <= 1.0 + policy.jitter
    ensures 0.0 <= Delay(policy, attempt, multiplier) <= policy.maximum
    ensures policy.base * (1.0 - policy.jitter) <= Delay(policy, attempt, multiplier)
  {
    var kept := 1.0 - policy.jitter;
    DoubledGrows(policy.base, Exponent(attempt), Exponent(attempt));
    ProductsOrdered(policy.base, kept, Backoff(policy, attempt), multiplier);
    ProductsOrdered(policy.base, kept, policy.base, 1.0);
    assert policy.base * 1.0 == policy.base;
    assert policy.base * kept <= policy.maximum;
  }

  /** The first delay is the base, and without jitter every delay is the backoff. */
  lemma FirstDelayIsBase(policy: RetryPolicy, attempt: int)
    requires Proper(policy) && attempt >= 1
    ensures Backoff(policy, 1) == policy.base && Delay(policy, 1, 1.0) == policy.base
    ensures Delay(policy, attempt, 1.0) == Backoff(policy, attempt)
  {
    assert Jittered(policy, attempt, 1.0) == Backoff(policy, attempt);
    assert Jittered(policy, 1, 1.0) == Backoff(policy, 1);
  }

  /** The draw scales the backoff, and the maximum cuts off what would go beyond it. */
  lemma DelayFollowsDraw(policy: RetryPolicy, attempt: int, multiplier: real)
    requires Proper(policy) && attempt >= 1 && 1.0 - policy.jitter <= multiplier <= 1.0 + policy.jitter
    ensures var backoff, delay := Backoff(policy, attempt), Delay(policy, attempt, multiplier);
            && (multiplier <= 1.0 ==> delay == backoff * multiplier)
            && (multiplier >= 1.0 ==> backoff <= delay <= backoff * multiplier)
            && (delay < policy.maximum ==> delay == backoff * multiplier)
  {
    DoubledGrows(policy.base, Exponent(attempt), Exponent(attempt));
    CappedScaling(Backoff(policy, attempt), multiplier, policy.maximum);
    hide Backoff, Doubled, Exponent;
  }

  lemma CappedScaling(x: real, multiplier: real, maximum: real)
    requires 0.0 <= x <= maximum
    ensures multiplier <= 1.0 ==> Min(x * multiplier, maximum) == x * multiplier
    ensures multiplier >= 1.0 ==> x <= Min(x * multiplier, maximum) <= x * multiplier
    ensures Min(x * multiplier, maximum) < maximum ==> Min(x * multiplier, maximum) == x * multiplier
  {
    if multiplier <= 1.0 {
      assert 0.0 <= x * (1.0 - multiplier);
    } else {
      assert 0.0 <= x * (multiplier - 1.0);
    }
  }

  /** Before jitter a later attempt never waits less, and waits twice as long until the maximum is reached. */
  lemma BackoffDoublesUntilMaximum(policy: RetryPolicy, attempt: int)
    requires Proper(policy) && attempt >= 1
    ensures Backoff(policy, attempt) <= Backoff(policy, attempt + 1)
    ensures attempt <= 62 ==> Backoff(policy, attempt + 1) == Min(2.0 * Backoff(policy, attempt), policy.maximum)
    ensures attempt >= 63 ==> Backoff(policy, attempt + 1) == Backoff(policy, attempt)
  {
    DoubledGrows(policy.base, Exponent(attempt), Exponent(attempt + 1));
    if attempt <= MAXIMUM_EXPONENT {
      assert Doubled(policy.base, attempt) == 2.0 * Doubled(policy.base, attempt - 1);
    }
  }

  /** The backoff without the clamp. */
  function Unclamped(policy: RetryPolicy, attempt: int): real
    requires attempt >= 1
  {
    Min(Doubled(policy.base, attempt - 1), policy.maximum)
  }

  ghost predicate ClampIsInvisible(policy: RetryPolicy) {
    forall attempt: int :: attempt >= 1 ==> Backoff(policy, attempt) == Unclamped(policy, attempt)
  }

  /** Beyond exponent `top` the minimum stays what it is at `top`, if the maximum has been reached there. */
  lemma ReachedStaysReached(base: real, maximum: real, top: nat, n: nat)
    requires base > 0.0 && top <= n && maximum <= Doubled(base, top)
    ensures Min(Doubled(base, n), maximum) == Min(Doubled(base, top), maximum)
  {
    DoubledGrows(base, top, n);
  }

  /** If not, one more doubling shows. */
  lemma UnreachedShows(base: real, maximum: real, top: nat)
    requires base > 0.0 && maximum > Doubled(base, top)
    ensures Min(Doubled(base, top + 1), maximum) != Min(Doubled(base, top), maximum)
  {
    DoubledGrows(base, top, top);
    assert Doubled(base, top + 1) == 2.0 * Doubled(base, top);
  }

  /** Clamping the exponent changes no delay exactly when the maximum is reached by then. */
  lemma ClampInvisibleIff(policy: RetryPolicy)
    requires Proper(policy)
    ensures ClampIsInvisible(policy) <==> policy.maximum <= Doubled(policy.base, 62)
  {
    hide Doubled;
    if policy.maximum <= Doubled(policy.base, MAXIMUM_EXPONENT) {
      forall attempt: int | attempt >= 1 ensures Backoff(policy, attempt) == Unclamped(policy, attempt) {
        if attempt - 1 > MAXIMUM_EXPONENT {
          ReachedStaysReached(policy.base, policy.maximum, MAXIMUM_EXPONENT, attempt - 1);
        }
      }
    } else {
      UnreachedShows(policy.base, policy.maximum, MAXIMUM_EXPONENT);
      assert Backoff(policy, MAXIMUM_EXPONENT + 2) != Unclamped(policy, MAXIMUM_EXPONENT + 2);
    }
  }

  /** `rounded` is the integer `round` may give for `x`: ties may go either way. */
  predicate Rounds(x: real, rounded: int) { x - 0.5 <= rounded as real <= x + 0.5 }

  const CLOUDFLARE_POLICY := RetryPolicy(1.0, 60.0, 0.25)

  /** `DeliveryService.retry_delay_seconds` on what `round` gave. */
  function QueueDelay(rounded: int): int {
    var capped := if rounded <= 60 then rounded else 60;
    if capped >= 1 then capped else 1
  }

  function Distance(a: int, b: int): nat { if a <= b then b - a else a - b }

  /** Of the whole seconds from one to sixty the queue delay is the one nearest to the rounded figure. */
  lemma QueueDelayIsNearest(rounded: int, k: int)
    requires 1 <= k <= 60
    ensures 1 <= QueueDelay(rounded) <= 60
    ensures Distance(QueueDelay(rounded), rounded) <= Distance(k, rounded)
  {
  }

  /**
   The queue delay is the Redis delay with the same figures to the nearest second: between one and sixty, and never
   further than half a second from it.
   */
  lemma QueueDelayIsRoundedBackoff(attempt: int, multiplier: real, rounded: int)
    requires attempt >= 1 && 0.75 <= multiplier <= 1.25
    requires Rounds(Jittered(CLOUDFLARE_POLICY, attempt, multiplier), rounded)
    ensures 1 <= QueueDelay(rounded) <= 60
    ensures var delay := Delay(CLOUDFLARE_POLICY, attempt, multiplier);
            delay - 0.5 <= QueueDelay(rounded) as real <= delay + 0.5
  {
    NearestSecond(CLOUDFLARE_POLICY, attempt, multiplier, rounded);
  }

  lemma NearestSecond(policy: RetryPolicy, attempt: int, multiplier: real, rounded: int)
    requires policy.base == 1.0 && policy.maximum == 60.0 && policy.jitter == 0.25
    requires attempt >= 1 && 0.75 <= multiplier <= 1.25 && Rounds(Jittered(policy, attempt, multiplier), rounded)
    ensures var delay := Delay(policy, attempt, multiplier);
            delay - 0.5 <= QueueDelay(rounded) as real <= delay + 0.5
  {
    DelayIsBounded(policy, attempt, multiplier);
    var product := Jittered(policy, attempt, multiplier);
    var delay := Delay(policy, attempt, multiplier);
    assert delay == Min(product, policy.maximum) && delay >= 0.75;
    Nearest(product, delay, rounded);
  }

  lemma Nearest(product: real, delay: real, rounded: int)
    requires delay == Min(product, 60.0) && delay >= 0.75 && Rounds(product, rounded)
    ensures delay - 0.5 <= QueueDelay(rounded) as real <= delay + 0.5
  {
  }
}
