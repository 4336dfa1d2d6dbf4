/** Retry delays: bounded exponential backoff with jitter, and server hints (app/jobs/processor.py). */
module Backoff {
  import opened Prelude

  datatype Settings = Settings(base: real, maximum: real, jitter: real) {
    /** The bounds that app/config.py enforces when the settings are loaded. */
    predicate Valid() {
      0.0 < base <= maximum && 0.0 <= jitter
    }
  }

  /** What a failed call says about when to come back. */
  datatype Hint = Hint(retryAfter: Option<real>, operatingReset: Option<Instant>)

  const NO_HINT := Hint(None, None)

  /** The uncapped exponential: `base` doubled `n` times. */
  function Doubled(base: real, n: nat): real {
    if n == 0 then base else 2.0 * Doubled(base, n - 1)
  }

  function Clamp01(x: real): real {
    Max(0.0, Min(1.0, x))
  }

  function Jitter(settings: Settings, random: real): real {
    Clamp01(random) * settings.jitter
  }

  /** Both caps of the processor: on the exponential, and again after the jitter. */
  function Capped(maximum: real, delay: real, extra: real): real {
    Min(maximum, Min(maximum, delay) + extra)
  }

  function RetryDelay(attempts: int, settings: Settings, random: real): real {
    var exponent := if attempts - 1 < 0 then 0 else attempts - 1;
    Capped(settings.maximum, Doubled(settings.base, exponent), Jitter(settings, random))
  }

  function RetryAt(now: Instant, attempts: int, settings: Settings, random: real, hint: Hint): Instant {
    var calculated := now + RetryDelay(attempts, settings, random);
    var polite :=
      if hint.retryAfter.Some? && hint.retryAfter.value >= 0.0
      then Max(calculated, now + hint.retryAfter.value)
      else calculated;
    if hint.operatingReset.Some? then Max(polite, hint.operatingReset.value) else polite
  }

  // ---------------------------------------------------------------- one delay

  lemma JitterBounds(settings: Settings, random: real)
    requires settings.Valid()
    ensures 0.0 <= Jitter(settings, random) <= settings.jitter
  {
    var c := Clamp01(random);
    assert 0.0 <= c <= 1.0;
    assert 0.0 <= c * settings.jitter;
    assert 0.0 <= (1.0 - c) * settings.jitter;
    assert (1.0 - c) * settings.jitter == settings.jitter - c * settings.jitter;
  }

  lemma {:induction false} DoubledMonotone(base: real, m: nat, n: nat)
    requires 0.0 <= base && m <= n
    ensures base <= Doubled(base, m) <= Doubled(base, n)
  {
    if m < n {
      DoubledMonotone(base, m, n - 1);
    } else if 0 < m {
      DoubledMonotone(base, m - 1, m - 1);
    }
  }

  function Pow2(n: nat): nat {
    if n == 0 then 1 else 2 * Pow2(n - 1)
  }

  lemma Regroup(base: real, p: real)
    ensures 2.0 * (base * p) == base * (2.0 * p)
  {
  }

  /** Doubling `n` times is multiplying by `2 ** n`, the form the processor writes. */
  lemma {:induction false} DoubledIsPower(base: real, n: nat)
    ensures Doubled(base, n) == base * Pow2(n) as real
  {
    if 0 < n {
      var p := Pow2(n - 1) as real;
      calc {
        Doubled(base, n);
        2.0 * Doubled(base, n - 1);
        { DoubledIsPower(base, n - 1); }
        2.0 * (base * p);
        { Regroup(base, p); }
        base * (2.0 * p);
        { assert Pow2(n) as real == 2.0 * p; }
        base * Pow2(n) as real;
      }
    }
  }

  /** Every delay lies between the base and the maximum, whatever the attempt and the random value. */
  lemma DelayBounds(attempts: int, settings: Settings, random: real)
    requires settings.Valid()
    ensures settings.base <= RetryDelay(attempts, settings, random) <= settings.maximum
  {
    JitterBounds(settings, random);
    DoubledMonotone(settings.base, 0, if attempts - 1 < 0 then 0 else attempts - 1);
  }

  /** For one random value, a later attempt never waits less. */
  lemma DelayMonotone(earlier: int, later: int, settings: Settings, random: real)
    requires settings.Valid() && earlier <= later
    ensures RetryDelay(earlier, settings, random) <= RetryDelay(later, settings, random)
  {
    var m := if earlier - 1 < 0 then 0 else earlier - 1;
    var n := if later - 1 < 0 then 0 else later - 1;
    DoubledMonotone(settings.base, m, n);
  }

  // ---------------------------------------------------------------- exactly how long

  /** The share of the jitter that a random value adds: none below 0, all above 1, in proportion between. */
  function Share(random: real, jitter: real): real {
    if random <= 0.0 then 0.0 else if 1.0 <= random then jitter else random * jitter
  }

  /** base * 2^n, but never more than the maximum. */
  function Grown(settings: Settings, n: nat): real {
    var grown := settings.base * Pow2(n) as real;
    if settings.maximum < grown then settings.maximum else grown
  }

  /** The wait before attempt number `attempts` + 1, as a closed formula. */
  function Wait(attempts: int, settings: Settings, random: real): real {
    var wait := Grown(settings, if 1 < attempts then attempts - 1 else 0) + Share(random, settings.jitter);
    if settings.maximum < wait then settings.maximum else wait
  }

  lemma JitterIsShare(settings: Settings, random: real)
    ensures Jitter(settings, random) == Share(random, settings.jitter)
  {
    if random <= 0.0 {
      assert Clamp01(random) == 0.0;
    } else if 1.0 <= random {
      assert Clamp01(random) == 1.0;
    }
  }

  lemma RetryDelayIsWait(attempts: int, settings: Settings, random: real)
    ensures RetryDelay(attempts, settings, random) == Wait(attempts, settings, random)
  {
    JitterIsShare(settings, random);
    DoubledIsPower(settings.base, if attempts - 1 < 0 then 0 else attempts - 1);
  }

  /** Without jitter the first wait is the base and each later one twice the one before, up to the maximum. */
  lemma WaitsDouble(n: nat, settings: Settings, random: real)
    requires settings.Valid() && random <= 0.0
    ensures RetryDelay(n + 1, settings, random)
         == if settings.maximum < settings.base * Pow2(n) as real then settings.maximum
            else settings.base * Pow2(n) as real
    ensures forall attempts: int | attempts <= 1 :: RetryDelay(attempts, settings, random) == settings.base
    ensures RetryDelay(n + 2, settings, random)
         == if settings.maximum < 2.0 * RetryDelay(n + 1, settings, random) then settings.maximum
            else 2.0 * RetryDelay(n + 1, settings, random)
  {
    DoubledIsPower(settings.base, n);
    assert Clamp01(random) == 0.0 && Jitter(settings, random) == 0.0;
    DoubledMonotone(settings.base, 0, n);
  }

  /** A random value adds its share of the jitter, up to the maximum. */
  lemma JitterAdds(attempts: int, settings: Settings, random: real)
    requires settings.Valid()
    ensures var calm := RetryDelay(attempts, settings, 0.0);
            var added := calm + Share(random, settings.jitter);
            RetryDelay(attempts, settings, random) == if settings.maximum < added then settings.maximum else added
  {
    JitterIsShare(settings, random);
    JitterIsShare(settings, 0.0);
    JitterBounds(settings, random);
  }

  /** The retry time is the latest of the exact wait and the two hints. */
  predicate WaitsExactly(runAt: Instant, now: Instant, attempts: int, settings: Settings, random: real, hint: Hint) {
    var own := now + Wait(attempts, settings, random);
    var polite := hint.retryAfter.Some? && 0.0 <= hint.retryAfter.value;
    && own <= runAt
    && (polite ==> now + hint.retryAfter.value <= runAt)
    && (hint.operatingReset.Some? ==> hint.operatingReset.value <= runAt)
    && (|| runAt == own
        || (polite && runAt == now + hint.retryAfter.value)
        || (hint.operatingReset.Some? && runAt == hint.operatingReset.value))
  }

  lemma RetryAtWaits(now: Instant, attempts: int, settings: Settings, random: real, hint: Hint)
    ensures WaitsExactly(RetryAt(now, attempts, settings, random, hint), now, attempts, settings, random, hint)
  {
    RetryDelayIsWait(attempts, settings, random);
  }

  // ---------------------------------------------------------------- a whole retry budget

  function Sum(delays: seq<real>): real {
    if delays == [] then 0.0 else Sum(delays[..|delays| - 1]) + delays[|delays| - 1]
  }

  /** The delays scheduled after attempts 1, 2, .., one random value each. */
  function Delays(settings: Settings, randoms: seq<real>): seq<real> {
    seq(|randoms|, k requires 0 <= k < |randoms| => RetryDelay(k + 1, settings, randoms[k]))
  }

  ghost predicate AllBetween(delays: seq<real>, low: real, high: real) {
    forall k | 0 <= k < |delays| :: low <= delays[k] <= high
  }

  ghost predicate AllBelowDoubled(delays: seq<real>, base: real, jitter: real) {
    forall k | 0 <= k < |delays| :: delays[k] <= Doubled(base, k) + jitter
  }

  lemma {:induction false} SumBetween(delays: seq<real>, n: nat, low: real, high: real)
    requires |delays| == n && AllBetween(delays, low, high)
    ensures Times(n, low) <= Sum(delays) <= Times(n, high)
  {
    if delays != [] {
      SumBetween(delays[..n - 1], n - 1, low, high);
    }
  }

  lemma {:induction false} SumGeometric(delays: seq<real>, n: nat, base: real, jitter: real)
    requires |delays| == n && AllBelowDoubled(delays, base, jitter)
    ensures Sum(delays) <= Doubled(base, n) - base + Times(n, jitter)
  {
    if delays != [] {
      SumGeometric(delays[..n - 1], n - 1, base, jitter);
    }
  }

  lemma CappedBelow(maximum: real, delay: real, extra: real, most: real)
    requires extra <= most
    ensures Capped(maximum, delay, extra) <= delay + most
  {
  }

  lemma DelayBelowDoubled(k: nat, settings: Settings, random: real)
    requires settings.Valid()
    ensures RetryDelay(k + 1, settings, random) <= Doubled(settings.base, k) + settings.jitter
  {
    JitterBounds(settings, random);
    CappedBelow(settings.maximum, Doubled(settings.base, k), Jitter(settings, random), settings.jitter);
  }

  lemma DelaysBounded(settings: Settings, randoms: seq<real>)
    requires settings.Valid()
    ensures AllBetween(Delays(settings, randoms), settings.base, settings.maximum)
    ensures AllBelowDoubled(Delays(settings, randoms), settings.base, settings.jitter)
  {
    forall k | 0 <= k < |randoms|
      ensures settings.base <= Delays(settings, randoms)[k] <= settings.maximum
      ensures Delays(settings, randoms)[k] <= Doubled(settings.base, k) + settings.jitter
    {
      DelayBounds(k + 1, settings, randoms[k]);
      DelayBelowDoubled(k, settings, randoms[k]);
    }
  }

  lemma TotalDelayBounds(settings: Settings, randoms: seq<real>, n: nat)
    requires settings.Valid() && n == |randoms|
    ensures Times(n, settings.base) <= Sum(Delays(settings, randoms)) <= Times(n, settings.maximum)
    ensures Sum(Delays(settings, randoms)) <= Doubled(settings.base, n) - settings.base + Times(n, settings.jitter)
  {
    DelaysBounded(settings, randoms);
    SumBetween(Delays(settings, randoms), n, settings.base, settings.maximum);
    SumGeometric(Delays(settings, randoms), n, settings.base, settings.jitter);
  }

  lemma ProductBounds(n: nat, low: real, sum: real, high: real)
    requires Times(n, low) <= sum <= Times(n, high)
    ensures n as real * low <= sum <= n as real * high
  {
    TimesIsProduct(n, low);
    TimesIsProduct(n, high);
  }

  /** Over a whole budget of n retries the wait is at least n bases and at most n maxima. */
  lemma TotalDelayLinear(settings: Settings, randoms: seq<real>, n: nat)
    requires settings.Valid() && n == |randoms|
    ensures n as real * settings.base <= Sum(Delays(settings, randoms)) <= n as real * settings.maximum
  {
    TotalDelayBounds(settings, randoms, n);
    ProductBounds(n, settings.base, Sum(Delays(settings, randoms)), settings.maximum);
  }

  /** The geometric sum of the uncapped delays plus all the jitter, as a product. */
  lemma GeometricIsProduct(base: real, jitter: real, n: nat)
    ensures Doubled(base, n) - base + Times(n, jitter) == base * (Pow2(n) - 1) as real + n as real * jitter
  {
    DoubledIsPower(base, n);
    assert (Pow2(n) - 1) as real == Pow2(n) as real - 1.0;
    TimesIsProduct(n, jitter);
  }

  /** It is also at most the geometric sum base * (2^n - 1) of the uncapped delays plus all the jitter. */
  lemma TotalDelayGeometric(settings: Settings, randoms: seq<real>, n: nat)
    requires settings.Valid() && n == |randoms|
    ensures Sum(Delays(settings, randoms)) <= settings.base * (Pow2(n) - 1) as real + n as real * settings.jitter
  {
    TotalDelayBounds(settings, randoms, n);
    GeometricIsProduct(settings.base, settings.jitter, n);
  }

  // ---------------------------------------------------------------- hints

  /** The retry time is the least instant that honours the backoff, the Retry-After hint
      (section 10.2.3 of RFC 9110) when it is not negative, and the operating reset. */
  lemma RetryAtIsLeast(now: Instant, attempts: int, settings: Settings, random: real, hint: Hint, t: Instant)
    ensures RetryAt(now, attempts, settings, random, hint) <= t
       <==> now + Wait(attempts, settings, random) <= t
            && (hint.retryAfter.Some? && hint.retryAfter.value >= 0.0 ==> now + hint.retryAfter.value <= t)
            && (hint.operatingReset.Some? ==> hint.operatingReset.value <= t)
  {
    RetryDelayIsWait(attempts, settings, random);
  }

  lemma RetryAtLater(now: Instant, attempts: int, settings: Settings, random: real, hint: Hint)
    requires settings.Valid()
    ensures now + settings.base <= RetryAt(now, attempts, settings, random, hint)
  {
    DelayBounds(attempts, settings, random);
  }
}
