/**
  Reconnect back-off: the retry counter, the capped exponential delay and the
  retry-ceiling guard exactly as the source writes it. The guard returns early
  while the count is still BELOW a positive ceiling, so with a ceiling the
  first errors are swallowed and retries happen only from the ceiling on;
  with the default ceiling 0 every error is retried.
 */
module Backoff {
  import opened Wire

  /** The retry interval's initial value, restored whenever a socket opens. */
  const RetryIntervalFloor := 1000
  /** The default cap on a retry delay, in milliseconds. */
  const DefaultRetryIntervalMax := 10000
  /** The default retry ceiling; 0 stands for unlimited. */
  const DefaultRetryMax := 0

  /** `Math.pow(2, n)` for a natural exponent. */
  function Pow2(n: nat): (r: nat)
    ensures r >= 1
    ensures r > n
  {
    if n == 0 then 1 else 2 * Pow2(n - 1)
  }

  lemma {:induction false} Pow2Monotone(m: nat, n: nat)
    requires m <= n
    ensures Pow2(m) <= Pow2(n)
  {
    if m < n {
      Pow2Monotone(m, n - 1);
    }
  }

  /** The delay of the retry after the `count`-th error: `2^count` seconds,
      never more than the cap. */
  function RetryDelay(count: nat, cap: int): (r: int)
    ensures r <= cap && r <= Pow2(count) * 1000
    ensures r == cap || r == Pow2(count) * 1000
  {
    var d := Pow2(count) * 1000;
    if d > cap then cap else d
  }

  /** Later errors in a streak never wait less than earlier ones. */
  lemma RetryDelayMonotone(c1: nat, c2: nat, cap: int)
    requires c1 <= c2
    ensures RetryDelay(c1, cap) <= RetryDelay(c2, cap)
  {
    Pow2Monotone(c1, c2);
  }

  /** With the default cap the delay is 10 seconds from the fourth error on. */
  lemma RetryDelaySaturates(count: nat)
    requires count >= 4
    ensures RetryDelay(count, DefaultRetryIntervalMax) == DefaultRetryIntervalMax
  {
    Pow2Monotone(4, count);
  }

  /** The negation of the literal guard `max > 0 && max > count`: a retry is
      scheduled after the error that brought the counter to `count`. */
  function ShouldRetry(max: int, count: nat): (retry: bool)
    ensures retry <==> max <= 0 || count >= max
  {
    !(max > 0 && max > count)
  }

  /** The guard as written is the reverse of a ceiling: below a positive
      ceiling no retry is scheduled. */
  lemma LiteralGuard(max: int, count: nat)
    ensures max > 0 && count < max ==> !ShouldRetry(max, count)
  {
  }

  /** The retry fields after one error and the delay of the reconnect it
      schedules, if any. */
  datatype Step = Step(count: nat, interval: int, delay: Option<int>)

  /** One `handleConnectionError` call on retry counter `count`, ceiling `max`,
      current interval `interval` and cap `cap`. */
  function AfterError(count: nat, max: int, interval: int, cap: int): (s: Step)
    ensures s.count == count + 1
    ensures s.delay.Some? <==> ShouldRetry(max, count + 1)
    ensures s.delay.Some? ==> s.interval == s.delay.value == RetryDelay(count + 1, cap) <= cap
    ensures s.delay.None? ==> s.interval == interval
  {
    if !ShouldRetry(max, count + 1) then Step(count + 1, interval, None)
    else
      var d := RetryDelay(count + 1, cap);
      Step(count + 1, d, Some(d))
  }

  /** The delays scheduled by `k` consecutive errors with no open in between. */
  function Delays(count: nat, max: int, interval: int, cap: int, k: nat): (ds: seq<Option<int>>)
    ensures |ds| == k
    ensures k > 0 ==> ds[0] == AfterError(count, max, interval, cap).delay
    decreases k
  {
    if k == 0 then []
    else
      var s := AfterError(count, max, interval, cap);
      [s.delay] + Delays(s.count, max, s.interval, cap, k - 1)
  }

  /** The `i`-th error of a streak starting at counter `count` brings the
      counter to `count + i + 1` and schedules by that counter alone. */
  lemma {:induction false} DelaysAt(count: nat, max: int, interval: int, cap: int, k: nat, i: nat)
    requires i < k
    ensures Delays(count, max, interval, cap, k)[i]
         == if ShouldRetry(max, count + i + 1) then Some(RetryDelay(count + i + 1, cap)) else None
    decreases i
  {
    if i > 0 {
      var s := AfterError(count, max, interval, cap);
      DelaysAt(s.count, max, s.interval, cap, k - 1, i - 1);
    }
  }

  /** With the default ceiling and cap, the errors after an open wait
      2, 4, 8, 10, 10 seconds. */
  lemma DefaultStreak(interval: int)
    ensures Delays(0, DefaultRetryMax, interval, DefaultRetryIntervalMax, 5)
         == [Some(2000), Some(4000), Some(8000), Some(10000), Some(10000)]
  {
    var ds := Delays(0, DefaultRetryMax, interval, DefaultRetryIntervalMax, 5);
    forall i | 0 <= i < 5
      ensures ds[i] == [Some(2000), Some(4000), Some(8000), Some(10000), Some(10000)][i]
    {
      DelaysAt(0, DefaultRetryMax, interval, DefaultRetryIntervalMax, 5, i);
    }
  }

  /** Without a ceiling every error of a streak schedules a retry within the cap. */
  lemma UnlimitedAlwaysRetries(count: nat, max: int, interval: int, cap: int, k: nat, i: nat)
    requires max <= 0 && i < k
    ensures Delays(count, max, interval, cap, k)[i].Some?
    ensures Delays(count, max, interval, cap, k)[i].value <= cap
  {
    DelaysAt(count, max, interval, cap, k, i);
  }

  /** With a positive ceiling and a streak starting after an open, the first
      `max - 1` errors schedule nothing and every later one schedules a retry. */
  lemma CeilingSwallowsEarlyErrors(max: int, interval: int, cap: int, k: nat, i: nat)
    requires max > 0 && i < k
    ensures Delays(0, max, interval, cap, k)[i].None? <==> i + 1 < max
  {
    DelaysAt(0, max, interval, cap, k, i);
  }
}
