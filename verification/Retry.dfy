/** The backoff schedule of retryable agent events, in seconds. */
module Retry {

  const DEFAULT_MAX_RETRIES := 20
  const BASE_DELAY := 5
  const MAX_DELAY := 3600

  function Pow2(n: nat): (p: nat)
    ensures p > 0
  {
    if n == 0 then 1 else 2 * Pow2(n - 1)
  }

  /** The base delay doubled per prior failure, capped. */
  function Delay(attempts: int): int {
    if attempts <= 1 then BASE_DELAY
    else
      var d := BASE_DELAY * Pow2(attempts - 1);
      if d >= MAX_DELAY then MAX_DELAY else d
  }

  lemma Pow2Grows(m: nat, n: nat)
    requires m <= n
    ensures Pow2(m) <= Pow2(n)
  {
  }

  method RetryDelay(attempts: int) returns (d: int)
    ensures d == Delay(attempts)
  {
    d := BASE_DELAY;
    var i := 1;
    while i < attempts
      invariant 1 <= i && (i <= attempts || i == 1)
      invariant d == BASE_DELAY * Pow2(i - 1) && d < MAX_DELAY
    {
      d := d * 2;
      if d >= MAX_DELAY {
        Pow2Grows(i, attempts - 1);
        return MAX_DELAY;
      }
      i := i + 1;
    }
  }

  /** Delays start at five seconds, never shrink, never pass an hour, and double until they
      reach the hour at the eleventh failure -- where they stay. */
  lemma DelaySchedule(a: nat)
    ensures BASE_DELAY <= Delay(a) <= Delay(a + 1) <= MAX_DELAY
    ensures 1 <= a < 10 ==> Delay(a + 1) == 2 * Delay(a)
    ensures Delay(a) == MAX_DELAY <==> a >= 11
  {
    assert Pow2(9) == 512 && Pow2(10) == 1024;
    if a >= 11 {
      Pow2Grows(10, a - 1);
      Pow2Grows(10, a);
    } else if a >= 1 {
      Pow2Grows(a - 1, 9);
    }
  }

  /** Seconds an event that always fails transiently waits before its n-th attempt. */
  function WaitBefore(n: nat): int {
    if n <= 1 then 0 else WaitBefore(n - 1) + Delay(n - 1)
  }

  /** With the default budget the last attempt comes 37515 seconds (ten hours and twenty-five
      minutes) of deferrals after the first. */
  lemma DefaultBudgetSpansTenHours()
    ensures WaitBefore(DEFAULT_MAX_RETRIES) == 37_515
  {
    assert Pow2(9) == 512;
    assert WaitBefore(11) == 5_115;
    forall a | 11 <= a < 20 ensures Delay(a) == MAX_DELAY {
      DelaySchedule(a);
    }
    assert WaitBefore(15) == 5_115 + 4 * MAX_DELAY;
  }
}
