/** The retry schedule of a failed delivery, in seconds. */
module Backoff {

  const RETRY_BASE: nat := 15
  const RETRY_CAP: nat := 900

  function Pow2(n: nat): (p: nat)
    ensures p >= 1
  {
    if n == 0 then 1 else 2 * Pow2(n - 1)
  }

  lemma {:induction false} Pow2Monotone(m: nat, n: nat)
    requires m <= n
    ensures Pow2(m) <= Pow2(n)
    decreases n
  {
    if m < n {
      Pow2Monotone(m, n - 1);
    }
  }

  /** The closed form: the base doubled once per attempt after the first, capped. */
  function RetryDelay(attempts: int): nat {
    var doublings: nat := if attempts <= 1 then 0 else attempts - 1;
    if RETRY_BASE * Pow2(doublings) <= RETRY_CAP then RETRY_BASE * Pow2(doublings) else RETRY_CAP
  }

  /** The loop returns at the first value past the cap, so it never holds more than twice the cap. */
  method ComputeRetryDelay(attempts: int) returns (delay: nat)
    ensures delay == RetryDelay(attempts)
  {
    delay := RETRY_BASE;
    var last := if attempts < 1 then 1 else attempts;
    for i := 1 to last
      invariant delay == RETRY_BASE * Pow2(i - 1) <= RETRY_CAP
    {
      delay := delay * 2;
      assert delay <= 2 * RETRY_CAP;
      if delay > RETRY_CAP {
        Pow2Monotone(i, last - 1);
        return RETRY_CAP;
      }
    }
  }

  lemma RetryDelayMonotone(a: int, b: int)
    requires a <= b
    ensures RETRY_BASE <= RetryDelay(a) <= RetryDelay(b) <= RETRY_CAP
  {
    var m: nat := if a <= 1 then 0 else a - 1;
    var n: nat := if b <= 1 then 0 else b - 1;
    Pow2Monotone(m, n);
  }

  /** The first retries wait 15, 30, 60, 120, 240 and 480 seconds, and every later one 15 minutes. */
  lemma DelayTable(attempts: int)
    ensures attempts <= 1 ==> RetryDelay(attempts) == 15
    ensures attempts == 2 ==> RetryDelay(attempts) == 30
    ensures attempts == 3 ==> RetryDelay(attempts) == 60
    ensures attempts == 4 ==> RetryDelay(attempts) == 120
    ensures attempts == 5 ==> RetryDelay(attempts) == 240
    ensures attempts == 6 ==> RetryDelay(attempts) == 480
    ensures attempts >= 7 ==> RetryDelay(attempts) == 15 * 60
  {
    assert Pow2(3) == 8;
    assert Pow2(6) == 64;
    if attempts >= 7 {
      Pow2Monotone(6, attempts - 1);
    }
  }

  /** The waiting that `failures` recorded failures in a row add up to. */
  function TotalDelay(failures: nat): nat {
    if failures == 0 then 0 else TotalDelay(failures - 1) + RetryDelay(failures)
  }

  lemma SevenFailuresTakeHalfAnHour()
    ensures TotalDelay(7) == 1845
  {
    assert Pow2(3) == 8;
    assert Pow2(6) == 64;
    assert RetryDelay(7) == 900 && RetryDelay(6) == 480 && RetryDelay(5) == 240 && RetryDelay(4) == 120;
    assert TotalDelay(3) == 105;
    assert TotalDelay(5) == 465;
  }
}
