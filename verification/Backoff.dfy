/** The retry delay of the outbox worker. */
module Backoff {
  import opened Basics

  // Go's integer types, so that a product that left their range would be an error here.
  newtype int32 = x: int | -0x8000_0000 <= x < 0x8000_0000
  newtype int64 = x: int | -0x8000_0000_0000_0000 <= x < 0x8000_0000_0000_0000

  const MAX_RETRY_BACKOFF: nat := 30 * SECOND

  function Pow2(n: nat): (p: nat)
    ensures p >= 1
  {
    if n == 0 then 1 else 2 * Pow2(n - 1)
  }

  /** One second, doubled for every attempt after the first, at most thirty seconds. */
  function RetryBackoff(attempts: int): nat {
    Min(Pow2(if attempts < 1 then 0 else attempts - 1) * SECOND, MAX_RETRY_BACKOFF)
  }

  lemma {:induction false} Pow2Monotone(m: nat, n: nat)
    requires m <= n
    ensures Pow2(m) <= Pow2(n)
  {
    if m < n {
      Pow2Monotone(m, n - 1);
    }
  }

  lemma BackoffMonotone(a: int, b: int)
    requires a <= b
    ensures SECOND <= RetryBackoff(a) <= RetryBackoff(b) <= MAX_RETRY_BACKOFF
  {
    Pow2Monotone(if a < 1 then 0 else a - 1, if b < 1 then 0 else b - 1);
  }

  method OutboxRetryBackoff(attempts: int32) returns (backoff: int64)
    ensures backoff as int == RetryBackoff(attempts as int)
  {
    var n := attempts;
    if n < 1 {
      n := 1;
    }
    backoff := 1_000_000_000;
    var i: int32 := 1;
    while i < n
      invariant 1 <= i <= n
      invariant backoff as int == Pow2(i as int - 1) * SECOND
      invariant backoff as int < MAX_RETRY_BACKOFF
    {
      backoff := backoff * 2;
      i := i + 1;
      if backoff >= 30_000_000_000 {
        Pow2Monotone(i as int - 1, n as int - 1);
        return 30_000_000_000;
      }
    }
  }

  /** The four delays a row can be given before its fifth attempt fails it. */
  lemma FirstBackoffs()
    ensures RetryBackoff(1) == 1 * SECOND && RetryBackoff(2) == 2 * SECOND
    ensures RetryBackoff(3) == 4 * SECOND && RetryBackoff(4) == 8 * SECOND
  {
    assert Pow2(1) == 2 && Pow2(2) == 4 && Pow2(3) == 8;
  }
}
