/** The delay before a retry, and the integer range it is computed in. */
module Backoff {
  import opened Options

  const INT32_MAX := 0x7fff_ffff

  /** The random extra of up to a quarter of a second. */
  type Jitter = j: int | 0 <= j <= 250

  function Pow2(n: nat): (p: nat)
    ensures p >= 1
  {
    if n == 0 then 1 else 2 * Pow2(n - 1)
  }

  function BackoffMs(attempt: nat, jitter: Jitter): nat {
    500 * Pow2(attempt) + jitter
  }

  /** A usable Retry-After header: a number of seconds from 0 to 60. */
  predicate Usable(retryAfter: Option<int>) {
    retryAfter.Some? && 0 <= retryAfter.value <= 60
  }

  function RetryDelay(retryAfter: Option<int>, attempt: nat, jitter: Jitter): int {
    if Usable(retryAfter) then 1000 * retryAfter.value else BackoffMs(attempt, jitter)
  }

  lemma {:induction false} Pow2Monotone(a: nat, b: nat)
    requires a <= b
    ensures Pow2(a) <= Pow2(b)
    decreases b - a
  {
    if a == b {
    } else {
      Pow2Monotone(a, b - 1);
    }
  }

  lemma Pow2At22()
    ensures Pow2(22) == 0x40_0000
  {
    assert Pow2(8) == 256;
    assert Pow2(15) == 0x8000;
  }

  /** The 32-bit expression stays in range, whatever the jitter, exactly up to attempt 22. */
  lemma BackoffFitsExactly(attempt: nat)
    ensures (forall jitter: Jitter :: BackoffMs(attempt, jitter) <= INT32_MAX) <==> attempt <= 22
  {
    assert Pow2(22) == 0x40_0000 by { Pow2At22(); }
    if attempt <= 22 {
      Pow2Monotone(attempt, 22);
    } else {
      Pow2Monotone(23, attempt);
      assert BackoffMs(attempt, 0) > INT32_MAX;
    }
  }

  /** One delay for each retry: what the k-th attempt was answered with, and its jitter. */
  datatype Pause = Pause(retryAfter: Option<int>, jitter: Jitter)

  function Delays(pauses: seq<Pause>): seq<int> {
    seq(|pauses|, k requires 0 <= k < |pauses| => RetryDelay(pauses[k].retryAfter, k, pauses[k].jitter))
  }

  function Sum(xs: seq<int>): int {
    if xs == [] then 0 else Sum(xs[..|xs| - 1]) + xs[|xs| - 1]
  }

  /** Without a usable Retry-After the total wait for n retries is 500 (2^n - 1) ms plus the jitter. */
  lemma {:induction false} TotalBackoff(pauses: seq<Pause>)
    requires forall p :: p in pauses ==> !Usable(p.retryAfter)
    ensures 500 * (Pow2(|pauses|) - 1) <= Sum(Delays(pauses)) <= 500 * (Pow2(|pauses|) - 1) + 250 * |pauses|
  {
    if pauses == [] {
    } else {
      var front := pauses[..|pauses| - 1];
      assert Delays(pauses)[..|pauses| - 1] == Delays(front);
      TotalBackoff(front);
      assert pauses[|pauses| - 1] in pauses;
    }
  }

  /** In general a single wait is at most a minute, or its own backoff if that is longer. */
  lemma EachDelayIsBounded(pauses: seq<Pause>, k: nat)
    requires k < |pauses|
    ensures 0 <= Delays(pauses)[k]
    ensures Delays(pauses)[k] <= 60_000 || Delays(pauses)[k] <= 500 * Pow2(k) + 250
    ensures |pauses| <= 23 ==> Delays(pauses)[k] <= INT32_MAX
  {
    BackoffFitsExactly(k);
  }
}
