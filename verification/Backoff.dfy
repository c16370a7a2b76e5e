/** How long the worker waits: between webhook attempts, and between attempts to record a delivery. */
module Backoff {
  import opened Protocol

  lemma {:induction false} PowStep(n: nat)
    ensures Pow2(n + 1) == 2 * Pow2(n) && Pow2(n) > 0
  {
    if n > 0 {
      PowStep(n - 1);
    }
  }

  /** The delay doubles until the cap, which is what the loop computes step by step. */
  lemma BackoffDoubles(n: nat)
    ensures BackoffMs(0) == 250
    ensures BackoffMs(n + 1) == (if 2 * BackoffMs(n) < 30_000 then 2 * BackoffMs(n) else 30_000)
    ensures BackoffMs(n) <= BackoffMs(n + 1)
  {
    PowStep(n);
  }

  lemma {:induction false} BackoffMonotone(m: nat, n: nat)
    requires m <= n
    ensures 250 <= BackoffMs(m) <= BackoffMs(n) <= 30_000
  {
    if m == n {
      if n > 0 {
        BackoffMonotone(n - 1, n - 1);
        BackoffDoubles(n - 1);
      }
    } else {
      BackoffMonotone(m, n - 1);
      BackoffDoubles(n - 1);
    }
  }

  /** Once at the cap the delay stays there. */
  lemma CapStays(m: nat, n: nat)
    requires m <= n && BackoffMs(m) == 30_000
    ensures BackoffMs(n) == 30_000
  {
    BackoffMonotone(m, n);
  }

  /** The cap is reached from the seventh retry on. */
  lemma CapReached(n: nat)
    ensures BackoffMs(n) == 30_000 <==> n >= 7
  {
    assert Pow2(6) == 64 && Pow2(7) == 128;
    if n >= 7 {
      CapStays(7, n);
    } else {
      BackoffMonotone(n, 6);
    }
  }

  /** The delay in nanoseconds; a header can hold a negative count, which waits like none. */
  method RetryBackoff(retryCount: int, clock: nat) returns (d: nat)
    ensures d == BackoffMs(if retryCount < 0 then 0 else retryCount) * 1_000_000 + clock % JITTER
  {
    var ms, i := 250, 0;
    while i < retryCount && ms < 30_000
      invariant i <= (if retryCount < 0 then 0 else retryCount) && ms == BackoffMs(i)
    {
      BackoffDoubles(i);
      var next := ms * 2;
      if next > 30_000 {
        ms := 30_000;
        i := i + 1;
        break;
      }
      ms, i := next, i + 1;
    }
    if i < retryCount {
      CapStays(i, retryCount);
    }
    return ms * 1_000_000 + clock % JITTER;
  }

  /** The wait after failed attempt i to record a delivery, in milliseconds. */
  function MarkWaitMs(i: nat): nat {
    var ms := 50 * Pow2(if i > 6 then 6 else i);
    if ms > 2000 then 2000 else ms
  }

  function MarkWaits(i: nat): nat {
    if i == 0 then 0 else MarkWaits(i - 1) + MarkWaitMs(i - 1)
  }

  lemma {:induction false} MarkWaitsFrom6(i: nat)
    requires i >= 6
    ensures MarkWaits(i) == 3150 + 2000 * (i - 6)
  {
    assert Pow2(5) == 32 && Pow2(6) == 64;
    if i == 6 {
      assert MarkWaits(3) == 350;
    } else {
      MarkWaitsFrom6(i - 1);
    }
  }

  lemma {:induction false} MarkWaitsGrow(i: nat, j: nat)
    requires i <= j
    ensures MarkWaits(i) <= MarkWaits(j)
  {
    if i < j {
      MarkWaitsGrow(i, j - 1);
    }
  }

  /** Thirty attempts are allowed, but when every wait runs its course the 45 second deadline
      lets only attempts 0 to 26 start. */
  lemma DeadlineBeforeLastAttempts(i: nat)
    ensures MarkWaits(i) < 45_000 <==> i <= 26
  {
    MarkWaitsFrom6(26);
    MarkWaitsFrom6(27);
    if i <= 26 {
      MarkWaitsGrow(i, 26);
    } else {
      MarkWaitsGrow(27, i);
    }
  }
}
