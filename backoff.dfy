/**
 * Reconnection delays of the connection manager (src/hooks/useOrderBook.js:22,
 * 198-206, 221-227).
 */
module Backoff {
  /** `maxReconnectAttempts` (line 22). */
  const MaxReconnectAttempts: nat := 5

  const BackoffBaseMs: nat := 1000
  const BackoffCapMs: nat := 8000

  /** Step of the linear delay used when the socket cannot even be constructed (line 223). */
  const ConstructionRetryStepMs: nat := 2000

  function Pow2(n: nat): (r: nat)
    ensures r >= 1
  {
    if n == 0 then 1 else 2 * Pow2(n - 1)
  }

  function Min(a: nat, b: nat): nat {
    if a <= b then a else b
  }

  /**
   * The delay scheduled by an unclean close once the counter has been raised to
   * `attempt`: `min(1000 * 2^(attempt - 1), 8000)` (line 200). It never falls
   * below one second nor exceeds eight.
   */
  function BackoffDelay(attempt: nat): (ms: nat)
    requires attempt >= 1
    ensures BackoffBaseMs <= ms <= BackoffCapMs
  {
    Min(BackoffBaseMs * Pow2(attempt - 1), BackoffCapMs)
  }

  /**
   * The delay scheduled when `new WebSocket` throws, after the counter was
   * raised to `attempt` (line 223). Over the attempts the budget allows it lies
   * between 2 s and 10 s, and unlike the close backoff it has no cap.
   */
  function ConstructionRetryDelay(attempt: nat): (ms: nat)
    ensures 1 <= attempt <= MaxReconnectAttempts ==>
      ConstructionRetryStepMs <= ms <= ConstructionRetryStepMs * MaxReconnectAttempts
  {
    ConstructionRetryStepMs * attempt
  }

  /** The five delays an unclean-close streak can schedule, in order. */
  lemma BackoffSchedule()
    ensures BackoffDelay(1) == 1000 && BackoffDelay(2) == 2000 && BackoffDelay(3) == 4000
    ensures BackoffDelay(4) == 8000 && BackoffDelay(5) == 8000
  {
    assert Pow2(0) == 1;
    assert Pow2(1) == 2;
    assert Pow2(2) == 4;
    assert Pow2(3) == 8;
    assert Pow2(4) == 16;
  }

  /**
   * The five delays a streak of construction failures can schedule, in order:
   * each waits two seconds longer than the one before.
   */
  lemma ConstructionRetrySchedule()
    ensures ConstructionRetryDelay(1) == 2000 && ConstructionRetryDelay(2) == 4000
    ensures ConstructionRetryDelay(3) == 6000 && ConstructionRetryDelay(4) == 8000
    ensures ConstructionRetryDelay(5) == 10000
    ensures forall a :: 1 <= a ==> ConstructionRetryDelay(a + 1) - ConstructionRetryDelay(a) == ConstructionRetryStepMs
  {
  }

  /** At the same count, a construction failure never waits less than an unclean close would. */
  lemma ConstructionRetryNoShorterThanBackoff(attempt: nat)
    requires attempt >= 1
    ensures ConstructionRetryDelay(attempt) >= BackoffDelay(attempt)
  {
    if attempt <= 3 {
      BackoffSchedule();
    }
  }

  lemma {:induction false} Pow2Monotone(a: nat, b: nat)
    requires a <= b
    ensures Pow2(a) <= Pow2(b)
    decreases b
  {
    if a < b {
      Pow2Monotone(a, b - 1);
    }
  }

  /** A later attempt never waits less than an earlier one. */
  lemma BackoffMonotone(a: nat, b: nat)
    requires 1 <= a <= b
    ensures BackoffDelay(a) <= BackoffDelay(b)
  {
    Pow2Monotone(a - 1, b - 1);
  }

  /** Below the cap each attempt waits exactly twice as long as the one before; from the fourth on it waits the cap. */
  lemma {:induction false} BackoffDoublesThenCaps(attempt: nat)
    requires attempt >= 1
    ensures BackoffDelay(attempt) < BackoffCapMs ==> BackoffDelay(attempt + 1) == 2 * BackoffDelay(attempt)
    ensures attempt >= 4 ==> BackoffDelay(attempt) == BackoffCapMs
  {
    if attempt >= 4 {
      Pow2Monotone(3, attempt - 1);
      assert Pow2(3) == 8;
    }
  }
}
