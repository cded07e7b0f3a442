/** Exponential growth with a cap: the retry backoff of workflowkit and the circuit cooldown of llmkit. */
module Doubling {
  function Pow2(n: nat): nat {
    if n == 0 then 1 else 2 * Pow2(n - 1)
  }

  function Min(a: int, b: int): int {
    if a <= b then a else b
  }

  lemma {:induction false} Pow2Grows(base: nat, n: nat, m: nat)
    requires n <= m
    ensures base * Pow2(n) <= base * Pow2(m)
  {
    if n < m {
      Pow2Grows(base, n, m - 1);
      assert base * Pow2(m) == 2 * (base * Pow2(m - 1));
    }
  }

  /** Doubles `times` times but stops once the cap is reached; the early stop never changes the capped value. */
  method CappedDoubling(base: nat, times: nat, cap: int) returns (r: int)
    ensures r == Min(base * Pow2(times), cap)
  {
    var value, i := base, 0;
    while i < times && value < cap
      invariant i <= times && value == base * Pow2(i)
    {
      value := value * 2;
      i := i + 1;
      assert value == base * (2 * Pow2(i - 1));
    }
    Pow2Grows(base, i, times);
    r := Min(value, cap);
  }

  datatype RetryPolicy = RetryPolicy(maxAttempts: int, baseDelay: int, maxDelay: int)

  /** The longest delay before a retry; the random draw is anything from 0 up to it. */
  method BackoffBound(p: RetryPolicy, retry: int) returns (bound: int)
    ensures p.baseDelay <= 0 || retry <= 0 ==> bound == 0
    ensures p.baseDelay > 0 && retry > 0 ==>
              bound == Min(p.baseDelay * Pow2(retry - 1),
                           if p.maxDelay < p.baseDelay then 32 * p.baseDelay else p.maxDelay)
  {
    if p.baseDelay <= 0 || retry <= 0 {
      return 0;
    }
    var ceiling := if p.maxDelay < p.baseDelay then 32 * p.baseDelay else p.maxDelay;
    bound := CappedDoubling(p.baseDelay, retry - 1, ceiling);
  }
}
