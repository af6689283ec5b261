/**
 * The exponential back-off shared by every retry loop of the core:
 * the pause after failed attempt `attempt` (0-based) is `backoff * 2**attempt`.
 */
module Backoff {

  function Pow2(n: nat): (r: nat)
    ensures r >= 1
  {
    if n == 0 then 1 else 2 * Pow2(n - 1)
  }

  /** `backoff * (2**attempt)`; floating-point rounding is not modelled. */
  function Delay(backoff: real, attempt: nat): real {
    backoff * Pow2(attempt) as real
  }

  /** The pauses taken after the first `n` failed attempts, in order. */
  function Delays(backoff: real, n: nat): (r: seq<real>)
    ensures |r| == n
    ensures forall j :: 0 <= j < n ==> r[j] == Delay(backoff, j)
  {
    if n == 0 then [] else Delays(backoff, n - 1) + [Delay(backoff, n - 1)]
  }

  /** A non-negative back-off never asks for a negative pause, and each pause doubles the last. */
  lemma DelayDoubles(backoff: real, attempt: nat)
    requires backoff >= 0.0
    ensures Delay(backoff, attempt) >= 0.0
    ensures Delay(backoff, attempt + 1) == 2.0 * Delay(backoff, attempt)
  {
  }
}
