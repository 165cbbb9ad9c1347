/**
 * Exact decimal arithmetic and the rounding used at the storage boundary. Stored decimals carry 18
 * fractional digits; a stored value is modelled by the integer number of 10^-18 units it holds.
 */
module Decimals {

  /** Multiplication under a name, so that equal factors give equal products. */
  function Times(x: real, y: real): real {
    x * y
  }

  /** Units per whole. */
  const SCALE: real := 1000000000000000000.0

  /** NUMERIC(38,18) holds 38 digits; Python's default decimal context quantises to at most 28. */
  const STORAGE_LIMIT := 100_000_000_000_000_000_000_000_000_000_000_000_000
  const CONTEXT_LIMIT := 10_000_000_000_000_000_000_000_000_000

  predicate Fits(n: int, limit: int) {
    -limit < n < limit
  }

  /** ROUND_HALF_UP of Python's decimal: to the nearest integer, halves away from zero. */
  function RoundHalfAway(x: real): int {
    if x >= 0.0 then (x + 0.5).Floor else -((0.5 - x).Floor)
  }

  lemma RoundNearest(x: real)
    ensures -0.5 <= RoundHalfAway(x) as real - x <= 0.5
    ensures x >= 0.0 && RoundHalfAway(x) as real - x == -0.5 ==> false
    ensures x <= 0.0 && RoundHalfAway(x) as real - x == 0.5 ==> false
  {
  }

  lemma RoundOdd(x: real)
    ensures RoundHalfAway(-x) == -RoundHalfAway(x)
  {
  }

  lemma RoundMonotone(x: real, y: real)
    requires x <= y
    ensures RoundHalfAway(x) <= RoundHalfAway(y)
  {
  }

  lemma RoundInteger(n: int)
    ensures RoundHalfAway(n as real) == n
  {
  }

  lemma ScaleOrder(f: real, c: real, e: real)
    requires e > 0.0
    ensures f >= c <==> f * e >= c * e
  {
    if f >= c { assert (f - c) * e >= 0.0; } else { assert (c - f) * e > 0.0; }
  }

  lemma NotNegative(x: real, k: real)
    requires x >= 0.0 && k >= 0.0
    ensures Times(x, k) >= 0.0
  {
  }

  lemma Expand(x: real, y: real, k: real)
    ensures Times(x - y + 0.5, k) == Times(x, k) - Times(y, k) + 0.5 * k
    ensures Times(y - x + 0.5, k) == Times(y, k) - Times(x, k) + 0.5 * k
  {
  }

  /** Two numbers within a half are within half of k after both are multiplied by k. */
  lemma ScaledError(x: real, y: real, k: real)
    requires k >= 0.0 && -0.5 <= x - y <= 0.5
    ensures -0.5 * k <= Times(x, k) - Times(y, k) <= 0.5 * k
  {
    NotNegative(x - y + 0.5, k);
    NotNegative(y - x + 0.5, k);
    Expand(x, y, k);
  }
}
