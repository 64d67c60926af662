/** Seconds in nanoseconds, and doubling. */
module Arith {
  const SECOND := 1_000_000_000

  function Pow2(n: nat): (p: int)
    ensures p >= 1
  {
    if n == 0 then 1 else 2 * Pow2(n - 1)
  }

  lemma {:induction false} Pow2Monotone(a: nat, b: nat)
    requires a <= b
    ensures Pow2(a) <= Pow2(b)
  {
    if a < b { Pow2Monotone(a, b - 1); }
  }

  function Min(a: int, b: int): int {
    if a < b then a else b
  }
}
