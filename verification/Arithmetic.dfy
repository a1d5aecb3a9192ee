/** Facts about products and quotients, and the division of C. */
module Arithmetic {

  const UINT32_RANGE := 0x1_0000_0000

  lemma MulMonotone(a: int, b: int, c: int)
    requires a <= b && c >= 0
    ensures a * c <= b * c
  {}

  lemma DivSplit(t: nat, m: nat)
    requires m > 0
    ensures t == m * (t / m) + t % m
  {}

  /** There is only one quotient and remainder. */
  lemma DivModUnique(t: nat, m: nat, q: nat, r: nat)
    requires m > 0 && t == m * q + r && r < m
    ensures t / m == q && t % m == r
  {
    var d := t / m;
    if d < q {
      MulMonotone(d + 1, q, m);
    } else if d > q {
      MulMonotone(q + 1, d, m);
    }
  }

  /** The division of C: towards zero. */
  function Quotient(x: int, y: int): int
    requires y > 0
  {
    if x >= 0 then x / y else -(-x / y)
  }
}
