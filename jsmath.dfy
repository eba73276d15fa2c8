/** JavaScript's `Math.round` on numbers, modelled over the reals. */
module JsMath {

  /** `Math.round(x)`: the nearest integer, with halves rounded toward +infinity. */
  function Round(x: real): (r: int)
    ensures r as real - 0.5 <= x < r as real + 0.5
  {
    (x + 0.5).Floor
  }

  /** Rounding never reverses an order. */
  lemma RoundMonotone(x: real, y: real)
    requires x <= y
    ensures Round(x) <= Round(y)
  {
  }

  /** Integers round to themselves. */
  lemma RoundInteger(n: int)
    ensures Round(n as real) == n
  {
  }
}
