/** Screen tile counts: how many scaled tiles it takes to cover the viewport. */
module Viewport {
  /**
   * `(int)Math.Ceiling((double)n / d)` for the non-negative pixel sizes and the
   * positive tile size the game uses, computed on integers: the least `q` with `n <= q * d`.
   */
  function CeilDiv(n: int, d: int): (q: int)
    requires d > 0
    ensures (q - 1) * d < n <= q * d
    ensures n >= 0 ==> q >= 0
  {
    (n + d - 1) / d
  }
}
