/** Small integer helpers shared by the modules of the model. */
module Arith {

  /** JavaScript's `Math.min` on two integers. */
  function Min(a: int, b: int): int {
    if a <= b then a else b
  }

  /** JavaScript's `Math.max` on two integers. */
  function Max(a: int, b: int): int {
    if a >= b then a else b
  }
}
