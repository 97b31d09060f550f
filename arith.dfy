/** Integer helpers shared by the other modules. */
module Arith {

  /** The smaller of two integers. */
  function Min(a: int, b: int): int { if a <= b then a else b }
}
