/** Integer helpers shared by the keyboard and window models. */
module Integers {

  function Min(a: int, b: int): int {
    if a <= b then a else b
  }

  function Max(a: int, b: int): int {
    if a >= b then a else b
  }

  function Abs(x: int): nat {
    if x < 0 then -x else x
  }
}
