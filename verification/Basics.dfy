/**
 Types and conversions that several parts of the model share.
 */
module Basics {

  datatype Option<+T> = None | Some(value: T)

  type Byte = x: int | 0 <= x < 256

  /** Go's conversion of a float to an int, toward zero. */
  function Truncate(x: real): int {
    if x < 0.0 then -((-x).Floor) else x.Floor
  }

  /** `n` is `x` without its fraction. */
  predicate WholePart(n: int, x: real) {
    if x >= 0.0 then n as real <= x < n as real + 1.0 else n as real - 1.0 < x <= n as real
  }

  lemma TruncateIsWholePart(x: real)
    ensures WholePart(Truncate(x), x)
  {
  }
}
