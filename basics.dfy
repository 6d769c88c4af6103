/** Small shared vocabulary: an optional value (Python's `None`) and Python's
    `int(x)` conversion of a float, which truncates toward zero. */
module Basics {

  datatype Option<+T> = None | Some(value: T)

  /** `int(x)` for a float `x`: the integer part, rounding toward zero
      (unlike `x.Floor`, which rounds toward minus infinity). */
  function Trunc(x: real): (n: int)
    ensures x >= 0.0 ==> 0 <= n && n as real <= x < n as real + 1.0
    ensures x < 0.0 ==> n <= 0 && n as real - 1.0 < x <= n as real
  {
    if x >= 0.0 then x.Floor else -((-x).Floor)
  }

  function Min(a: int, b: int): (m: int)
    ensures m <= a && m <= b && (m == a || m == b)
  {
    if a < b then a else b
  }

  function Max(a: int, b: int): (m: int)
    ensures m >= a && m >= b && (m == a || m == b)
  {
    if a < b then b else a
  }
}
