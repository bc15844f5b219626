/** Small shared definitions: an optional value, Python's `int()` on a
    real number, and real powers. */
module Common {

  datatype Option<+T> = None | Some(value: T)

  /** Python's `int(x)` for a float `x`: truncation toward zero. */
  function Trunc(x: real): (r: int)
    ensures x >= 0.0 ==> r as real <= x < r as real + 1.0
    ensures x < 0.0 ==> r as real - 1.0 < x <= r as real
    ensures x >= 0.0 ==> r >= 0
  {
    if x >= 0.0 then x.Floor else -((-x).Floor)
  }

  /** `b` raised to the `k`-th power. */
  function Pow(b: real, k: nat): (r: real)
    ensures b != 0.0 ==> r != 0.0
  {
    if k == 0 then 1.0 else b * Pow(b, k - 1)
  }

  function Max(a: int, b: int): int { if a >= b then a else b }
}
