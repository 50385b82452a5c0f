/**
 * JavaScript's number operations on integer arguments.  Dafny's `/` and `%`
 * are Euclidean; for a positive divisor `/` is already `Math.floor(a / b)`,
 * but JavaScript's `%` takes the sign of the dividend and `Math.ceil`
 * rounds towards positive infinity, so both are written out here.
 */
module JsMath {

  /** `Math.floor(a / b)` for a positive divisor. */
  function FloorDiv(a: int, b: int): (q: int)
    requires b > 0
    ensures b * q <= a < b * q + b
  {
    a / b
  }

  /** `Math.trunc(a / b)` for a positive divisor: rounds towards zero. */
  function TruncDiv(a: int, b: int): (q: int)
    requires b > 0
    ensures a >= 0 ==> b * q <= a < b * q + b
    ensures a < 0 ==> b * q - b < a <= b * q
  {
    if a >= 0 then a / b else -((-a) / b)
  }

  /** `a % b` in JavaScript: the remainder of truncating division, signed like `a`. */
  function TruncMod(a: int, b: int): (r: int)
    requires b > 0
    ensures a == b * TruncDiv(a, b) + r
    ensures a >= 0 ==> 0 <= r < b
    ensures a < 0 ==> -b < r <= 0
  {
    if a >= 0 then a % b else -((-a) % b)
  }

  /** `Math.ceil(a / b)` for a positive divisor. */
  function CeilDiv(a: int, b: int): (q: int)
    requires b > 0
    ensures b * (q - 1) < a <= b * q
  {
    -((-a) / b)
  }
}
