/** Rust's float-to-integer conversions, over the reals.
    `as i64`, `as int` and `to_int()` all truncate toward zero; they are only
    meaningful when the truncated value fits in a signed 64-bit integer. */
module Cast {

  /** 2^63, the magnitude bound of a signed 64-bit integer. */
  const TWO_63: int := 0x8000_0000_0000_0000
  const I64Min: int := -TWO_63
  const I64Max: int := TWO_63 - 1

  /** `x.floor() as int` yields a 64-bit value. */
  predicate FloorFitsI64(x: real) {
    -(TWO_63 as real) <= x < TWO_63 as real
  }

  /** Truncating `x`, and subtracting one from it, both stay within 64 bits. */
  predicate TruncFitsI64(x: real) {
    -(TWO_63 as real) < x < TWO_63 as real
  }

  predicate IsInteger(x: real) {
    x == x.Floor as real
  }

  /** Truncation toward zero. */
  function Trunc(x: real): (r: int)
    ensures x >= 0.0 ==> r as real <= x < r as real + 1.0
    ensures x < 0.0 ==> r as real - 1.0 < x <= r as real
  {
    if x >= 0.0 then x.Floor else -((-x).Floor)
  }
}
