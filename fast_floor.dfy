/** `utils::fast_floor`: truncate, and subtract one for non-positive input. */
module FastFloorUtil {
  import opened Cast

  /** Floor by truncation. It is the true floor except at the non-positive
      integers, where it is one less (0.0 gives -1, -2.0 gives -3).
      `to_int().unwrap()` fails when the truncated value is not an i64:
      that is the precondition. */
  function FastFloor(x: real): (r: int)
    requires TruncFitsI64(x)
    ensures I64Min <= r <= I64Max
    ensures x > 0.0 ==> r == x.Floor
    ensures x <= 0.0 && !IsInteger(x) ==> r == x.Floor
    ensures x <= 0.0 && IsInteger(x) ==> r == x.Floor - 1
    ensures r as real <= x
    ensures x > 0.0 ==> x - r as real < 1.0
    ensures x <= 0.0 ==> 0.0 < x - r as real <= 1.0
  {
    if x > 0.0 then Trunc(x) else Trunc(x) - 1
  }

  /** At a lattice point the cell offset `x - FastFloor(x)` is 0 above zero
      and 1 at and below zero. */
  lemma FastFloorAtInteger(n: int)
    requires TruncFitsI64(n as real)
    ensures FastFloor(n as real) == if n > 0 then n else n - 1
    ensures n as real - FastFloor(n as real) as real == if n > 0 then 0.0 else 1.0
  {
  }
}
