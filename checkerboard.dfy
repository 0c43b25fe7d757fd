/** `gen::Checkerboard`: a parity pattern on the unit lattice. It floors with
    the true `floor()`, not with `fast_floor`. */
module GenCheckerboard {
  import opened Cast
  import opened IfElseUtil

  /** `i & 1` on a two's-complement integer. */
  function LowBit(i: int): (b: nat)
    ensures b < 2
    ensures (i - b) % 2 == 0
  {
    i % 2
  }

  /** `^` on one-bit values. */
  function Xor(a: nat, b: nat): (c: nat)
    requires a < 2 && b < 2
    ensures c < 2 && (a + b - c) % 2 == 0
  {
    if a == b then 0 else 1
  }

  /** A fieldless unit struct. */
  datatype Checkerboard = Checkerboard {

    function Noise1D(x: real): (r: real)
      requires FloorFitsI64(x)
      ensures r == 1.0 || r == -1.0
    {
      var ix := x.Floor;
      IfElse(LowBit(ix) == 1, -1.0, 1.0)
    }

    function Noise2D(x: real, y: real): (r: real)
      requires FloorFitsI64(x) && FloorFitsI64(y)
      ensures r == 1.0 || r == -1.0
    {
      var ix := x.Floor;
      var iy := y.Floor;
      IfElse(Xor(LowBit(ix), LowBit(iy)) == 1, -1.0, 1.0)
    }

    function Noise3D(x: real, y: real, z: real): (r: real)
      requires FloorFitsI64(x) && FloorFitsI64(y) && FloorFitsI64(z)
      ensures r == 1.0 || r == -1.0
    {
      var ix := x.Floor;
      var iy := y.Floor;
      var iz := z.Floor;
      IfElse(Xor(Xor(LowBit(ix), LowBit(iy)), LowBit(iz)) == 1, -1.0, 1.0)
    }
  }

  /** -1 on the cells with an odd floor, 1 on the even ones; negative
      coordinates use the true floor, so -0.5 lies in the odd cell -1. */
  lemma Noise1DParity(c: Checkerboard, x: real)
    requires FloorFitsI64(x)
    ensures c.Noise1D(x) == -1.0 <==> x.Floor % 2 != 0
    ensures c.Noise1D(x) == 1.0 <==> x.Floor % 2 == 0
  {
  }

  /** Constant on each cell [n, n + 1). */
  lemma Noise1DConstantOnCell(c: Checkerboard, n: int, x: real)
    requires n as real <= x < n as real + 1.0
    requires FloorFitsI64(x) && FloorFitsI64(n as real)
    ensures c.Noise1D(x) == c.Noise1D(n as real)
  {
  }

  /** Neighbouring cells have opposite values. */
  lemma Noise1DFlip(c: Checkerboard, x: real)
    requires FloorFitsI64(x) && FloorFitsI64(x + 1.0)
    ensures c.Noise1D(x + 1.0) == -c.Noise1D(x)
  {
    assert (x + 1.0).Floor == x.Floor + 1;
  }

  /** The pattern has period 2. */
  lemma {:induction false} Noise1DPeriod2(c: Checkerboard, x: real)
    requires FloorFitsI64(x) && FloorFitsI64(x + 2.0)
    ensures c.Noise1D(x + 2.0) == c.Noise1D(x)
  {
    Noise1DFlip(c, x);
    Noise1DFlip(c, x + 1.0);
    assert x + 1.0 + 1.0 == x + 2.0;
  }

  /** 2D: the XOR of the two parities, that is, the product of the 1D values. */
  lemma Noise2DProduct(c: Checkerboard, x: real, y: real)
    requires FloorFitsI64(x) && FloorFitsI64(y)
    ensures c.Noise2D(x, y) == c.Noise1D(x) * c.Noise1D(y)
    ensures c.Noise2D(x, y) == c.Noise2D(y, x)
  {
  }

  /** 3D: the product of the three 1D values. */
  lemma Noise3DProduct(c: Checkerboard, x: real, y: real, z: real)
    requires FloorFitsI64(x) && FloorFitsI64(y) && FloorFitsI64(z)
    ensures c.Noise3D(x, y, z) == c.Noise1D(x) * c.Noise1D(y) * c.Noise1D(z)
  {
  }

  /** Sample values at cell centres. */
  lemma Samples(c: Checkerboard)
    ensures c.Noise1D(0.5) == 1.0 && c.Noise1D(1.5) == -1.0 && c.Noise1D(2.5) == 1.0
    ensures c.Noise1D(-0.5) == -1.0
    ensures c.Noise2D(0.5, 0.5) == 1.0 && c.Noise2D(1.5, 0.5) == -1.0
  {
    assert (0.5).Floor == 0 && (1.5).Floor == 1 && (2.5).Floor == 2 && (-0.5).Floor == -1;
  }
}
