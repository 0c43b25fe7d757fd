/** `gen::Simplex`: simplex noise after Stefan Gustavson's "Simplex noise
    demystified", with the rank-ordering corner selection. */
module GenSimplex {
  import opened Cast
  import opened PermTable
  import opened FastFloorUtil
  import opened GradUtil

  /** The skew and unskew factors, as the decimal constants the source uses
      (close to (sqrt(3) - 1) / 2, (3 - sqrt(3)) / 6, 1/3 and 1/6). */
  const F2: real := 0.366025403784
  const G2: real := 0.211324865405
  const F3: real := 0.333333333333
  const G3: real := 0.166666666667

  /** The second corner of the 2D simplex, as an (i1, j1) step: along x when
      x0 > y0 (lower triangle), along y otherwise, ties included. */
  function Corner2(x0: real, y0: real): (c: (nat, nat))
    ensures c.0 + c.1 == 1
    ensures c.0 == 1 <==> x0 > y0
    ensures c.0 == 1 ==> x0 >= y0
    ensures c.1 == 1 ==> y0 >= x0
  {
    if x0 > y0 then (1, 0) else (0, 1)
  }

  /** The second and third corners of the 3D simplex, as steps (i1, j1, k1)
      and (i2, j2, k2) from the cell origin. */
  datatype Steps3 = Steps3(i1: nat, j1: nat, k1: nat, i2: nat, j2: nat, k2: nat)

  /** The six-way ranking of (x0, y0, z0). The first step goes along the axis
      holding the largest coordinate; the second adds the axis holding the
      middle one, so the axis left out holds the smallest. */
  function Rank3(x0: real, y0: real, z0: real): (s: Steps3)
    ensures s.i1 + s.j1 + s.k1 == 1
    ensures s.i2 + s.j2 + s.k2 == 2
    ensures s.i1 <= s.i2 <= 1 && s.j1 <= s.j2 <= 1 && s.k1 <= s.k2 <= 1
    ensures s.i1 == 1 ==> x0 >= y0 && x0 >= z0
    ensures s.j1 == 1 ==> y0 >= x0 && y0 >= z0
    ensures s.k1 == 1 ==> z0 >= x0 && z0 >= y0
    ensures s.i2 == 0 ==> x0 <= y0 && x0 <= z0
    ensures s.j2 == 0 ==> y0 <= x0 && y0 <= z0
    ensures s.k2 == 0 ==> z0 <= x0 && z0 <= y0
  {
    if x0 >= y0 then
      if y0 >= z0 then Steps3(1, 0, 0, 1, 1, 0)       // X Y Z order
      else if x0 >= z0 then Steps3(1, 0, 0, 1, 0, 1)  // X Z Y order
      else Steps3(0, 0, 1, 1, 0, 1)                   // Z X Y order
    else
      if y0 < z0 then Steps3(0, 0, 1, 0, 1, 1)        // Z Y X order
      else if x0 < z0 then Steps3(0, 1, 0, 0, 1, 1)   // Y Z X order
      else Steps3(0, 1, 0, 1, 1, 0)                   // Y X Z order
  }

  /** The six monotone lattice paths from (0,0,0) to (1,1,1). */
  const Paths3: set<Steps3> := {
    Steps3(1, 0, 0, 1, 1, 0), Steps3(1, 0, 0, 1, 0, 1), Steps3(0, 0, 1, 1, 0, 1),
    Steps3(0, 0, 1, 0, 1, 1), Steps3(0, 1, 0, 0, 1, 1), Steps3(0, 1, 0, 1, 1, 0)}

  /** The ranking picks one of the six paths, and each path is picked for the
      points whose coordinates are in the matching strict order, so the six
      branches cover every point and no two share a strict ordering. */
  lemma Rank3Paths(x0: real, y0: real, z0: real)
    ensures Rank3(x0, y0, z0) in Paths3
    ensures x0 > y0 > z0 ==> Rank3(x0, y0, z0) == Steps3(1, 0, 0, 1, 1, 0)
    ensures x0 > z0 > y0 ==> Rank3(x0, y0, z0) == Steps3(1, 0, 0, 1, 0, 1)
    ensures z0 > x0 > y0 ==> Rank3(x0, y0, z0) == Steps3(0, 0, 1, 1, 0, 1)
    ensures z0 > y0 > x0 ==> Rank3(x0, y0, z0) == Steps3(0, 0, 1, 0, 1, 1)
    ensures y0 > z0 > x0 ==> Rank3(x0, y0, z0) == Steps3(0, 1, 0, 0, 1, 1)
    ensures y0 > x0 > z0 ==> Rank3(x0, y0, z0) == Steps3(0, 1, 0, 1, 1, 0)
    ensures |Paths3| == 6
  {
  }

  /** The radial falloff of one corner, `t^4 * grad`, clamped to 0 outside
      the corner's radius. It is 0 for every t <= 0, so the clamp joins the
      two branches continuously. */
  function Falloff(t: real, grad: real): (n: real)
    ensures t <= 0.0 ==> n == 0.0
  {
    if t < 0.0 then 0.0 else (t * t) * (t * t) * grad
  }

  /** One 1D corner contribution as the source writes it: `(1 - x0^2)^4 * grad`
      with no clamp. */
  function Radial1(x0: real, grad: real): real {
    var t := 1.0 - x0 * x0;
    var tsq := t * t;
    tsq * tsq * grad
  }

  lemma SquareAtMostOne(x0: real)
    requires -1.0 <= x0 <= 1.0
    ensures x0 * x0 <= 1.0
  {
    if x0 >= 0.0 {
      assert x0 * x0 <= x0 * 1.0;
    } else {
      assert x0 * x0 <= (-x0) * 1.0;
    }
  }

  /** Within one unit of its corner the unclamped 1D contribution equals the
      clamped falloff used in 2D and 3D, because 1 - x0^2 is not negative
      there. */
  lemma Radial1IsFalloff(x0: real, grad: real)
    requires -1.0 <= x0 <= 1.0
    ensures 0.0 <= 1.0 - x0 * x0
    ensures Radial1(x0, grad) == Falloff(1.0 - x0 * x0, grad)
  {
    SquareAtMostOne(x0);
  }

  /** The skewed cell coordinates of a 2D point fit the floor's range. */
  predicate SkewFits2(x: real, y: real) {
    var s := (x + y) * F2;
    TruncFitsI64(x + s) && TruncFitsI64(y + s)
  }

  predicate SkewFits3(x: real, y: real, z: real) {
    var s := (x + y + z) * F3;
    TruncFitsI64(x + s) && TruncFitsI64(y + s) && TruncFitsI64(z + s)
  }

  datatype Simplex = Simplex(perm: seq<Byte>) {

    predicate Valid() {
      Duplicated(perm)
    }

    function Noise1D(x: real): real
      requires |perm| == TableSize && TruncFitsI64(x)
    {
      var i0 := FastFloor(x);
      var i1 := i0 + 1;
      var x0 := x - i0 as real;
      var x1 := x0 - 1.0;
      var gi0 := perm[Wrap(i0)];
      var gi1 := perm[Wrap(i1)];
      var n0 := Radial1(x0, Grad1(gi0, x0));
      var n1 := Radial1(x1, Grad1(gi1, x1));
      0.395 * (n0 + n1)
    }

    /** Skew the point, take the floors of its skewed coordinates, and
        evaluate the noise of that cell. */
    function Noise2D(x: real, y: real): real
      requires |perm| == TableSize && SkewFits2(x, y)
    {
      var s := (x + y) * F2;
      var i := FastFloor(x + s);
      var j := FastFloor(y + s);
      CellNoise2D(perm, x, y, i, j)
    }

    function Noise3D(x: real, y: real, z: real): real
      requires |perm| == TableSize && SkewFits3(x, y, z)
    {
      var s := (x + y + z) * F3;
      var i := FastFloor(x + s);
      var j := FastFloor(y + s);
      var k := FastFloor(z + s);
      CellNoise3D(perm, x, y, z, i, j, k)
    }
  }

  /** What `noise2d` computes once the skewed cell (i, j) of the point is
      known: unskew the cell origin, pick the triangle, hash the three
      corners and sum their clamped falloffs. */
  function CellNoise2D(perm: seq<Byte>, x: real, y: real, i: int, j: int): real
    requires |perm| == TableSize
  {
    var t := (i + j) as real * G2;
    var x0 := x - (i as real - t);
    var y0 := y - (j as real - t);
    var (i1, j1) := Corner2(x0, y0);
    var x1 := x0 - i1 as real + G2;
    var y1 := y0 - j1 as real + G2;
    var x2 := x0 - 1.0 + 2.0 * G2;
    var y2 := y0 - 1.0 + 2.0 * G2;
    var ii := Wrap(i);
    var jj := Wrap(j);
    var gi0 := perm[Chain(perm, ii, jj)];
    var gi1 := perm[Chain(perm, ii + i1, jj + j1)];
    var gi2 := perm[Chain(perm, ii + 1, jj + 1)];
    var n0 := Falloff(0.5 - x0 * x0 - y0 * y0, Grad2(gi0, x0, y0));
    var n1 := Falloff(0.5 - x1 * x1 - y1 * y1, Grad2(gi1, x1, y1));
    var n2 := Falloff(0.5 - x2 * x2 - y2 * y2, Grad2(gi2, x2, y2));
    40.0 * (n0 + n1 + n2)
  }

  /** What `noise3d` computes once the skewed cell (i, j, k) is known: the
      3D counterpart of `CellNoise2D`, with `Rank3` choosing the tetrahedron. */
  function CellNoise3D(perm: seq<Byte>, x: real, y: real, z: real, i: int, j: int, k: int): real
    requires |perm| == TableSize
  {
    var t := (i + j + k) as real * G3;
    var x0 := x - (i as real - t);
    var y0 := y - (j as real - t);
    var z0 := z - (k as real - t);
    var o := Rank3(x0, y0, z0);
    var x1 := x0 - o.i1 as real + G3;
    var y1 := y0 - o.j1 as real + G3;
    var z1 := z0 - o.k1 as real + G3;
    var x2 := x0 - o.i2 as real + 2.0 * G3;
    var y2 := y0 - o.j2 as real + 2.0 * G3;
    var z2 := z0 - o.k2 as real + 2.0 * G3;
    var x3 := x0 - 1.0 + 3.0 * G3;
    var y3 := y0 - 1.0 + 3.0 * G3;
    var z3 := z0 - 1.0 + 3.0 * G3;
    var ii := Wrap(i);
    var jj := Wrap(j);
    var kk := Wrap(k);
    var gi0 := perm[Chain(perm, ii, Chain(perm, jj, kk))];
    var gi1 := perm[Chain(perm, ii + o.i1, Chain(perm, jj + o.j1, kk + o.k1))];
    var gi2 := perm[Chain(perm, ii + o.i2, Chain(perm, jj + o.j2, kk + o.k2))];
    var gi3 := perm[Chain(perm, ii + 1, Chain(perm, jj + 1, kk + 1))];
    var n0 := Falloff(0.6 - x0 * x0 - y0 * y0 - z0 * z0, Grad3(gi0, x0, y0, z0));
    var n1 := Falloff(0.6 - x1 * x1 - y1 * y1 - z1 * z1, Grad3(gi1, x1, y1, z1));
    var n2 := Falloff(0.6 - x2 * x2 - y2 * y2 - z2 * z2, Grad3(gi2, x2, y2, z2));
    var n3 := Falloff(0.6 - x3 * x3 - y3 * y3 - z3 * z3, Grad3(gi3, x3, y3, z3));
    32.0 * (n0 + n1 + n2 + n3)
  }

  /** Bridge for the cross-lineage agreement: `noise2d` is `CellNoise2D` at
      the floors of the skewed point. */
  lemma Noise2DInCell(g: Simplex, x: real, y: real)
    requires |g.perm| == TableSize && SkewFits2(x, y)
    ensures g.Noise2D(x, y) ==
      CellNoise2D(g.perm, x, y, FastFloor(x + (x + y) * F2), FastFloor(y + (x + y) * F2))
  {
  }

  lemma Noise3DInCell(g: Simplex, x: real, y: real, z: real)
    requires |g.perm| == TableSize && SkewFits3(x, y, z)
    ensures g.Noise3D(x, y, z) ==
      CellNoise3D(g.perm, x, y, z, FastFloor(x + (x + y + z) * F3),
                  FastFloor(y + (x + y + z) * F3), FastFloor(z + (x + y + z) * F3))
  {
  }

  /** `from_rng`: draws exactly 256 bytes from the source and duplicates them. */
  function FromRng(rng: seq<Byte>): (r: (Simplex, seq<Byte>))
    requires |rng| >= BaseSize
    ensures r.0.Valid()
    ensures r.0.perm[..BaseSize] == rng[..BaseSize]
    ensures r.1 == rng[BaseSize..]
  {
    var (p, rest) := Draw(rng);
    (Simplex(Duplicate(p)), rest)
  }

  /** The built table holds `perm[i] == p[i & 255]`. */
  lemma FromRngTable(rng: seq<Byte>, i: nat)
    requires |rng| >= BaseSize && i < TableSize
    ensures FromRng(rng).0.perm[i] == rng[Wrap(i)]
  {
  }

  /** In 1D the offset x0 to the lower corner lies in [0, 1] and the offset
      x1 = x0 - 1 to the upper corner in [-1, 0], and the noise is the sum of
      the two unclamped corner terms; `Radial1IsFalloff` shows each of them equals
      the clamped falloff of 2D and 3D. */
  lemma Noise1DCorners(g: Simplex, x: real)
    requires |g.perm| == TableSize && TruncFitsI64(x)
    ensures var x0 := x - FastFloor(x) as real;
            0.0 <= x0 <= 1.0 && -1.0 <= x0 - 1.0 <= 0.0 &&
            g.Noise1D(x) ==
              0.395 * (Radial1(x0, Grad1(g.perm[Wrap(FastFloor(x))], x0)) +
                       Radial1(x0 - 1.0, Grad1(g.perm[Wrap(FastFloor(x) + 1)], x0 - 1.0)))
  {
  }

  /** The radial bases 1 - x0^2 and 1 - x1^2 of the two 1D corners are not
      negative, so the clamp the 2D and 3D corners apply would not fire. */
  lemma Noise1DBasesNonNegative(x: real)
    requires TruncFitsI64(x)
    ensures var x0 := x - FastFloor(x) as real;
            0.0 <= 1.0 - x0 * x0 && 0.0 <= 1.0 - (x0 - 1.0) * (x0 - 1.0)
  {
    SquareAtMostOne(x - FastFloor(x) as real);
    SquareAtMostOne(x - FastFloor(x) as real - 1.0);
  }

  /** At a lattice point the 1D offset is 0 or 1: one corner has a zero
      offset, hence a zero gradient term, and the other sits on its falloff
      radius, so both corner terms vanish. */
  lemma LatticeCorners1(x0: real, h0: nat, h1: nat)
    requires x0 == 0.0 || x0 == 1.0
    ensures 0.395 * (Radial1(x0, Grad1(h0, x0)) + Radial1(x0 - 1.0, Grad1(h1, x0 - 1.0))) == 0.0
  {
    GradAtZero(h0);
    GradAtZero(h1);
    Radial1ZeroGradient(0.0);
    if x0 == 0.0 {
      Radial1OnRadius(Grad1(h1, -1.0));
    } else {
      Radial1OnRadius(Grad1(h0, 1.0));
    }
  }

  lemma Radial1ZeroGradient(x0: real)
    ensures Radial1(x0, 0.0) == 0.0
  {
  }

  /** A 1D corner one unit away contributes nothing. */
  lemma Radial1OnRadius(grad: real)
    ensures Radial1(1.0, grad) == 0.0 && Radial1(-1.0, grad) == 0.0
  {
  }

  /** 1D simplex noise vanishes at every integer. */
  lemma {:induction false} Noise1DLattice(g: Simplex, n: int)
    requires |g.perm| == TableSize && TruncFitsI64(n as real)
    ensures g.Noise1D(n as real) == 0.0
  {
    FastFloorAtInteger(n);
    LatticeCorners1(n as real - FastFloor(n as real) as real,
                    g.perm[Wrap(FastFloor(n as real))], g.perm[Wrap(FastFloor(n as real) + 1)]);
  }

  /** The unskewed offsets compare like the skewed fractional coordinates,
      so the triangle chosen is the half of the skewed cell that holds the
      point. */
  lemma Corner2FollowsSkewedCell(x: real, y: real)
    requires SkewFits2(x, y)
    ensures var s := (x + y) * F2;
            var i := FastFloor(x + s);
            var j := FastFloor(y + s);
            var t := (i + j) as real * G2;
            var x0 := x - (i as real - t);
            var y0 := y - (j as real - t);
            var xs := x + s - i as real;
            var ys := y + s - j as real;
            0.0 <= xs <= 1.0 && 0.0 <= ys <= 1.0 &&
            (Corner2(x0, y0).0 == 1 <==> xs > ys)
  {
  }

  /** Same for the 3D ranking: it orders the skewed fractional coordinates. */
  lemma Rank3FollowsSkewedCell(x: real, y: real, z: real)
    requires SkewFits3(x, y, z)
    ensures var s := (x + y + z) * F3;
            var i := FastFloor(x + s);
            var j := FastFloor(y + s);
            var k := FastFloor(z + s);
            var t := (i + j + k) as real * G3;
            Rank3(x - (i as real - t), y - (j as real - t), z - (k as real - t)) ==
              Rank3(x + s - i as real, y + s - j as real, z + s - k as real)
  {
  }
}
