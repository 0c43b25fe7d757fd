/** `noise::gen::Simplex`: the older lineage of the simplex generator, with
    its own inlined copies of the floor, select and gradient helpers. */
module NoiseSimplex {
  import opened Cast
  import opened PermTable
  import FastfloorUtil
  import FastFloorUtil
  import IfElseUtil
  import GradUtil
  import GenSimplex

  /** The inlined `fastfloor`: `x as int`, minus one unless x is positive. */
  function Fastfloor(x: real): (r: int)
    requires TruncFitsI64(x)
    ensures x > 0.0 ==> r == Trunc(x)
    ensures x <= 0.0 ==> r == Trunc(x) - 1
    ensures r as real <= x && x - r as real <= 1.0
  {
    if x > 0.0 then Trunc(x) else Trunc(x) - 1
  }

  /** The inlined `if_true_else`. */
  function IfTrueElse(cond: bool, ifTrue: real, ifFalse: real): (r: real)
    ensures cond ==> r == ifTrue
    ensures !cond ==> r == ifFalse
  {
    if cond then ifTrue else ifFalse
  }

  function Grad1(hash: nat, x: real): real {
    var h := hash % 16;
    var grad := 1.0 + (h % 8) as real;
    var grad' := if GradUtil.Masked(h, 8) then -grad else grad;
    grad' * x
  }

  function Grad2(hash: nat, x: real, y: real): real {
    var h := hash % 8;
    var u := IfTrueElse(h < 4, x, y);
    var v := IfTrueElse(h < 4, y, x);
    IfTrueElse(GradUtil.Masked(h, 1), -u, u) + IfTrueElse(GradUtil.Masked(h, 2), -2.0 * v, 2.0 * v)
  }

  function Grad3(hash: nat, x: real, y: real, z: real): real {
    var h := hash % 16;
    var u := IfTrueElse(h < 8, x, y);
    var v := IfTrueElse(h < 4, y, IfTrueElse(h == 12 || h == 14, x, z));
    IfTrueElse(GradUtil.Masked(h, 1), -u, u) + IfTrueElse(GradUtil.Masked(h, 2), -v, v)
  }

  /** The inlined helpers are the shared ones of `utils`. */
  lemma FastfloorIsShared(x: real)
    requires TruncFitsI64(x)
    ensures Fastfloor(x) == FastfloorUtil.Fastfloor(x)
  {
  }

  /** So the generator's floor is `fast_floor`, which `gen::Simplex` uses. */
  lemma FastfloorIsFastFloorAll()
    ensures forall x: real :: TruncFitsI64(x) ==> Fastfloor(x) == FastFloorUtil.FastFloor(x)
  {
    forall x: real | TruncFitsI64(x)
      ensures Fastfloor(x) == FastFloorUtil.FastFloor(x)
    {
      FastfloorIsShared(x);
      FastfloorUtil.AgreesWithFastFloor(x);
    }
  }

  lemma IfTrueElseIsShared(cond: bool, a: real, b: real)
    ensures IfTrueElse(cond, a, b) == IfElseUtil.IfElse(cond, a, b)
  {
  }

  lemma {:induction false} GradsAreShared(hash: nat, x: real, y: real, z: real)
    ensures Grad1(hash, x) == GradUtil.Grad1(hash, x)
    ensures Grad2(hash, x, y) == GradUtil.Grad2(hash, x, y)
    ensures Grad3(hash, x, y, z) == GradUtil.Grad3(hash, x, y, z)
  {
    var h := hash % 16;
    var u := IfTrueElse(h < 8, x, y);
    var v := IfTrueElse(h < 4, y, IfTrueElse(h == 12 || h == 14, x, z));
    IfTrueElseIsShared(h == 12 || h == 14, x, z);
    IfTrueElseIsShared(h < 4, y, IfTrueElse(h == 12 || h == 14, x, z));
    IfTrueElseIsShared(h < 8, x, y);
    IfTrueElseIsShared(GradUtil.Masked(h, 1), -u, u);
    IfTrueElseIsShared(GradUtil.Masked(h, 2), -v, v);
  }

  lemma GradsAreSharedAll()
    ensures forall hash: nat, x: real :: Grad1(hash, x) == GradUtil.Grad1(hash, x)
    ensures forall hash: nat, x: real, y: real :: Grad2(hash, x, y) == GradUtil.Grad2(hash, x, y)
    ensures forall hash: nat, x: real, y: real, z: real ::
      Grad3(hash, x, y, z) == GradUtil.Grad3(hash, x, y, z)
  {
    forall hash: nat, x: real, y: real, z: real
      ensures Grad1(hash, x) == GradUtil.Grad1(hash, x)
      ensures Grad2(hash, x, y) == GradUtil.Grad2(hash, x, y)
      ensures Grad3(hash, x, y, z) == GradUtil.Grad3(hash, x, y, z)
    {
      GradsAreShared(hash, x, y, z);
    }
  }

  datatype Simplex = Simplex(perm: seq<Byte>) {

    /** What the constructors establish. */
    predicate Valid() {
      Duplicated(perm)
    }

    function Noise1D(x: real): real
      requires |perm| == TableSize && TruncFitsI64(x)
    {
      var i0 := Fastfloor(x);
      var i1 := i0 + 1;
      var x0 := x - i0 as real;
      var x1 := x0 - 1.0;
      var gi0 := perm[Wrap(i0)];
      var gi1 := perm[Wrap(i1)];
      var n0 := GenSimplex.Radial1(x0, Grad1(gi0, x0));
      var n1 := GenSimplex.Radial1(x1, Grad1(gi1, x1));
      0.395 * (n0 + n1)
    }

    function Noise2D(x: real, y: real): real
      requires |perm| == TableSize && GenSimplex.SkewFits2(x, y)
    {
      var s := (x + y) * GenSimplex.F2;
      var i := Fastfloor(x + s);
      var j := Fastfloor(y + s);
      var t := (i + j) as real * GenSimplex.G2;
      var x0 := x - (i as real - t);
      var y0 := y - (j as real - t);
      var (i1, j1) := GenSimplex.Corner2(x0, y0);
      var x1 := x0 - i1 as real + GenSimplex.G2;
      var y1 := y0 - j1 as real + GenSimplex.G2;
      var x2 := x0 - 1.0 + 2.0 * GenSimplex.G2;
      var y2 := y0 - 1.0 + 2.0 * GenSimplex.G2;
      var ii := Wrap(i);
      var jj := Wrap(j);
      var gi0 := perm[Chain(perm, ii, jj)];
      var gi1 := perm[Chain(perm, ii + i1, jj + j1)];
      var gi2 := perm[Chain(perm, ii + 1, jj + 1)];
      var n0 := GenSimplex.Falloff(0.5 - x0 * x0 - y0 * y0, Grad2(gi0, x0, y0));
      var n1 := GenSimplex.Falloff(0.5 - x1 * x1 - y1 * y1, Grad2(gi1, x1, y1));
      var n2 := GenSimplex.Falloff(0.5 - x2 * x2 - y2 * y2, Grad2(gi2, x2, y2));
      40.0 * (n0 + n1 + n2)
    }

    function Noise3D(x: real, y: real, z: real): real
      requires |perm| == TableSize && GenSimplex.SkewFits3(x, y, z)
    {
      var s := (x + y + z) * GenSimplex.F3;
      var i := Fastfloor(x + s);
      var j := Fastfloor(y + s);
      var k := Fastfloor(z + s);
      var t := (i + j + k) as real * GenSimplex.G3;
      var x0 := x - (i as real - t);
      var y0 := y - (j as real - t);
      var z0 := z - (k as real - t);
      var o := GenSimplex.Rank3(x0, y0, z0);
      var x1 := x0 - o.i1 as real + GenSimplex.G3;
      var y1 := y0 - o.j1 as real + GenSimplex.G3;
      var z1 := z0 - o.k1 as real + GenSimplex.G3;
      var x2 := x0 - o.i2 as real + 2.0 * GenSimplex.G3;
      var y2 := y0 - o.j2 as real + 2.0 * GenSimplex.G3;
      var z2 := z0 - o.k2 as real + 2.0 * GenSimplex.G3;
      var x3 := x0 - 1.0 + 3.0 * GenSimplex.G3;
      var y3 := y0 - 1.0 + 3.0 * GenSimplex.G3;
      var z3 := z0 - 1.0 + 3.0 * GenSimplex.G3;
      var ii := Wrap(i);
      var jj := Wrap(j);
      var kk := Wrap(k);
      var gi0 := perm[Chain(perm, ii, Chain(perm, jj, kk))];
      var gi1 := perm[Chain(perm, ii + o.i1, Chain(perm, jj + o.j1, kk + o.k1))];
      var gi2 := perm[Chain(perm, ii + o.i2, Chain(perm, jj + o.j2, kk + o.k2))];
      var gi3 := perm[Chain(perm, ii + 1, Chain(perm, jj + 1, kk + 1))];
      var n0 := GenSimplex.Falloff(0.6 - x0 * x0 - y0 * y0 - z0 * z0, Grad3(gi0, x0, y0, z0));
      var n1 := GenSimplex.Falloff(0.6 - x1 * x1 - y1 * y1 - z1 * z1, Grad3(gi1, x1, y1, z1));
      var n2 := GenSimplex.Falloff(0.6 - x2 * x2 - y2 * y2 - z2 * z2, Grad3(gi2, x2, y2, z2));
      var n3 := GenSimplex.Falloff(0.6 - x3 * x3 - y3 * y3 - z3 * z3, Grad3(gi3, x3, y3, z3));
      32.0 * (n0 + n1 + n2 + n3)
    }

    /** The hand-written `PartialEq`: two generators compare equal exactly
        when they are the same generator. */
    function Eq(other: Simplex): (b: bool)
      ensures b <==> this == other
    {
      perm == other.perm
    }
  }

  /** `from_rng`: draws exactly 256 bytes from the source and duplicates them. */
  function FromRng(rng: seq<Byte>): (r: (Simplex, seq<Byte>))
    requires |rng| >= BaseSize
    ensures r.0.Valid()
    ensures r.0.perm[..BaseSize] == rng[..BaseSize]
    ensures r.1 == rng[BaseSize..]
  {
    var (p, rest) := Draw(rng);
    (Simplex(Duplicate(p)), rest)
  }

  /** The built table holds `perm[i] == p[i & 255]`, and it is the table
      `gen::Simplex::from_rng` builds from the same bytes. */
  lemma {:induction false} FromRngTable(rng: seq<Byte>, i: nat)
    requires |rng| >= BaseSize && i < TableSize
    ensures FromRng(rng).0.perm[i] == rng[Wrap(i)]
    ensures FromRng(rng).0.perm == GenSimplex.FromRng(rng).0.perm
  {
    DuplicateAt(rng[..BaseSize], i);
  }

  /** Both simplex lineages compute the same noise from the same table. */
  lemma {:induction false} Noise1DAgrees(g: Simplex, x: real)
    requires |g.perm| == TableSize && TruncFitsI64(x)
    ensures g.Noise1D(x) == GenSimplex.Simplex(g.perm).Noise1D(x)
  {
    FastfloorIsFastFloorAll();
    GradsAreSharedAll();
  }

  /** After the floor step both lineages compute the same cell-local noise. */
  lemma {:induction false} Noise2DInCell(g: Simplex, x: real, y: real)
    requires |g.perm| == TableSize && GenSimplex.SkewFits2(x, y)
    ensures g.Noise2D(x, y) ==
      GenSimplex.CellNoise2D(g.perm, x, y, Fastfloor(x + (x + y) * GenSimplex.F2),
                             Fastfloor(y + (x + y) * GenSimplex.F2))
  {
    GradsAreSharedAll();
  }

  lemma {:induction false} Noise3DInCell(g: Simplex, x: real, y: real, z: real)
    requires |g.perm| == TableSize && GenSimplex.SkewFits3(x, y, z)
    ensures g.Noise3D(x, y, z) ==
      GenSimplex.CellNoise3D(g.perm, x, y, z, Fastfloor(x + (x + y + z) * GenSimplex.F3),
                             Fastfloor(y + (x + y + z) * GenSimplex.F3),
                             Fastfloor(z + (x + y + z) * GenSimplex.F3))
  {
    GradsAreSharedAll();
  }

  lemma {:induction false} Noise2DAgrees(g: Simplex, x: real, y: real)
    requires |g.perm| == TableSize && GenSimplex.SkewFits2(x, y)
    ensures g.Noise2D(x, y) == GenSimplex.Simplex(g.perm).Noise2D(x, y)
  {
    FastfloorIsFastFloorAll();
    Noise2DInCell(g, x, y);
    GenSimplex.Noise2DInCell(GenSimplex.Simplex(g.perm), x, y);
  }

  lemma {:induction false} Noise3DAgrees(g: Simplex, x: real, y: real, z: real)
    requires |g.perm| == TableSize && GenSimplex.SkewFits3(x, y, z)
    ensures g.Noise3D(x, y, z) == GenSimplex.Simplex(g.perm).Noise3D(x, y, z)
  {
    FastfloorIsFastFloorAll();
    Noise3DInCell(g, x, y, z);
    GenSimplex.Noise3DInCell(GenSimplex.Simplex(g.perm), x, y, z);
  }

  /** 1D simplex noise vanishes at every integer. */
  lemma {:induction false} Noise1DLattice(g: Simplex, n: int)
    requires |g.perm| == TableSize && TruncFitsI64(n as real)
    ensures g.Noise1D(n as real) == 0.0
  {
    Noise1DAgrees(g, n as real);
    GenSimplex.Noise1DLattice(GenSimplex.Simplex(g.perm), n);
  }

  /** The 1D offsets lie within one unit of their corners, so the missing
      clamp changes nothing (see `GenSimplex.Radial1IsFalloff`). */
  lemma {:induction false} Noise1DCorners(g: Simplex, x: real)
    requires |g.perm| == TableSize && TruncFitsI64(x)
    ensures var x0 := x - Fastfloor(x) as real;
            0.0 <= x0 <= 1.0 && -1.0 <= x0 - 1.0 <= 0.0 &&
            g.Noise1D(x) ==
              0.395 * (GenSimplex.Radial1(x0, Grad1(g.perm[Wrap(Fastfloor(x))], x0)) +
                       GenSimplex.Radial1(x0 - 1.0, Grad1(g.perm[Wrap(Fastfloor(x) + 1)], x0 - 1.0)))
  {
  }

  /** The radial bases of the two 1D corners are not negative, so the clamp
      `noise2d` and `noise3d` apply would not fire in `noise1d` either. */
  lemma {:induction false} Noise1DBasesNonNegative(x: real)
    requires TruncFitsI64(x)
    ensures var x0 := x - Fastfloor(x) as real;
            0.0 <= 1.0 - x0 * x0 && 0.0 <= 1.0 - (x0 - 1.0) * (x0 - 1.0)
  {
    FastfloorIsShared(x);
    FastfloorUtil.AgreesWithFastFloor(x);
    GenSimplex.SquareAtMostOne(x - Fastfloor(x) as real);
    GenSimplex.SquareAtMostOne(x - Fastfloor(x) as real - 1.0);
  }
}
