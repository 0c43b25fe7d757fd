/** `noise::gen::ImprovedPerlin`: the older lineage of the improved Perlin
    generator, evaluated through `utils::fastfloor`. */
module NoiseImprovedPerlin {
  import opened Cast
  import opened PermTable
  import opened FastfloorUtil
  import opened FadeUtil
  import opened LerpUtil
  import opened GradUtil
  import FastFloorUtil
  import GenPerlin

  datatype ImprovedPerlin = ImprovedPerlin(perm: seq<Byte>) {

    /** What the constructors establish. */
    predicate Valid() {
      Duplicated(perm)
    }

    function Noise1D(x: real): real
      requires |perm| == TableSize && TruncFitsI64(x)
    {
      var ix0 := Fastfloor(x);
      var fx0 := x - ix0 as real;
      var fx1 := fx0 - 1.0;
      var ix1 := ix0 + 1;
      var ii := Wrap(ix0);
      var jj := Wrap(ix1);
      var s := Fade(fx0);
      var gi0 := perm[ii];
      var gi1 := perm[jj];
      var nx0 := Grad1(gi0, fx0);
      var nx1 := Grad1(gi1, fx1);
      0.188 * Lerp(s, nx0, nx1)
    }

    function Noise2D(x: real, y: real): real
      requires |perm| == TableSize && TruncFitsI64(x) && TruncFitsI64(y)
    {
      var ix0 := Fastfloor(x);
      var iy0 := Fastfloor(y);
      var fx0 := x - ix0 as real;
      var fy0 := y - iy0 as real;
      var fx1 := fx0 - 1.0;
      var fy1 := fy0 - 1.0;
      var ix1 := Wrap(ix0 + 1);
      var iy1 := Wrap(iy0 + 1);
      var ii := Wrap(ix0);
      var jj := Wrap(iy0);
      var t := Fade(fy0);
      var s := Fade(fx0);
      var gi0 := perm[Chain(perm, ii, jj)];
      var gi1 := perm[Chain(perm, ii, iy1)];
      var gi2 := perm[Chain(perm, ix1, jj)];
      var gi3 := perm[Chain(perm, ix1, iy1)];
      var nx0 := Grad2(gi0, fx0, fy0);
      var nx1 := Grad2(gi1, fx0, fy1);
      var nx2 := Grad2(gi2, fx1, fy0);
      var nx3 := Grad2(gi3, fx1, fy1);
      var n0 := Lerp(t, nx0, nx1);
      var n1 := Lerp(t, nx2, nx3);
      0.507 * Lerp(s, n0, n1)
    }

    function Noise3D(x: real, y: real, z: real): real
      requires |perm| == TableSize && TruncFitsI64(x) && TruncFitsI64(y) && TruncFitsI64(z)
    {
      var ix0 := Fastfloor(x);
      var iy0 := Fastfloor(y);
      var iz0 := Fastfloor(z);
      var fx0 := x - ix0 as real;
      var fy0 := y - iy0 as real;
      var fz0 := z - iz0 as real;
      var fx1 := fx0 - 1.0;
      var fy1 := fy0 - 1.0;
      var fz1 := fz0 - 1.0;
      var ix1 := Wrap(ix0 + 1);
      var iy1 := Wrap(iy0 + 1);
      var iz1 := Wrap(iz0 + 1);
      var ii := Wrap(ix0);
      var jj := Wrap(iy0);
      var kk := Wrap(iz0);
      var r := Fade(fz0);
      var t := Fade(fy0);
      var s := Fade(fx0);
      var gi0 := perm[Chain(perm, ii, Chain(perm, jj, kk))];
      var gi1 := perm[Chain(perm, ii, Chain(perm, jj, iz1))];
      var gi2 := perm[Chain(perm, ii, Chain(perm, iy1, kk))];
      var gi3 := perm[Chain(perm, ii, Chain(perm, iy1, iz1))];
      var gi4 := perm[Chain(perm, ix1, Chain(perm, jj, kk))];
      var gi5 := perm[Chain(perm, ix1, Chain(perm, jj, iz1))];
      var gi6 := perm[Chain(perm, ix1, Chain(perm, iy1, kk))];
      var gi7 := perm[Chain(perm, ix1, Chain(perm, iy1, iz1))];
      var nxy0 := Grad3(gi0, fx0, fy0, fz0);
      var nxy1 := Grad3(gi1, fx0, fy0, fz1);
      var nxy2 := Grad3(gi2, fx0, fy1, fz0);
      var nxy3 := Grad3(gi3, fx0, fy1, fz1);
      var nxy4 := Grad3(gi4, fx1, fy0, fz0);
      var nxy5 := Grad3(gi5, fx1, fy0, fz1);
      var nxy6 := Grad3(gi6, fx1, fy1, fz0);
      var nxy7 := Grad3(gi7, fx1, fy1, fz1);
      var nx0 := Lerp(r, nxy0, nxy1);
      var nx1 := Lerp(r, nxy2, nxy3);
      var nx2 := Lerp(r, nxy4, nxy5);
      var nx3 := Lerp(r, nxy6, nxy7);
      var n0 := Lerp(t, nx0, nx1);
      var n1 := Lerp(t, nx2, nx3);
      0.936 * Lerp(s, n0, n1)
    }
  }

  /** `from_rng`: draws exactly 256 bytes from the source and duplicates them. */
  function FromRng(rng: seq<Byte>): (r: (ImprovedPerlin, seq<Byte>))
    requires |rng| >= BaseSize
    ensures r.0.Valid()
    ensures r.0.perm[..BaseSize] == rng[..BaseSize]
    ensures r.1 == rng[BaseSize..]
  {
    var (p, rest) := Draw(rng);
    (ImprovedPerlin(Duplicate(p)), rest)
  }

  /** The built table holds `perm[i] == p[i & 255]`, and it is the table
      `gen::Perlin::from_rng` builds from the same bytes. */
  lemma {:induction false} FromRngTable(rng: seq<Byte>, i: nat)
    requires |rng| >= BaseSize && i < TableSize
    ensures FromRng(rng).0.perm[i] == rng[Wrap(i)]
    ensures FromRng(rng).0.perm == GenPerlin.FromRng(rng).0.perm
    ensures FromRng(rng).1 == GenPerlin.FromRng(rng).1
  {
    DuplicateAt(rng[..BaseSize], i);
  }

  /** The derived `PartialEq`: equal exactly when the tables are equal. */
  lemma EqualIffSameTable(g: ImprovedPerlin, h: ImprovedPerlin)
    ensures g == h <==> g.perm == h.perm
  {
  }

  /** The wrapped cell indices lie in [0, 255] and the far corner is the near
      one plus one, modulo 256. */
  lemma {:induction false} CellIndices(x: real)
    requires TruncFitsI64(x)
    ensures 0.0 <= x - Fastfloor(x) as real <= 1.0
    ensures Wrap(Fastfloor(x)) < BaseSize && Wrap(Fastfloor(x) + 1) < BaseSize
    ensures Wrap(Fastfloor(x) + 1) == (Wrap(Fastfloor(x)) + 1) % BaseSize
  {
    WrapSucc(Fastfloor(x));
  }

  /** Both lineages compute the same 1D noise from the same table. */
  lemma {:induction false} Noise1DAgrees(g: ImprovedPerlin, x: real)
    requires |g.perm| == TableSize && TruncFitsI64(x)
    ensures g.Noise1D(x) == GenPerlin.Perlin(g.perm).Noise1D(x)
  {
    AgreesWithFastFloor(x);
  }

  lemma {:induction false} Noise2DAgrees(g: ImprovedPerlin, x: real, y: real)
    requires |g.perm| == TableSize && TruncFitsI64(x) && TruncFitsI64(y)
    ensures g.Noise2D(x, y) == GenPerlin.Perlin(g.perm).Noise2D(x, y)
  {
    AgreesWithFastFloor(x);
    AgreesWithFastFloor(y);
  }

  lemma {:induction false} Noise3DAgrees(g: ImprovedPerlin, x: real, y: real, z: real)
    requires |g.perm| == TableSize && TruncFitsI64(x) && TruncFitsI64(y) && TruncFitsI64(z)
    ensures g.Noise3D(x, y, z) == GenPerlin.Perlin(g.perm).Noise3D(x, y, z)
  {
    AgreesWithFastFloor(x);
    AgreesWithFastFloor(y);
    AgreesWithFastFloor(z);
  }

  /** The noise is 0 at every integer lattice point, in each dimension. */
  lemma {:induction false} Noise1DLattice(g: ImprovedPerlin, n: int)
    requires |g.perm| == TableSize && TruncFitsI64(n as real)
    ensures g.Noise1D(n as real) == 0.0
  {
    Noise1DAgrees(g, n as real);
    GenPerlin.Noise1DLattice(GenPerlin.Perlin(g.perm), n);
  }

  lemma {:induction false} Noise2DLattice(g: ImprovedPerlin, m: int, n: int)
    requires |g.perm| == TableSize && TruncFitsI64(m as real) && TruncFitsI64(n as real)
    ensures g.Noise2D(m as real, n as real) == 0.0
  {
    Noise2DAgrees(g, m as real, n as real);
    GenPerlin.Noise2DLattice(GenPerlin.Perlin(g.perm), m, n);
  }

  lemma {:induction false} Noise3DLattice(g: ImprovedPerlin, l: int, m: int, n: int)
    requires |g.perm| == TableSize
    requires TruncFitsI64(l as real) && TruncFitsI64(m as real) && TruncFitsI64(n as real)
    ensures g.Noise3D(l as real, m as real, n as real) == 0.0
  {
    Noise3DAgrees(g, l as real, m as real, n as real);
    GenPerlin.Noise3DLattice(GenPerlin.Perlin(g.perm), l, m, n);
  }

  /** The 1D noise repeats every 256 units. */
  lemma {:induction false} Noise1DPeriodic(g: ImprovedPerlin, x: real)
    requires |g.perm| == TableSize && TruncFitsI64(x) && TruncFitsI64(x + 256.0)
    ensures g.Noise1D(x + 256.0) == g.Noise1D(x)
  {
    Noise1DAgrees(g, x);
    Noise1DAgrees(g, x + 256.0);
    GenPerlin.Noise1DPeriodic(GenPerlin.Perlin(g.perm), x);
  }
}
