/** `gen::Perlin`: improved Perlin noise (Ken Perlin, "Improving Noise",
    SIGGRAPH 2002) over a duplicated permutation table. */
module GenPerlin {
  import opened Cast
  import opened PermTable
  import opened FastFloorUtil
  import opened FadeUtil
  import opened LerpUtil
  import opened GradUtil

  datatype Perlin = Perlin(perm: seq<Byte>) {

    /** What the constructors establish. */
    predicate Valid() {
      Duplicated(perm)
    }

    function Noise1D(x: real): real
      requires |perm| == TableSize && TruncFitsI64(x)
    {
      var ix0 := FastFloor(x);
      var fx0 := x - ix0 as real;
      var fx1 := fx0 - 1.0;
      var ix1 := ix0 + 1;
      var ii := Wrap(ix0);
      var jj := Wrap(ix1);
      var s := Fade(fx0);
      var gi0 := perm[ii];
      var gi1 := perm[jj];
      var nx0 := Grad1(gi0, fx0);
      var nx1 := Grad1(gi1, fx1);
      0.188 * Lerp(s, nx0, nx1)
    }

    function Noise2D(x: real, y: real): real
      requires |perm| == TableSize && TruncFitsI64(x) && TruncFitsI64(y)
    {
      var ix0 := FastFloor(x);
      var iy0 := FastFloor(y);
      var fx0 := x - ix0 as real;
      var fy0 := y - iy0 as real;
      var fx1 := fx0 - 1.0;
      var fy1 := fy0 - 1.0;
      var ix1 := Wrap(ix0 + 1);
      var iy1 := Wrap(iy0 + 1);
      var ii := Wrap(ix0);
      var jj := Wrap(iy0);
      var t := Fade(fy0);
      var s := Fade(fx0);
      var gi0 := perm[Chain(perm, ii, jj)];
      var gi1 := perm[Chain(perm, ii, iy1)];
      var gi2 := perm[Chain(perm, ix1, jj)];
      var gi3 := perm[Chain(perm, ix1, iy1)];
      var nx0 := Grad2(gi0, fx0, fy0);
      var nx1 := Grad2(gi1, fx0, fy1);
      var nx2 := Grad2(gi2, fx1, fy0);
      var nx3 := Grad2(gi3, fx1, fy1);
      var n0 := Lerp(t, nx0, nx1);
      var n1 := Lerp(t, nx2, nx3);
      0.507 * Lerp(s, n0, n1)
    }

    function Noise3D(x: real, y: real, z: real): real
      requires |perm| == TableSize && TruncFitsI64(x) && TruncFitsI64(y) && TruncFitsI64(z)
    {
      var ix0 := FastFloor(x);
      var iy0 := FastFloor(y);
      var iz0 := FastFloor(z);
      var fx0 := x - ix0 as real;
      var fy0 := y - iy0 as real;
      var fz0 := z - iz0 as real;
      var fx1 := fx0 - 1.0;
      var fy1 := fy0 - 1.0;
      var fz1 := fz0 - 1.0;
      var ix1 := Wrap(ix0 + 1);
      var iy1 := Wrap(iy0 + 1);
      var iz1 := Wrap(iz0 + 1);
      var ii := Wrap(ix0);
      var jj := Wrap(iy0);
      var kk := Wrap(iz0);
      var r := Fade(fz0);
      var t := Fade(fy0);
      var s := Fade(fx0);
      var gi0 := perm[Chain(perm, ii, Chain(perm, jj, kk))];
      var gi1 := perm[Chain(perm, ii, Chain(perm, jj, iz1))];
      var gi2 := perm[Chain(perm, ii, Chain(perm, iy1, kk))];
      var gi3 := perm[Chain(perm, ii, Chain(perm, iy1, iz1))];
      var gi4 := perm[Chain(perm, ix1, Chain(perm, jj, kk))];
      var gi5 := perm[Chain(perm, ix1, Chain(perm, jj, iz1))];
      var gi6 := perm[Chain(perm, ix1, Chain(perm, iy1, kk))];
      var gi7 := perm[Chain(perm, ix1, Chain(perm, iy1, iz1))];
      var nxy0 := Grad3(gi0, fx0, fy0, fz0);
      var nxy1 := Grad3(gi1, fx0, fy0, fz1);
      var nxy2 := Grad3(gi2, fx0, fy1, fz0);
      var nxy3 := Grad3(gi3, fx0, fy1, fz1);
      var nxy4 := Grad3(gi4, fx1, fy0, fz0);
      var nxy5 := Grad3(gi5, fx1, fy0, fz1);
      var nxy6 := Grad3(gi6, fx1, fy1, fz0);
      var nxy7 := Grad3(gi7, fx1, fy1, fz1);
      var nx0 := Lerp(r, nxy0, nxy1);
      var nx1 := Lerp(r, nxy2, nxy3);
      var nx2 := Lerp(r, nxy4, nxy5);
      var nx3 := Lerp(r, nxy6, nxy7);
      var n0 := Lerp(t, nx0, nx1);
      var n1 := Lerp(t, nx2, nx3);
      0.936 * Lerp(s, n0, n1)
    }
  }

  /** `from_rng`: draws exactly 256 bytes from the source and duplicates them. */
  function FromRng(rng: seq<Byte>): (r: (Perlin, seq<Byte>))
    requires |rng| >= BaseSize
    ensures r.0.Valid()
    ensures r.0.perm[..BaseSize] == rng[..BaseSize]
    ensures r.1 == rng[BaseSize..]
  {
    var (p, rest) := Draw(rng);
    (Perlin(Duplicate(p)), rest)
  }

  /** The built table holds `perm[i] == p[i & 255]`, so `perm[i + 256] == perm[i]`. */
  lemma FromRngTable(rng: seq<Byte>, i: nat)
    requires |rng| >= BaseSize && i < TableSize
    ensures FromRng(rng).0.perm[i] == rng[Wrap(i)]
    ensures i < BaseSize ==> FromRng(rng).0.perm[i + BaseSize] == FromRng(rng).0.perm[i]
  {
  }

  /** Two generators built from sources are equal exactly when the sources
      yield the same first 256 bytes: construction is reproducible. */
  lemma FromRngDeterministic(a: seq<Byte>, b: seq<Byte>)
    requires |a| >= BaseSize && |b| >= BaseSize
    ensures FromRng(a).0 == FromRng(b).0 <==> a[..BaseSize] == b[..BaseSize]
  {
  }

  /** The derived `PartialEq`: equal exactly when the tables are equal. */
  lemma EqualIffSameTable(g: Perlin, h: Perlin)
    ensures g == h <==> g.perm == h.perm
  {
  }

  /** The cell decomposition: the offset from the cell corner lies in [0, 1]
      (and is 1 only at the non-positive integers), and the wrapped far corner
      is the wrapped near corner plus one, modulo 256. */
  lemma CellOffsets(x: real)
    requires TruncFitsI64(x)
    ensures 0.0 <= x - FastFloor(x) as real <= 1.0
    ensures x - FastFloor(x) as real == 1.0 ==> x <= 0.0 && IsInteger(x)
    ensures Wrap(FastFloor(x) + 1) == (Wrap(FastFloor(x)) + 1) % BaseSize
  {
    WrapSucc(FastFloor(x));
  }

  /** With cell indices wrapped into [0, 255], every chained lookup index in
      `noise2d` and `noise3d` is at most 510. */
  lemma LookupBound(perm: seq<Byte>, a: nat, b: nat)
    requires |perm| == TableSize && a < BaseSize && b < TableSize
    ensures Chain(perm, a, b) <= 510
  {
  }

  /** At a lattice point the offset along the axis is 0 or 1 and the fade
      weight equals it, so interpolation picks the corner whose offset is 0. */
  lemma LatticeAxis(n: int)
    requires TruncFitsI64(n as real)
    ensures var f := n as real - FastFloor(n as real) as real;
            (f == 0.0 && Fade(f) == 0.0) || (f == 1.0 && f - 1.0 == 0.0 && Fade(f) == 1.0)
  {
    FastFloorAtInteger(n);
    FadeEnds();
  }

  lemma {:induction false} Noise1DLattice(g: Perlin, n: int)
    requires |g.perm| == TableSize && TruncFitsI64(n as real)
    ensures g.Noise1D(n as real) == 0.0
  {
    var x := n as real;
    var fx0 := x - FastFloor(x) as real;
    var v0 := Grad1(g.perm[Wrap(FastFloor(x))], fx0);
    var v1 := Grad1(g.perm[Wrap(FastFloor(x) + 1)], fx0 - 1.0);
    assert g.Noise1D(x) == 0.188 * Lerp(Fade(fx0), v0, v1);
    LatticeAxis(n);
    GradAtZero(g.perm[Wrap(FastFloor(x))]);
    GradAtZero(g.perm[Wrap(FastFloor(x) + 1)]);
    LerpEnds(v0, v1);
  }

  /** The four corner contributions of `get2d`, in the order the body blends them. */
  function Corners2(p: seq<Byte>, x: real, y: real): (v: seq<real>)
    requires |p| == TableSize && TruncFitsI64(x) && TruncFitsI64(y)
    ensures |v| == 4
  {
    var fx0 := x - FastFloor(x) as real;
    var fy0 := y - FastFloor(y) as real;
    var ix1, iy1 := Wrap(FastFloor(x) + 1), Wrap(FastFloor(y) + 1);
    var ii, jj := Wrap(FastFloor(x)), Wrap(FastFloor(y));
    [Grad2(p[Chain(p, ii, jj)], fx0, fy0),
     Grad2(p[Chain(p, ii, iy1)], fx0, fy0 - 1.0),
     Grad2(p[Chain(p, ix1, jj)], fx0 - 1.0, fy0),
     Grad2(p[Chain(p, ix1, iy1)], fx0 - 1.0, fy0 - 1.0)]
  }

  /** `get2d` is the bilinear blend of its corner contributions, weighted by
      the faded offsets within the cell. */
  lemma Noise2DIsBilinear(g: Perlin, x: real, y: real)
    requires |g.perm| == TableSize && TruncFitsI64(x) && TruncFitsI64(y)
    ensures var v := Corners2(g.perm, x, y);
            var s, t := Fade(x - FastFloor(x) as real), Fade(y - FastFloor(y) as real);
            g.Noise2D(x, y) == 0.507 * Lerp(s, Lerp(t, v[0], v[1]), Lerp(t, v[2], v[3]))
  {
  }

  lemma {:induction false} Noise2DLattice(g: Perlin, m: int, n: int)
    requires |g.perm| == TableSize && TruncFitsI64(m as real) && TruncFitsI64(n as real)
    ensures g.Noise2D(m as real, n as real) == 0.0
  {
    var x, y := m as real, n as real;
    Noise2DIsBilinear(g, x, y);
    LatticeAxis(m);
    LatticeAxis(n);
    GradAtZeroAll();
    var fx0 := x - FastFloor(x) as real;
    var fy0 := y - FastFloor(y) as real;
    var v := Corners2(g.perm, x, y);
    var c := (if fx0 == 0.0 then 0 else 2) + (if fy0 == 0.0 then 0 else 1);
    assert v[c] == 0.0;
    BilinearAtCorner(Fade(fx0), Fade(fy0), v, c);
  }

  /** Bilinear interpolation with weights in {0, 1} returns one corner value. */
  lemma BilinearAtCorner(s: real, t: real, v: seq<real>, c: nat)
    requires |v| == 4 && (s == 0.0 || s == 1.0) && (t == 0.0 || t == 1.0)
    requires c == (if s == 0.0 then 0 else 2) + (if t == 0.0 then 0 else 1)
    ensures Lerp(s, Lerp(t, v[0], v[1]), Lerp(t, v[2], v[3])) == v[c]
  {
    LerpEnds(v[0], v[1]); LerpEnds(v[2], v[3]);
    LerpEnds(Lerp(t, v[0], v[1]), Lerp(t, v[2], v[3]));
  }

  /** The eight corner contributions of `get3d`, in the order the body blends them. */
  function Corners3(p: seq<Byte>, x: real, y: real, z: real): (v: seq<real>)
    requires |p| == TableSize && TruncFitsI64(x) && TruncFitsI64(y) && TruncFitsI64(z)
    ensures |v| == 8
  {
    var fx0 := x - FastFloor(x) as real;
    var fy0 := y - FastFloor(y) as real;
    var fz0 := z - FastFloor(z) as real;
    var ix1, iy1, iz1 := Wrap(FastFloor(x) + 1), Wrap(FastFloor(y) + 1), Wrap(FastFloor(z) + 1);
    var ii, jj, kk := Wrap(FastFloor(x)), Wrap(FastFloor(y)), Wrap(FastFloor(z));
    [Grad3(p[Chain(p, ii, Chain(p, jj, kk))], fx0, fy0, fz0),
     Grad3(p[Chain(p, ii, Chain(p, jj, iz1))], fx0, fy0, fz0 - 1.0),
     Grad3(p[Chain(p, ii, Chain(p, iy1, kk))], fx0, fy0 - 1.0, fz0),
     Grad3(p[Chain(p, ii, Chain(p, iy1, iz1))], fx0, fy0 - 1.0, fz0 - 1.0),
     Grad3(p[Chain(p, ix1, Chain(p, jj, kk))], fx0 - 1.0, fy0, fz0),
     Grad3(p[Chain(p, ix1, Chain(p, jj, iz1))], fx0 - 1.0, fy0, fz0 - 1.0),
     Grad3(p[Chain(p, ix1, Chain(p, iy1, kk))], fx0 - 1.0, fy0 - 1.0, fz0),
     Grad3(p[Chain(p, ix1, Chain(p, iy1, iz1))], fx0 - 1.0, fy0 - 1.0, fz0 - 1.0)]
  }

  /** `get3d` is the trilinear blend of its corner contributions, weighted by
      the faded offsets within the cell. */
  lemma Noise3DIsTrilinear(g: Perlin, x: real, y: real, z: real)
    requires |g.perm| == TableSize && TruncFitsI64(x) && TruncFitsI64(y) && TruncFitsI64(z)
    ensures var v := Corners3(g.perm, x, y, z);
            var s, t, r := Fade(x - FastFloor(x) as real), Fade(y - FastFloor(y) as real), Fade(z - FastFloor(z) as real);
            g.Noise3D(x, y, z) ==
              0.936 * Lerp(s, Lerp(t, Lerp(r, v[0], v[1]), Lerp(r, v[2], v[3])),
                              Lerp(t, Lerp(r, v[4], v[5]), Lerp(r, v[6], v[7])))
  {
  }

  lemma {:induction false} Noise3DLattice(g: Perlin, l: int, m: int, n: int)
    requires |g.perm| == TableSize
    requires TruncFitsI64(l as real) && TruncFitsI64(m as real) && TruncFitsI64(n as real)
    ensures g.Noise3D(l as real, m as real, n as real) == 0.0
  {
    var x, y, z := l as real, m as real, n as real;
    Noise3DIsTrilinear(g, x, y, z);
    LatticeAxis(l);
    LatticeAxis(m);
    LatticeAxis(n);
    GradAtZeroAll();
    var fx0 := x - FastFloor(x) as real;
    var fy0 := y - FastFloor(y) as real;
    var fz0 := z - FastFloor(z) as real;
    var v := Corners3(g.perm, x, y, z);
    var c := (if fx0 == 0.0 then 0 else 4) + (if fy0 == 0.0 then 0 else 2) + (if fz0 == 0.0 then 0 else 1);
    assert v[c] == 0.0;
    TrilinearAtCorner(Fade(fx0), Fade(fy0), Fade(fz0), v, c);
  }

  /** Trilinear interpolation with weights in {0, 1} returns one corner value. */
  lemma TrilinearAtCorner(s: real, t: real, r: real, v: seq<real>, c: nat)
    requires |v| == 8 && (s == 0.0 || s == 1.0) && (t == 0.0 || t == 1.0) && (r == 0.0 || r == 1.0)
    requires c == (if s == 0.0 then 0 else 4) + (if t == 0.0 then 0 else 2) + (if r == 0.0 then 0 else 1)
    ensures Lerp(s, Lerp(t, Lerp(r, v[0], v[1]), Lerp(r, v[2], v[3])),
                    Lerp(t, Lerp(r, v[4], v[5]), Lerp(r, v[6], v[7]))) == v[c]
  {
    LerpEnds(v[0], v[1]); LerpEnds(v[2], v[3]); LerpEnds(v[4], v[5]); LerpEnds(v[6], v[7]);
    var a, b, d, e := Lerp(r, v[0], v[1]), Lerp(r, v[2], v[3]), Lerp(r, v[4], v[5]), Lerp(r, v[6], v[7]);
    LerpEnds(a, b); LerpEnds(d, e);
    LerpEnds(Lerp(t, a, b), Lerp(t, d, e));
  }

  /** The 1D noise repeats every 256 units: the wrapped cell index is
      unchanged and so is the offset within the cell. At lattice points both
      sides are 0, whichever side of zero they fall. */
  lemma {:induction false} Noise1DPeriodic(g: Perlin, x: real)
    requires |g.perm| == TableSize && TruncFitsI64(x) && TruncFitsI64(x + 256.0)
    ensures g.Noise1D(x + 256.0) == g.Noise1D(x)
  {
    if IsInteger(x) {
      var n := x.Floor;
      assert x + 256.0 == (n + 256) as real;
      Noise1DLattice(g, n);
      Noise1DLattice(g, n + 256);
    } else {
      assert (x + 256.0).Floor == x.Floor + 256;
      assert !IsInteger(x + 256.0);
      var i := FastFloor(x);
      assert FastFloor(x + 256.0) == i + 256;
      WrapShift(i, 1);
      WrapShift(i + 1, 1);
    }
  }
}
