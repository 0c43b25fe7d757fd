# Procedural noise: a verified model of the exact core

This project models the discrete, exactly-stateable core of a Rust
procedural-noise library:

- the scalar helpers: `fast_floor`/`fastfloor`, `if_else`, `lerp`, `fade` and
  the gradient decoders `grad1`/`grad2`/`grad3`;
- the `Checkerboard` generator;
- the two lineages of improved Perlin noise, `gen::Perlin` and
  `noise::gen::ImprovedPerlin`;
- the two lineages of simplex noise, `gen::Simplex` and `noise::gen::Simplex`.
  The second carries its own inlined copies of the helpers.

Arithmetic on `f64` is modelled over `real`, so every numeric statement holds
over the reals. Rust integers are `int`. A float-to-integer cast (`to_int().unwrap()`,
`as i64`, `as int`) is truncation toward zero (`Cast.Trunc`), with the
requirement that the truncated value fits in an `i64`. For any integer `i`,
`i & 255` is the Euclidean `i % 256` (`PermTable.Wrap`), and `h & m != 0` for a
power of two `m` is `(h / m) % 2 == 1` (`GradUtil.Masked`).

The permutation table is a `seq<Byte>` of 512 entries. The noise functions ask
only for the length they index with. `Valid()` is the duplication invariant
`perm[i + 256] == perm[i]`, which every constructor establishes. A
constructor that pulls 256 values from a random source (`from_rng`) is a
function of the source's upcoming byte stream. It returns the generator and
the part of the stream it did not consume, so "draws exactly 256 bytes" is
part of its contract.

Each noise function is written out in the source's own straight-line form:
floor, wrap, chained hashing `perm[ii + perm[jj + perm[kk]]]` (`PermTable.Chain`),
then the fade/lerp blend (Perlin) or the clamped radial falloffs (simplex).
Indexing the table is checked at every lookup. Simplex noise adds a step of
up to 1 to a wrapped index (`ii + 1`), so its chained lookups stay at or below
511. Perlin's stay at or below 510 (`GenPerlin.LookupBound`).

The floor at non-positive integers does not match the informal description.
The library describes `fast_floor` as a fast version of `floor`. The code
returns `trunc(x) - 1` for every `x <= 0`, which is `floor(x) - 1` at 0, -1,
-2, and so on (0.0 gives -1). The model follows the code
(`FastFloorUtil.FastFloor`, `FastfloorUtil.BelowFloorIff`). The generators
therefore place a point whose coordinate (Perlin) or skewed coordinate
(simplex) is a non-positive integer in the cell below, at offset 1, rather
than in its own cell at offset 0. At integer lattice points the noise is 0
either way for Perlin in every dimension and for simplex in 1D (the lattice
lemmas). Elsewhere on those cell boundaries the model
does not relate the result to an evaluation with the true floor.

Files: `cast.dfy`, `fast_floor.dfy`, `fastfloor.dfy`, `if_else.dfy`, `lerp.dfy`,
`fade.dfy`, `grad.dfy`, `perm_table.dfy` (the table and the index
arithmetic shared by all generators), `checkerboard.dfy`, `perlin.dfy`,
`simplex.dfy`, `improved_perlin.dfy` and `noise_simplex.dfy`.

## Model

| member | source | states |
|---|---|---|
| `Cast.Trunc` | src/utils/fastfloor.rs:5 | an `as i64` cast truncates toward zero: for x >= 0 the result is the largest integer <= x, for x < 0 the smallest integer >= x |
| `FastFloorUtil.FastFloor` | src/utils/fast_floor.rs:3-9 | result fits an i64; equals floor(x) for x > 0 and for non-integer x <= 0, floor(x) - 1 at non-positive integers; always <= x, with x - r in [0, 1) for x > 0 and in (0, 1] for x <= 0 |
| `FastFloorUtil.FastFloorAtInteger` | src/utils/fast_floor.rs:4-7 | at an integer n the result is n for n > 0 and n - 1 otherwise, so the offset x - r is 0 or 1 |
| `FastfloorUtil.Fastfloor` | src/utils/fastfloor.rs:3-9 | trunc(x) for x > 0, trunc(x) - 1 otherwise; result in i64 range, <= x and within 1 of x |
| `FastfloorUtil.BelowFloorIff` | src/utils/fastfloor.rs:6-7 | the result is below floor(x) exactly when x is a non-positive integer, and never by more than 1 |
| `FastfloorUtil.AgreesWithFastFloor` | src/utils/fastfloor.rs:3-9 | `fastfloor` and `fast_floor` return the same value on every input both accept |
| `IfElseUtil.IfElse` | src/utils/if_else.rs:3-9 | the result is `if_true` when the condition holds and `if_false` otherwise |
| `IfElseUtil.IfElseSame` | src/utils/if_else.rs:3-9 | selecting between equal values yields that value |
| `IfElseUtil.IfElseNegate` | src/utils/if_else.rs:3-9 | negating the condition and swapping the branches gives the same result |
| `LerpUtil.Lerp` | src/utils/lerp.rs:3-5 | computes a + t(b - a); its meaning is stated by `LerpEnds`, `LerpConstant`, `LerpBetween` and `LerpReverse` |
| `LerpUtil.LerpEnds` | src/utils/lerp.rs:4 | lerp(0, a, b) = a and lerp(1, a, b) = b |
| `LerpUtil.LerpConstant` | src/utils/lerp.rs:4 | lerp(t, a, a) = a for every t |
| `LerpUtil.LerpBetween` | src/utils/lerp.rs:3-5 | for t in [0, 1] the result lies between a and b, whichever is smaller |
| `LerpUtil.LerpReverse` | src/utils/lerp.rs:4 | lerp(t, a, b) = lerp(1 - t, b, a) |
| `FadeUtil.Fade` | src/utils/fade.rs:2-5 | computes 6t⁵ - 15t⁴ + 10t³; its meaning is stated by `FadeEnds`, `FadeSymmetric`, `FadeNonNegative` and `FadeBounds` |
| `FadeUtil.FadeEnds` | src/utils/fade.rs:4 | fade(0) = 0, fade(1) = 1, fade(0.5) = 0.5 |
| `FadeUtil.FadeSymmetric` | src/utils/fade.rs:4 | fade(1 - t) = 1 - fade(t) |
| `FadeUtil.FadeNonNegative` | src/utils/fade.rs:4 | fade(t) >= 0 for every t >= 0 |
| `FadeUtil.FadeBounds` | src/utils/fade.rs:2-5 | for t in [0, 1], fade(t) lies in [0, 1] |
| `GradUtil.Grad1` | src/utils/grad.rs:6-14 | decodes a 1D gradient from the hash; stated by `Grad1IsSlopeTimesOffset`, `GradLowBits` and `GradAtZero` |
| `GradUtil.Grad2` | src/utils/grad.rs:17-25 | decodes a 2D gradient from the hash; stated by `Grad2IsDot`, `GradLowBits` and `GradAtZero` |
| `GradUtil.Grad3` | src/utils/grad.rs:28-37 | decodes a 3D gradient from the hash; stated by `Grad3IsDot`, `Directions3AreEdges`, `Grad3Repeats`, `GradLowBits` and `GradAtZero` |
| `GradUtil.Masked` | src/utils/grad.rs:9 | `h & m != 0` for a power-of-two mask m; stated by `MaskedLowBits` |
| `GradUtil.MaskedLowBits` | src/utils/grad.rs:9-36 | on a 4-bit hash, `h & 8` is set exactly when h >= 8, `h & 1` exactly when h is odd, and `h & 2` exactly when h mod 4 >= 2 |
| `GradUtil.GradLowBits` | src/utils/grad.rs:6-37 | grad1 and grad3 depend only on `hash & 15`, grad2 only on `hash & 7` |
| `GradUtil.Grad1IsSlopeTimesOffset` | src/utils/grad.rs:6-14 | grad1(h, x) = g * x with g from the table 1..8, -1..-8: magnitude 1 + (h & 7), negative exactly when bit 3 is set |
| `GradUtil.Grad2IsDot` | src/utils/grad.rs:17-25 | grad2 is the dot product of (x, y) with one of the 8 directions (±1, ±2), (±2, ±1), selected by `hash & 7` |
| `GradUtil.Grad3IsDot` | src/utils/grad.rs:28-37 | grad3 is the dot product of (x, y, z) with the direction selected by `hash & 15` |
| `GradUtil.Directions3AreEdges` | src/utils/grad.rs:29-36 | every grad3 direction has one zero coordinate and two ±1 coordinates (a cube edge midpoint) |
| `GradUtil.Grad3Repeats` | src/utils/grad.rs:33-34 | hashes 12, 13, 14, 15 give the directions of 0, 9, 1, 11, and the first twelve directions are pairwise distinct |
| `GradUtil.GradAtZero` | src/utils/grad.rs:13-36 | all three decoders return 0 for a zero offset vector |
| `GradUtil.GradAtZeroAll` | src/utils/grad.rs:6-37 | the same, for every hash at once |
| `PermTable.Wrap` | src/gen/perlin.rs:129-132 | `i & 255` lies in [0, 255] and differs from i by a multiple of 256 |
| `PermTable.WrapSucc` | src/gen/perlin.rs:129-132 | the wrapped successor is the wrapped index plus one, modulo 256 (255 wraps to 0) |
| `PermTable.WrapShift` | src/gen/perlin.rs:88-90 | shifting an index by a multiple of 256 does not change its wrapped value |
| `PermTable.Duplicate` | src/gen/perlin.rs:34 | the 512-entry table built from p satisfies the duplication invariant and starts with p |
| `PermTable.DuplicateAt` | src/gen/perlin.rs:34 | entry i of the table is `p[i & 255]` |
| `PermTable.DuplicateOfFirstHalf` | src/gen/perlin.rs:33-34 | a duplicated table is the table rebuilt from its first 256 entries, so the invariant is exactly "built this way" |
| `PermTable.Draw` | src/gen/perlin.rs:64 | taking 256 values from the stream splits it into 256 drawn bytes followed by the rest, losing nothing |
| `PermTable.Chain` | src/gen/perlin.rs:139-142 | a chained index `a + perm[b]` with a <= 256 stays in [a, a + 255] and below 512 |
| `GenCheckerboard.LowBit` | src/gen/checkerboard.rs:44 | `i & 1` is 0 or 1 and has the parity of i, negatives included |
| `GenCheckerboard.Xor` | src/gen/checkerboard.rs:61 | the xor of two bits is a bit with the parity of their sum |
| `GenCheckerboard.Checkerboard.Noise1D` | src/gen/checkerboard.rs:41-45 | the result is 1 or -1 |
| `GenCheckerboard.Checkerboard.Noise2D` | src/gen/checkerboard.rs:57-62 | the result is 1 or -1 |
| `GenCheckerboard.Checkerboard.Noise3D` | src/gen/checkerboard.rs:74-80 | the result is 1 or -1 |
| `GenCheckerboard.Noise1DParity` | src/gen/checkerboard.rs:41-45 | the result is -1 exactly when floor(x) is odd and 1 exactly when it is even |
| `GenCheckerboard.Noise1DConstantOnCell` | src/gen/checkerboard.rs:42-44 | the value is constant on each [n, n + 1) |
| `GenCheckerboard.Noise1DFlip` | src/gen/checkerboard.rs:42-44 | noise1d(x + 1) = -noise1d(x) |
| `GenCheckerboard.Noise1DPeriod2` | src/gen/checkerboard.rs:42-44 | noise1d(x + 2) = noise1d(x) |
| `GenCheckerboard.Noise2DProduct` | src/gen/checkerboard.rs:57-62 | noise2d(x, y) = noise1d(x) * noise1d(y), hence symmetric in x and y |
| `GenCheckerboard.Noise3DProduct` | src/gen/checkerboard.rs:74-80 | noise3d(x, y, z) = noise1d(x) * noise1d(y) * noise1d(z) |
| `GenCheckerboard.Samples` | src/gen/checkerboard.rs:42 | sample values, including noise1d(-0.5) = -1 (true floor on negative cells) |
| `GenPerlin.Perlin.Noise1D` | src/gen/perlin.rs:82-105 | 1D improved Perlin noise; stated by `Noise1DLattice`, `Noise1DPeriodic`, `CellOffsets` and `LookupBound` |
| `GenPerlin.Perlin.Noise2D` | src/gen/perlin.rs:120-155 | 2D improved Perlin noise; stated by `Noise2DLattice`, `CellOffsets` and `LookupBound` |
| `GenPerlin.Perlin.Noise3D` | src/gen/perlin.rs:171-225 | 3D improved Perlin noise; stated by `Noise3DLattice`, `CellOffsets` and `LookupBound` |
| `GenPerlin.FromRng` | src/gen/perlin.rs:63-68 | the generator is valid, its first 256 entries are the first 256 bytes of the stream, and exactly those 256 bytes are consumed |
| `GenPerlin.FromRngTable` | src/gen/perlin.rs:33-34 | `perm[i] == p[i & 255]`, and `perm[i + 256] == perm[i]` |
| `GenPerlin.FromRngDeterministic` | src/gen/perlin.rs:63-68 | two constructions give equal generators exactly when their streams start with the same 256 bytes |
| `GenPerlin.EqualIffSameTable` | src/gen/perlin.rs:15-18 | two generators are equal exactly when their tables are equal |
| `GenPerlin.CellOffsets` | src/gen/perlin.rs:83-90 | the offset fx0 lies in [0, 1] (1 only at non-positive integers), fx1 = fx0 - 1, and the wrapped far index is the near one plus one modulo 256 |
| `GenPerlin.LookupBound` | src/gen/perlin.rs:139-142 | with indices wrapped into [0, 255], every chained lookup is at most 510 |
| `GenPerlin.LatticeAxis` | src/gen/perlin.rs:83-92 | at an integer coordinate the offset is 0 with fade weight 0, or 1 with fade weight 1 |
| `GenPerlin.Noise1DLattice` | src/gen/perlin.rs:82-105 | noise1d is 0 at every integer |
| `GenPerlin.Noise2DLattice` | src/gen/perlin.rs:120-155 | noise2d is 0 at every integer lattice point |
| `GenPerlin.Noise3DLattice` | src/gen/perlin.rs:171-225 | noise3d is 0 at every integer lattice point |
| `GenPerlin.BilinearAtCorner` | src/gen/perlin.rs:150-154 | the nested lerps of noise2d with weights in {0, 1} return the one corner value those weights select |
| `GenPerlin.TrilinearAtCorner` | src/gen/perlin.rs:213-224 | the nested lerps with weights in {0, 1} return the one corner value those weights select |
| `GenPerlin.Noise1DPeriodic` | src/gen/perlin.rs:83-97 | noise1d(x + 256) = noise1d(x), for every x on either side of zero |
| `GenSimplex.Simplex.Noise1D` | src/gen/simplex.rs:89-115 | 1D simplex noise; stated by `Noise1DCorners`, `Noise1DBasesNonNegative`, `Radial1IsFalloff` and `Noise1DLattice` |
| `GenSimplex.Simplex.Noise2D` | src/gen/simplex.rs:131-209 | 2D simplex noise: skew and floor, then the cell computation `CellNoise2D`; stated by `Corner2`, `Corner2FollowsSkewedCell` and `Falloff` |
| `GenSimplex.Simplex.Noise3D` | src/gen/simplex.rs:226-369 | 3D simplex noise: skew and floor, then the cell computation `CellNoise3D`; stated by `Rank3`, `Rank3Paths`, `Rank3FollowsSkewedCell` and `Falloff` |
| `GenSimplex.Radial1` | src/gen/simplex.rs:104-110 | one unclamped 1D corner term (1 - x0²)⁴ · grad; stated by `Radial1IsFalloff` |
| `GenSimplex.Corner2` | src/gen/simplex.rs:152-160 | exactly one of i1, j1 is 1, and i1 = 1 exactly when x0 > y0 (strict), so the step goes along the larger offset |
| `GenSimplex.Rank3` | src/gen/simplex.rs:251-303 | the steps have weights 1 and 2 and are ordered componentwise; the first step's axis holds the maximum offset and the axis missing from the second holds the minimum |
| `GenSimplex.Rank3Paths` | src/gen/simplex.rs:257-303 | the ranking always yields one of the six monotone paths through the cube, and each strict ordering of the offsets selects its own path |
| `GenSimplex.Falloff` | src/gen/simplex.rs:182-204 | a corner contributes exactly 0 whenever its falloff t is not positive, so the clamp at t < 0 is continuous |
| `GenSimplex.Radial1IsFalloff` | src/gen/simplex.rs:104-111 | for an offset in [-1, 1], 1 - x0² >= 0 and the unclamped 1D contribution equals the clamped falloff |
| `GenSimplex.Noise1DCorners` | src/gen/simplex.rs:94-114 | in noise1d, x0 lies in [0, 1] and x1 = x0 - 1 in [-1, 0], and the result is the scaled sum of the two unclamped corners |
| `GenSimplex.Noise1DBasesNonNegative` | src/gen/simplex.rs:104-110 | the bases 1 - x0² and 1 - x1² of both 1D corners are not negative, so the clamp of 2D and 3D would not fire |
| `GenSimplex.LatticeCorners1` | src/gen/simplex.rs:94-114 | with the cell offset 0 or 1, one corner has a zero offset and the other lies on its falloff radius, so the scaled sum of the two corner terms is 0 |
| `GenSimplex.Noise1DLattice` | src/gen/simplex.rs:89-115 | noise1d is 0 at every integer |
| `GenSimplex.Corner2FollowsSkewedCell` | src/gen/simplex.rs:137-160 | the triangle chosen is the half of the skewed cell that holds the point: i1 = 1 exactly when the skewed fractional x exceeds the skewed fractional y |
| `GenSimplex.Rank3FollowsSkewedCell` | src/gen/simplex.rs:233-303 | the 3D ranking orders the skewed fractional coordinates the same way |
| `GenSimplex.FromRng` | src/gen/simplex.rs:69-74 | the generator is valid, holds the first 256 bytes of the stream and consumes exactly those |
| `GenSimplex.FromRngTable` | src/gen/simplex.rs:39-40 | `perm[i] == p[i & 255]` |
| `NoiseImprovedPerlin.ImprovedPerlin.Noise1D` | src/noise/gen/improved_perlin.rs:85-111 | 1D improved Perlin noise through `fastfloor`; stated by `Noise1DAgrees`, `Noise1DLattice` and `Noise1DPeriodic` |
| `NoiseImprovedPerlin.ImprovedPerlin.Noise2D` | src/noise/gen/improved_perlin.rs:126-164 | 2D noise; stated by `Noise2DAgrees` and `Noise2DLattice` |
| `NoiseImprovedPerlin.ImprovedPerlin.Noise3D` | src/noise/gen/improved_perlin.rs:180-237 | 3D noise; stated by `Noise3DAgrees` and `Noise3DLattice` |
| `NoiseImprovedPerlin.FromRng` | src/noise/gen/improved_perlin.rs:64-71 | the generator is valid, holds the first 256 bytes of the stream and consumes exactly those |
| `NoiseImprovedPerlin.FromRngTable` | src/noise/gen/improved_perlin.rs:33-34 | `perm[i] == p[i & 255]`, and the construction builds the same table and leaves the same stream as `gen::Perlin::from_rng` |
| `NoiseImprovedPerlin.EqualIffSameTable` | src/noise/gen/improved_perlin.rs:15-18 | two generators are equal exactly when their tables are equal |
| `NoiseImprovedPerlin.CellIndices` | src/noise/gen/improved_perlin.rs:137-141 | the offset lies in [0, 1], the wrapped indices lie in [0, 255], and the far index is the near one plus one modulo 256 |
| `NoiseImprovedPerlin.Noise1DAgrees` | src/noise/gen/improved_perlin.rs:85-111 | noise1d equals `gen::Perlin`'s noise1d over the same table |
| `NoiseImprovedPerlin.Noise2DAgrees` | src/noise/gen/improved_perlin.rs:126-164 | noise2d equals `gen::Perlin`'s noise2d over the same table |
| `NoiseImprovedPerlin.Noise3DAgrees` | src/noise/gen/improved_perlin.rs:180-237 | noise3d equals `gen::Perlin`'s noise3d over the same table |
| `NoiseImprovedPerlin.Noise1DLattice` | src/noise/gen/improved_perlin.rs:89-110 | noise1d is 0 at every integer |
| `NoiseImprovedPerlin.Noise2DLattice` | src/noise/gen/improved_perlin.rs:130-163 | noise2d is 0 at every integer lattice point |
| `NoiseImprovedPerlin.Noise3DLattice` | src/noise/gen/improved_perlin.rs:184-236 | noise3d is 0 at every integer lattice point |
| `NoiseImprovedPerlin.Noise1DPeriodic` | src/noise/gen/improved_perlin.rs:89-102 | noise1d(x + 256) = noise1d(x) for every x |
| `NoiseSimplex.Fastfloor` | src/noise/gen/simplex.rs:18-25 | trunc(x) for x > 0 and trunc(x) - 1 otherwise; result <= x and within 1 of x |
| `NoiseSimplex.FastfloorIsShared` | src/noise/gen/simplex.rs:18-25 | the inlined floor equals `utils::fastfloor` |
| `NoiseSimplex.FastfloorIsFastFloorAll` | src/noise/gen/simplex.rs:18-25 | the inlined floor equals `fast_floor` on every input both accept |
| `NoiseSimplex.IfTrueElse` | src/noise/gen/simplex.rs:27-34 | the result is `if_true` when the condition holds and `if_false` otherwise |
| `NoiseSimplex.IfTrueElseIsShared` | src/noise/gen/simplex.rs:27-34 | the inlined select equals `utils::if_else` |
| `NoiseSimplex.Grad1` | src/noise/gen/simplex.rs:36-44 | the inlined 1D gradient decoder; stated by `GradsAreShared` |
| `NoiseSimplex.Grad2` | src/noise/gen/simplex.rs:46-54 | the inlined 2D gradient decoder; stated by `GradsAreShared` |
| `NoiseSimplex.Grad3` | src/noise/gen/simplex.rs:56-65 | the inlined 3D gradient decoder; stated by `GradsAreShared` |
| `NoiseSimplex.GradsAreShared` | src/noise/gen/simplex.rs:36-65 | the inlined grad1, grad2 and grad3 equal the `utils::grad` decoders on every input |
| `NoiseSimplex.GradsAreSharedAll` | src/noise/gen/simplex.rs:36-65 | the same, for all inputs at once |
| `NoiseSimplex.Simplex.Eq` | src/noise/gen/simplex.rs:434-438 | `eq` holds exactly when the two generators are the same |
| `NoiseSimplex.FromRng` | src/noise/gen/simplex.rs:116-123 | the generator is valid, holds the first 256 bytes of the stream and consumes exactly those |
| `NoiseSimplex.FromRngTable` | src/noise/gen/simplex.rs:117-118 | `perm[i] == p[i & 255]`, the same table `gen::Simplex::from_rng` builds |
| `NoiseSimplex.Simplex.Noise1D` | src/noise/gen/simplex.rs:139-168 | 1D simplex noise with the inlined helpers; stated by `Noise1DAgrees`, `Noise1DCorners`, `Noise1DBasesNonNegative` and `Noise1DLattice` |
| `NoiseSimplex.Simplex.Noise2D` | src/noise/gen/simplex.rs:185-266 | 2D simplex noise; stated by `Noise2DAgrees` |
| `NoiseSimplex.Simplex.Noise3D` | src/noise/gen/simplex.rs:284-430 | 3D simplex noise; stated by `Noise3DAgrees` |
| `NoiseSimplex.Noise1DAgrees` | src/noise/gen/simplex.rs:139-168 | noise1d equals `gen::Simplex`'s noise1d over the same table |
| `NoiseSimplex.Noise2DInCell` | src/noise/gen/simplex.rs:185-266 | after the floor step, noise2d computes the same cell-local noise as `gen::Simplex` |
| `NoiseSimplex.Noise3DInCell` | src/noise/gen/simplex.rs:284-430 | after the floor step, noise3d computes the same cell-local noise as `gen::Simplex` |
| `NoiseSimplex.Noise2DAgrees` | src/noise/gen/simplex.rs:185-266 | noise2d equals `gen::Simplex`'s noise2d over the same table, so its corner choice and lookups inherit `Corner2` and `Chain` |
| `NoiseSimplex.Noise3DAgrees` | src/noise/gen/simplex.rs:284-430 | noise3d equals `gen::Simplex`'s noise3d over the same table, so its ranking inherits `Rank3` |
| `NoiseSimplex.Noise1DLattice` | src/noise/gen/simplex.rs:147-167 | noise1d is 0 at every integer |
| `NoiseSimplex.Noise1DCorners` | src/noise/gen/simplex.rs:147-167 | x0 lies in [0, 1] and x1 in [-1, 0], and the result is the scaled sum of the two unclamped corners |
| `NoiseSimplex.Noise1DBasesNonNegative` | src/noise/gen/simplex.rs:157-163 | the bases of both 1D corners are not negative, so no clamp is needed |

## Left out

- `new()` for `Perlin`, `Simplex` and `ImprovedPerlin` in both lineages: it is `from_rng` applied to a freshly seeded `XorShiftRng` from `weak_rng()`, a foreign random source. `from_rng` is modelled on the bytes the source yields. `Checkerboard::new` draws nothing and returns the fieldless generator, which is the `Checkerboard` datatype's only value.
- The `NoiseGen` trait declaration: it holds three method signatures and no behaviour.
- The `noise` crate's own `utils` source files (fastfloor, if_else and grad, declared at src/noise/utils/mod.rs:7-9) are not part of this model. `noise::gen::ImprovedPerlin` imports `fade`, `lerp` and `fastfloor` from `utils`, and that module declares no `fade` or `lerp`; it is modelled with the `src/utils` helpers of those names.
- IEEE-754 behaviour: rounding, NaN and infinities are not modelled, so every numeric property holds over the reals. This includes the exactness of the truncated constants F2, G2, F3 and G3.
- Cast overflow: `to_int().unwrap()` panics, and `as i64` / `as int` saturate or misbehave, on inputs whose truncation does not fit in an i64. Every floor requires that the truncation fits. The integer sums of cell indices, `(i + j) as f64` and `(i + j + k) as f64` in both simplex lineages, are computed without bound, so their i64 overflow for cells near ±2^63 is not modelled either (`SkewFits2` and `SkewFits3` bound only the floors).
- Output-range claims: the doc comments' "[-1, 1]" and the scale factors 0.188, 0.507, 0.936, 0.395, 40 and 32 are empirical and are not proved.
- GenSimplex.Falloff: states only that a non-positive t gives 0. The sign of the contribution (that of the gradient, for t > 0) is not stated, because it is a fourth-degree fact.
- GenSimplex.Noise1DCorners: states the offsets and the unclamped decomposition. That the missing clamp changes nothing is stated per corner (`GenSimplex.Radial1IsFalloff`, `Noise1DBasesNonNegative`), not as one equation for the whole sum.
- NoiseSimplex.Noise1DCorners: the same, with `NoiseSimplex.Noise1DBasesNonNegative` for the bases.
- Bench, test and example programs, and the crate wiring modules.
