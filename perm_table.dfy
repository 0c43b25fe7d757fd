/** The permutation table shared by the Perlin and simplex generators: 256
    bytes drawn from a random source, laid out twice in a 512-entry table so
    that an index of up to 511 needs no further wrapping. */
module PermTable {

  /** A `u8`. */
  type Byte = b: int | 0 <= b < 256

  const BaseSize: nat := 256
  const TableSize: nat := 512

  /** `i & 255` on a two's-complement integer: the residue of i modulo 256. */
  function Wrap(i: int): (r: nat)
    ensures r < BaseSize
    ensures (i - r) % BaseSize == 0
  {
    i % 256
  }

  /** Wrapping `i + 1` is wrapping `i` and then stepping once around the
      256-cycle: `(i + 1) & 255 == ((i & 255) + 1) mod 256`. */
  lemma WrapSucc(i: int)
    ensures Wrap(i + 1) == (Wrap(i) + 1) % BaseSize
    ensures Wrap(i + 1) == if Wrap(i) == 255 then 0 else Wrap(i) + 1
  {
  }

  /** Wrapping forgets whole turns of 256. */
  lemma WrapShift(i: int, k: int)
    ensures Wrap(i + 256 * k) == Wrap(i)
  {
  }

  /** The second half of the table repeats the first. */
  predicate Duplicated(perm: seq<Byte>) {
    |perm| == TableSize &&
    forall i :: 0 <= i < BaseSize ==> perm[i + BaseSize] == perm[i]
  }

  /** `(0..512).map(|idx| p[idx & 255])`. */
  function Duplicate(p: seq<Byte>): (perm: seq<Byte>)
    requires |p| == BaseSize
    ensures Duplicated(perm)
    ensures perm[..BaseSize] == p
  {
    seq(TableSize, idx requires 0 <= idx < TableSize => p[Wrap(idx)])
  }

  /** Every entry of the table is the drawn byte at its wrapped index. */
  lemma DuplicateAt(p: seq<Byte>, i: nat)
    requires |p| == BaseSize && i < TableSize
    ensures Duplicate(p)[i] == p[Wrap(i)]
  {
  }

  /** A duplicated table is rebuilt from its first half: Duplicate is onto
      the duplicated tables, and is undone by taking the first 256 entries. */
  lemma {:induction false} DuplicateOfFirstHalf(perm: seq<Byte>)
    requires Duplicated(perm)
    ensures Duplicate(perm[..BaseSize]) == perm
  {
    var d := Duplicate(perm[..BaseSize]);
    forall i | 0 <= i < TableSize
      ensures d[i] == perm[i]
    {
      if i >= BaseSize {
        assert perm[(i - BaseSize) + BaseSize] == perm[i - BaseSize];
      }
    }
  }

  /** Drawing from a random source: the next 256 bytes of its output, and
      what it will produce afterwards. */
  function Draw(rng: seq<Byte>): (r: (seq<Byte>, seq<Byte>))
    requires |rng| >= BaseSize
    ensures |r.0| == BaseSize
    ensures r.0 + r.1 == rng
  {
    (rng[..BaseSize], rng[BaseSize..])
  }

  /** One link of a chained lookup, `a + perm[b]`. With a cell index and an
      offset of at most one, `a <= 256`, so the result is a valid index. */
  function Chain(perm: seq<Byte>, a: nat, b: nat): (idx: nat)
    requires |perm| == TableSize && a <= BaseSize && b < TableSize
    ensures a <= idx <= a + 255
    ensures idx < TableSize
  {
    a + perm[b]
  }
}
