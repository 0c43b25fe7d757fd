/** `utils::grad`: gradient-dot-residual functions. The low bits of a hash
    select one of a small fixed set of gradient directions; the result is the
    dot product of that direction with the offset vector. */
module GradUtil {
  import opened IfElseUtil

  /** `h & mask != 0`, for a power-of-two mask. */
  predicate Masked(h: nat, mask: nat)
    requires mask > 0
  {
    (h / mask) % 2 == 1
  }

  /** On a 4-bit hash the three masks the decoders test pick out bit 3
      (h >= 8), bit 0 (odd h) and bit 1 (h mod 4 >= 2). */
  lemma MaskedLowBits(h: nat)
    requires h < 16
    ensures Masked(h, 8) <==> 8 <= h
    ensures Masked(h, 1) <==> h % 2 == 1
    ensures Masked(h, 2) <==> 2 <= h % 4
  {
    if h == 0 {} else if h == 1 {} else if h == 2 {} else if h == 3 {}
    else if h == 4 {} else if h == 5 {} else if h == 6 {} else if h == 7 {}
    else if h == 8 {} else if h == 9 {} else if h == 10 {} else if h == 11 {}
    else if h == 12 {} else if h == 13 {} else if h == 14 {} else {}
  }

  function Grad1(hash: nat, x: real): real {
    var h := hash % 16;
    var magnitude := 1.0 + (h % 8) as real;
    var grad := if Masked(h, 8) then -magnitude else magnitude;
    grad * x
  }

  function Grad2(hash: nat, x: real, y: real): real {
    var h := hash % 8;
    var u := IfElse(h < 4, x, y);
    var v := IfElse(h < 4, y, x);
    IfElse(Masked(h, 1), -u, u) + IfElse(Masked(h, 2), -2.0 * v, 2.0 * v)
  }

  function Grad3(hash: nat, x: real, y: real, z: real): real {
    var h := hash % 16;
    var u := IfElse(h < 8, x, y);
    var v := IfElse(h < 4, y, IfElse(h == 12 || h == 14, x, z));
    IfElse(Masked(h, 1), -u, u) + IfElse(Masked(h, 2), -v, v)
  }

  /** The gradient of `grad1` for each value of `hash & 15`: the magnitude is
      1 + (h & 7), negative exactly when bit 3 is set. */
  const Slopes: seq<int> := [1, 2, 3, 4, 5, 6, 7, 8, -1, -2, -3, -4, -5, -6, -7, -8]

  /** The direction used by `grad2` for each value of `hash & 7`. */
  const Directions2: seq<(int, int)> :=
    [(1, 2), (-1, 2), (1, -2), (-1, -2), (2, 1), (2, -1), (-2, 1), (-2, -1)]

  /** The direction used by `grad3` for each value of `hash & 15`: the twelve
      midpoints of the cube's edges, then four of them again, as in Ken
      Perlin's "Improving Noise" (SIGGRAPH 2002). */
  const Directions3: seq<(int, int, int)> :=
    [(1, 1, 0), (-1, 1, 0), (1, -1, 0), (-1, -1, 0),
     (1, 0, 1), (-1, 0, 1), (1, 0, -1), (-1, 0, -1),
     (0, 1, 1), (0, -1, 1), (0, 1, -1), (0, -1, -1),
     (1, 1, 0), (0, -1, 1), (-1, 1, 0), (0, -1, -1)]

  lemma Grad1IsSlopeTimesOffset(hash: nat, x: real)
    ensures Grad1(hash, x) == Slopes[hash % 16] as real * x
  {
    var h := hash % 16;
    var magnitude := 1.0 + (h % 8) as real;
    var grad := if Masked(h, 8) then -magnitude else magnitude;
    assert Grad1(hash, x) == grad * x;
    assert grad == Slopes[h] as real by {
      if h == 0 {} else if h == 1 {} else if h == 2 {} else if h == 3 {}
      else if h == 4 {} else if h == 5 {} else if h == 6 {} else if h == 7 {}
      else if h == 8 {} else if h == 9 {} else if h == 10 {} else if h == 11 {}
      else if h == 12 {} else if h == 13 {} else if h == 14 {} else {}
    }
  }

  lemma Grad2IsDot(hash: nat, x: real, y: real)
    ensures var d := Directions2[hash % 8];
            Grad2(hash, x, y) == d.0 as real * x + d.1 as real * y
  {
    var h := hash % 8;
    if h == 0 {} else if h == 1 {} else if h == 2 {} else if h == 3 {}
    else if h == 4 {} else if h == 5 {} else if h == 6 {} else {}
  }

  lemma Grad3IsDot(hash: nat, x: real, y: real, z: real)
    ensures var d := Directions3[hash % 16];
            Grad3(hash, x, y, z) == d.0 as real * x + d.1 as real * y + d.2 as real * z
  {
    var h := hash % 16;
    if h == 0 {} else if h == 1 {} else if h == 2 {} else if h == 3 {}
    else if h == 4 {} else if h == 5 {} else if h == 6 {} else if h == 7 {}
    else if h == 8 {} else if h == 9 {} else if h == 10 {} else if h == 11 {}
    else if h == 12 {} else if h == 13 {} else if h == 14 {} else {}
  }

  /** Only `hash & 15` (`hash & 7` for grad2) matters. */
  lemma GradLowBits(hash: nat, x: real, y: real, z: real)
    ensures Grad1(hash, x) == Grad1(hash % 16, x)
    ensures Grad2(hash, x, y) == Grad2(hash % 8, x, y)
    ensures Grad3(hash, x, y, z) == Grad3(hash % 16, x, y, z)
  {
    assert hash % 16 % 16 == hash % 16;
    assert hash % 8 % 8 == hash % 8;
  }

  /** Every grad3 direction is an edge midpoint of the cube: one zero
      component and two of magnitude one. */
  lemma Directions3AreEdges(h: nat)
    requires h < 16
    ensures var d := Directions3[h];
            (d.0 == 0 && d.1 * d.1 == 1 && d.2 * d.2 == 1) ||
            (d.1 == 0 && d.0 * d.0 == 1 && d.2 * d.2 == 1) ||
            (d.2 == 0 && d.0 * d.0 == 1 && d.1 * d.1 == 1)
  {
  }

  /** Recovers the position of one of the first twelve directions: the block
      is the zero axis, and the two low bits are the signs of the others. */
  function EdgeIndex(d: (int, int, int)): nat {
    if d.2 == 0 then (if d.0 == -1 then 1 else 0) + (if d.1 == -1 then 2 else 0)
    else if d.1 == 0 then 4 + (if d.0 == -1 then 1 else 0) + (if d.2 == -1 then 2 else 0)
    else 8 + (if d.1 == -1 then 1 else 0) + (if d.2 == -1 then 2 else 0)
  }

  /** Hash values 12..15 repeat the directions of 0, 9, 1 and 11, so only
      twelve distinct directions occur. */
  lemma Grad3Repeats(x: real, y: real, z: real)
    ensures Grad3(12, x, y, z) == Grad3(0, x, y, z)
    ensures Grad3(13, x, y, z) == Grad3(9, x, y, z)
    ensures Grad3(14, x, y, z) == Grad3(1, x, y, z)
    ensures Grad3(15, x, y, z) == Grad3(11, x, y, z)
    ensures forall i, j :: 0 <= i < j < 12 ==> Directions3[i] != Directions3[j]
  {
    forall i | 0 <= i < 12
      ensures EdgeIndex(Directions3[i]) == i
    {
      if i == 0 {} else if i == 1 {} else if i == 2 {} else if i == 3 {}
      else if i == 4 {} else if i == 5 {} else if i == 6 {} else if i == 7 {}
      else if i == 8 {} else if i == 9 {} else if i == 10 {} else {}
    }
  }

  /** All three vanish when the offset vector is zero. */
  lemma GradAtZero(hash: nat)
    ensures Grad1(hash, 0.0) == 0.0
    ensures Grad2(hash, 0.0, 0.0) == 0.0
    ensures Grad3(hash, 0.0, 0.0, 0.0) == 0.0
  {
  }

  /** GradAtZero for every hash at once. */
  lemma GradAtZeroAll()
    ensures forall hash: nat :: Grad1(hash, 0.0) == 0.0
    ensures forall hash: nat :: Grad2(hash, 0.0, 0.0) == 0.0
    ensures forall hash: nat :: Grad3(hash, 0.0, 0.0, 0.0) == 0.0
  {
    forall hash: nat
      ensures Grad1(hash, 0.0) == 0.0 && Grad2(hash, 0.0, 0.0) == 0.0
      ensures Grad3(hash, 0.0, 0.0, 0.0) == 0.0
    {
      GradAtZero(hash);
    }
  }
}
