/** The host's BlockPos.iterate over an inclusive box, as the sequence of positions it yields:
    x varies fastest, then y, then z. */
module BoxIteration {
  import opened Blocks

  /** True when p lies in the box with corners (x1, y1, z1) and (x2, y2, z2), both included. */
  predicate InBox(p: BlockPos, x1: int, y1: int, z1: int, x2: int, y2: int, z2: int) {
    x1 <= p.x <= x2 && y1 <= p.y <= y2 && z1 <= p.z <= z2
  }

  /** Number of integers in the inclusive range [a, b]. */
  function Span(a: int, b: int): nat {
    if a > b then 0 else b - a + 1
  }

  /** The positions (x..x2, y, z), x increasing. */
  function Row(x: int, x2: int, y: int, z: int): seq<BlockPos>
    decreases x2 - x
  {
    if x > x2 then [] else [BlockPos(x, y, z)] + Row(x + 1, x2, y, z)
  }

  /** The rows for heights y..y2 of the layer at z, y increasing. */
  function Slab(x1: int, x2: int, y: int, y2: int, z: int): seq<BlockPos>
    decreases y2 - y
  {
    if y > y2 then [] else Row(x1, x2, y, z) + Slab(x1, x2, y + 1, y2, z)
  }

  /** BlockPos.iterate(x1, y1, z1, x2, y2, z2): the layers z1..z2, z increasing. */
  function Iterate(x1: int, y1: int, z1: int, x2: int, y2: int, z2: int): seq<BlockPos>
    decreases z2 - z1
  {
    if z1 > z2 then [] else Slab(x1, x2, y1, y2, z1) + Iterate(x1, y1, z1 + 1, x2, y2, z2)
  }

  lemma {:induction false} RowAt(x: int, x2: int, y: int, z: int)
    ensures |Row(x, x2, y, z)| == Span(x, x2)
    ensures forall i :: 0 <= i < |Row(x, x2, y, z)| ==> Row(x, x2, y, z)[i] == BlockPos(x + i, y, z)
    decreases x2 - x
  {
    if x <= x2 {
      RowAt(x + 1, x2, y, z);
    }
  }

  lemma {:induction false} RowMembers(x: int, x2: int, y: int, z: int, p: BlockPos)
    ensures p in Row(x, x2, y, z) <==> x <= p.x <= x2 && p.y == y && p.z == z
  {
    RowAt(x, x2, y, z);
    if x <= p.x <= x2 && p.y == y && p.z == z {
      assert Row(x, x2, y, z)[p.x - x] == p;
    }
  }

  lemma {:induction false} SlabMembers(x1: int, x2: int, y: int, y2: int, z: int, p: BlockPos)
    ensures p in Slab(x1, x2, y, y2, z) <==> InBox(p, x1, y, z, x2, y2, z)
    decreases y2 - y
  {
    if y <= y2 {
      RowMembers(x1, x2, y, z, p);
      SlabMembers(x1, x2, y + 1, y2, z, p);
    }
  }

  /** Every position BlockPos.iterate yields lies in the box, and every position of the box is yielded. */
  lemma {:induction false} IterateMembers(x1: int, y1: int, z1: int, x2: int, y2: int, z2: int, p: BlockPos)
    ensures p in Iterate(x1, y1, z1, x2, y2, z2) <==> InBox(p, x1, y1, z1, x2, y2, z2)
    decreases z2 - z1
  {
    if z1 <= z2 {
      SlabMembers(x1, x2, y1, y2, z1, p);
      IterateMembers(x1, y1, z1 + 1, x2, y2, z2, p);
    }
  }

  lemma {:induction false} SlabLength(x1: int, x2: int, y: int, y2: int, z: int)
    ensures |Slab(x1, x2, y, y2, z)| == Span(x1, x2) * Span(y, y2)
    decreases y2 - y
  {
    if y <= y2 {
      RowAt(x1, x2, y, z);
      SlabLength(x1, x2, y + 1, y2, z);
      assert Span(y, y2) == Span(y + 1, y2) + 1;
      assert Span(x1, x2) * Span(y, y2) == Span(x1, x2) + Span(x1, x2) * Span(y + 1, y2);
    }
  }

  /** BlockPos.iterate yields one position per point of the box. */
  lemma {:induction false} IterateLength(x1: int, y1: int, z1: int, x2: int, y2: int, z2: int)
    ensures |Iterate(x1, y1, z1, x2, y2, z2)| == Span(x1, x2) * Span(y1, y2) * Span(z1, z2)
    decreases z2 - z1
  {
    if z1 <= z2 {
      SlabLength(x1, x2, y1, y2, z1);
      IterateLength(x1, y1, z1 + 1, x2, y2, z2);
      var a := Span(x1, x2) * Span(y1, y2);
      assert Span(z1, z2) == Span(z1 + 1, z2) + 1;
      assert a * Span(z1, z2) == a + a * Span(z1 + 1, z2);
    }
  }

  /** A box one block high is its first row followed by the rest of the box. */
  lemma FlatIterateSplit(x1: int, y: int, z1: int, x2: int, z2: int)
    requires z1 <= z2
    ensures Iterate(x1, y, z1, x2, y, z2) == Row(x1, x2, y, z1) + Iterate(x1, y, z1 + 1, x2, y, z2)
  {
    var row := Row(x1, x2, y, z1);
    assert Slab(x1, x2, y + 1, y, z1) == [];
    assert Slab(x1, x2, y, y, z1) == row + [];
    assert row + [] == row;
    assert Iterate(x1, y, z1, x2, y, z2) == Slab(x1, x2, y, y, z1) + Iterate(x1, y, z1 + 1, x2, y, z2);
  }

  /** In a box one block high and w wide, the k-th position yielded, for k == dz * w + dx,
      is the column (x1 + dx, z1 + dz). */
  lemma {:induction false} FlatIterateAt(x1: int, y: int, z1: int, x2: int, z2: int, w: int, k: int, dx: int, dz: int)
    requires w == x2 - x1 + 1 && 0 <= dx < w && 0 <= dz <= z2 - z1
    requires k == dz * w + dx
    ensures 0 <= k < |Iterate(x1, y, z1, x2, y, z2)|
    ensures Iterate(x1, y, z1, x2, y, z2)[k] == BlockPos(x1 + dx, y, z1 + dz)
    decreases z2 - z1
  {
    FlatIterateSplit(x1, y, z1, x2, z2);
    RowAt(x1, x2, y, z1);
    if dz == 0 {
      assert Row(x1, x2, y, z1)[k] == BlockPos(x1 + dx, y, z1);
    } else {
      MulStep(dz, w);
      FlatIterateAt(x1, y, z1 + 1, x2, z2, w, k - w, dx, dz - 1);
      SkipRow(Row(x1, x2, y, z1), Iterate(x1, y, z1 + 1, x2, y, z2), k);
    }
  }

  /** An index past the first row of a concatenation falls in the rest. */
  lemma SkipRow(row: seq<BlockPos>, rest: seq<BlockPos>, k: int)
    requires |row| <= k < |row| + |rest|
    ensures (row + rest)[k] == rest[k - |row|]
  {
  }

  lemma MulStep(k: int, w: int)
    ensures k * w == w + (k - 1) * w
  {
  }
}
