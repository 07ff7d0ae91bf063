/** The structure-world chunk generator: the constant world geometry, the optional fill of
    the chunk's whole column footprint, the flat or ragged bedrock layers, and the hooks
    that do nothing. */
module Worldgen {
  import opened Blocks
  import opened BoxIteration
  import opened Chunks
  import opened Randomness

  /** The guard buildBedrock puts on a bedrock layer at height y. */
  predicate LayerEnabled(y: int, worldHeight: int, enabled: bool) {
    y + 4 >= 0 && y < worldHeight && enabled
  }

  /** The values buildBedrock fixes before it walks the columns: the heights of the two layers,
      whether each is generated, and whether bedrock is flat. */
  datatype BedrockLayout = BedrockLayout(topY: int, bottomY: int, top: bool, bottom: bool, flat: bool)
  {
    /** Draws one column's top layer takes: five when ragged, none when flat. */
    function TopDraws(): nat {
      if top && !flat then 5 else 0
    }

    /** Draws one column takes in all. */
    function ColumnDraws(): nat {
      TopDraws() + (if bottom && !flat then 5 else 0)
    }

    /** The top layer puts bedrock at height y of a column whose first draw is `from`:
        flat, only topY; ragged, topY - o for each o in [0, 5) not above the o-th draw. */
    predicate TopAt(y: int, oracle: nat -> nat, from: nat) {
      if flat then y == topY
      else 0 <= topY - y < 5 && topY - y <= oracle(from + (topY - y)) % 5
    }

    /** The bottom layer puts bedrock at height y: flat, only bottomY; ragged, bottomY + o for
        each o in [0, 5) not above its draw, where o is drawn for in the order 4, 3, 2, 1, 0. */
    predicate BottomAt(y: int, oracle: nat -> nat, from: nat) {
      if flat then y == bottomY
      else 0 <= y - bottomY < 5 && y - bottomY <= oracle(from + (4 - (y - bottomY))) % 5
    }

    /** One column gets bedrock at height y: the top layer first, then the bottom layer with the draws after the top's. */
    predicate ColumnAt(y: int, oracle: nat -> nat, from: nat) {
      (top && TopAt(y, oracle, from)) || (bottom && BottomAt(y, oracle, from + TopDraws()))
    }
  }

  /** p lies in the 16 x 16 column footprint of the chunk starting at (startX, startZ). */
  predicate InFootprint(p: BlockPos, startX: int, startZ: int) {
    startX <= p.x <= startX + 15 && startZ <= p.z <= startZ + 15
  }

  /** The position of p's column in the order BlockPos.iterate visits the footprint: x fastest, then z. */
  function ColumnIndex(p: BlockPos, startX: int, startZ: int): int {
    16 * (p.z - startZ) + (p.x - startX)
  }

  /** buildBedrock with layout l puts bedrock at p, drawing from `start` on: p's column is in the
      footprint and, taking ColumnDraws() draws per earlier column, gets bedrock at p.y. */
  predicate BedrockCell(p: BlockPos, startX: int, startZ: int, l: BedrockLayout, oracle: nat -> nat, start: nat) {
    && InFootprint(p, startX, startZ)
    && l.ColumnAt(p.y, oracle, start + l.ColumnDraws() * ColumnIndex(p, startX, startZ))
  }

  /** Column i of the footprint holds p exactly when p is at (startX + i % 16, startZ + i / 16). */
  lemma ColumnIndexAt(p: BlockPos, startX: int, startZ: int, i: int)
    requires 0 <= i < 256
    ensures (InFootprint(p, startX, startZ) && ColumnIndex(p, startX, startZ) == i)
        <==> (p.x == startX + i % 16 && p.z == startZ + i / 16)
  {
  }

  /** The i-th column BlockPos.iterate yields over the footprint at height 0 is (startX + i % 16, startZ + i / 16). */
  lemma ColumnsInOrder(startX: int, startZ: int, i: int)
    requires 0 <= i < 256
    ensures |Iterate(startX, 0, startZ, startX + 15, 0, startZ + 15)| == 256
    ensures Iterate(startX, 0, startZ, startX + 15, 0, startZ + 15)[i] == BlockPos(startX + i % 16, 0, startZ + i / 16)
  {
    IterateLength(startX, 0, startZ, startX + 15, 0, startZ + 15);
    FlatIterateAt(startX, 0, startZ, startX + 15, startZ + 15, 16, i, i % 16, i / 16);
  }

  /** Two sets with the same members paint the same. */
  lemma PaintedCells(after: map<BlockPos, BlockState>, before: map<BlockPos, BlockState>, s: iset<BlockPos>, u: iset<BlockPos>, b: BlockState)
    requires Painted(after, before, s, b)
    requires forall p :: p in u <==> p in s
    ensures Painted(after, before, u, b)
  {
  }

  /** The positions among the first i of s. */
  ghost function Visited(s: seq<BlockPos>, i: int): iset<BlockPos>
    requires 0 <= i <= |s|
  {
    iset p | p in s[..i]
  }

  /** Writing s[i] extends the visited positions by one. */
  lemma VisitStep(m: map<BlockPos, BlockState>, before: map<BlockPos, BlockState>, s: seq<BlockPos>, i: int, b: BlockState)
    requires 0 <= i < |s|
    requires Painted(m, before, Visited(s, i), b)
    ensures Painted(m[s[i] := b], before, Visited(s, i + 1), b)
  {
    assert s[..i + 1] == s[..i] + [s[i]];
    PaintedOneMore(m, before, Visited(s, i), Visited(s, i + 1), s[i], b);
  }

  /** The cells of column (x, z) the ragged top layer has settled after o of its five draws. */
  ghost function TopDone(x: int, z: int, l: BedrockLayout, oracle: nat -> nat, from: nat, o: int): iset<BlockPos> {
    iset p: BlockPos | p.x == x && p.z == z && l.topY - o < p.y && l.TopAt(p.y, oracle, from)
  }

  /** The cells of column (x, z) the ragged bottom layer has settled once it has drawn for 4 down to o + 1. */
  ghost function BottomDone(x: int, z: int, l: BedrockLayout, oracle: nat -> nat, from: nat, o: int): iset<BlockPos> {
    iset p: BlockPos | p.x == x && p.z == z && l.bottomY + o < p.y && l.BottomAt(p.y, oracle, from)
  }

  /** The cells column (x, z) gets from its top layer, its first draw being `from`. */
  ghost function TopCells(x: int, z: int, l: BedrockLayout, oracle: nat -> nat, from: nat): iset<BlockPos> {
    iset p: BlockPos | p.x == x && p.z == z && l.top && l.TopAt(p.y, oracle, from)
  }

  /** The cells column (x, z) gets from its bottom layer, its first bottom draw being `from`. */
  ghost function BottomCells(x: int, z: int, l: BedrockLayout, oracle: nat -> nat, from: nat): iset<BlockPos> {
    iset p: BlockPos | p.x == x && p.z == z && l.bottom && l.BottomAt(p.y, oracle, from)
  }

  /** The cells a whole column (x, z) gets, its first draw being `from`. */
  ghost function ColumnCells(x: int, z: int, l: BedrockLayout, oracle: nat -> nat, from: nat): iset<BlockPos> {
    iset p: BlockPos | p.x == x && p.z == z && l.ColumnAt(p.y, oracle, from)
  }

  /** The cells of the columns before column i. */
  ghost function BedrockDone(startX: int, startZ: int, l: BedrockLayout, oracle: nat -> nat, start: nat, i: int): iset<BlockPos> {
    iset p: BlockPos | BedrockCell(p, startX, startZ, l, oracle, start) && ColumnIndex(p, startX, startZ) < i
  }

  /** One iteration of the ragged top loop: draw r for depth o, and bedrock at topY - o if o <= r. */
  lemma TopStep(m: map<BlockPos, BlockState>, before: map<BlockPos, BlockState>,
                x: int, z: int, l: BedrockLayout, oracle: nat -> nat, from: nat, o: int, r: int)
    requires !l.flat && 0 <= o < 5 && r == oracle(from + o) % 5
    requires Painted(m, before, TopDone(x, z, l, oracle, from, o), Bedrock)
    ensures o <= r ==> Painted(m[BlockPos(x, l.topY - o, z) := Bedrock], before, TopDone(x, z, l, oracle, from, o + 1), Bedrock)
    ensures o > r ==> Painted(m, before, TopDone(x, z, l, oracle, from, o + 1), Bedrock)
  {
    if o <= r {
      PaintedOneMore(m, before, TopDone(x, z, l, oracle, from, o), TopDone(x, z, l, oracle, from, o + 1),
                     BlockPos(x, l.topY - o, z), Bedrock);
    } else {
      PaintedCells(m, before, TopDone(x, z, l, oracle, from, o), TopDone(x, z, l, oracle, from, o + 1), Bedrock);
    }
  }

  /** One iteration of the ragged bottom loop: draw r for height o, and bedrock at bottomY + o if o <= r. */
  lemma BottomStep(m: map<BlockPos, BlockState>, before: map<BlockPos, BlockState>,
                   x: int, z: int, l: BedrockLayout, oracle: nat -> nat, from: nat, o: int, r: int)
    requires !l.flat && 0 <= o < 5 && r == oracle(from + (4 - o)) % 5
    requires Painted(m, before, BottomDone(x, z, l, oracle, from, o), Bedrock)
    ensures o <= r ==> Painted(m[BlockPos(x, l.bottomY + o, z) := Bedrock], before, BottomDone(x, z, l, oracle, from, o - 1), Bedrock)
    ensures o > r ==> Painted(m, before, BottomDone(x, z, l, oracle, from, o - 1), Bedrock)
  {
    if o <= r {
      PaintedOneMore(m, before, BottomDone(x, z, l, oracle, from, o), BottomDone(x, z, l, oracle, from, o - 1),
                     BlockPos(x, l.bottomY + o, z), Bedrock);
    } else {
      PaintedCells(m, before, BottomDone(x, z, l, oracle, from, o), BottomDone(x, z, l, oracle, from, o - 1), Bedrock);
    }
  }

  /** The top layer's cells followed by the bottom layer's are the column's cells. */
  lemma ColumnJoin(after: map<BlockPos, BlockState>, mid: map<BlockPos, BlockState>, before: map<BlockPos, BlockState>,
                   x: int, z: int, l: BedrockLayout, oracle: nat -> nat, from: nat)
    requires Painted(mid, before, TopCells(x, z, l, oracle, from), Bedrock)
    requires Painted(after, mid, BottomCells(x, z, l, oracle, from + l.TopDraws()), Bedrock)
    ensures Painted(after, before, ColumnCells(x, z, l, oracle, from), Bedrock)
  {
    PaintedThen(after, mid, before,
                TopCells(x, z, l, oracle, from),
                BottomCells(x, z, l, oracle, from + l.TopDraws()),
                ColumnCells(x, z, l, oracle, from), Bedrock);
  }

  /** Painting column i, which sits at (startX + i % 16, startZ + i / 16) and draws from
      start + ColumnDraws() * i on, extends the cells of the columns before it to those before i + 1. */
  lemma BedrockStep(after: map<BlockPos, BlockState>, mid: map<BlockPos, BlockState>, before: map<BlockPos, BlockState>,
                    startX: int, startZ: int, l: BedrockLayout, oracle: nat -> nat, start: nat, i: int,
                    x: int, z: int, from: nat)
    requires 0 <= i < 256
    requires x == startX + i % 16 && z == startZ + i / 16 && from == start + l.ColumnDraws() * i
    requires Painted(mid, before, BedrockDone(startX, startZ, l, oracle, start, i), Bedrock)
    requires Painted(after, mid, ColumnCells(x, z, l, oracle, from), Bedrock)
    ensures Painted(after, before, BedrockDone(startX, startZ, l, oracle, start, i + 1), Bedrock)
  {
    forall p
      ensures p in BedrockDone(startX, startZ, l, oracle, start, i + 1) <==>
              (p in BedrockDone(startX, startZ, l, oracle, start, i) || p in ColumnCells(x, z, l, oracle, from))
    {
      ColumnIndexAt(p, startX, startZ, i);
    }
    PaintedThen(after, mid, before, BedrockDone(startX, startZ, l, oracle, start, i),
                ColumnCells(x, z, l, oracle, from), BedrockDone(startX, startZ, l, oracle, start, i + 1), Bedrock);
  }

  /** After all 256 columns, the cells painted are every bedrock cell of the chunk; with no layer
      generated there are none. */
  lemma BedrockAllColumns(after: map<BlockPos, BlockState>, before: map<BlockPos, BlockState>,
                          startX: int, startZ: int, l: BedrockLayout, oracle: nat -> nat, start: nat)
    requires (l.top || l.bottom) ==> Painted(after, before, BedrockDone(startX, startZ, l, oracle, start, 256), Bedrock)
    requires !(l.top || l.bottom) ==> after == before
    ensures Painted(after, before, (iset p: BlockPos | BedrockCell(p, startX, startZ, l, oracle, start)), Bedrock)
  {
    if l.top || l.bottom {
      PaintedCells(after, before, BedrockDone(startX, startZ, l, oracle, start, 256),
                   (iset p: BlockPos | BedrockCell(p, startX, startZ, l, oracle, start)), Bedrock);
    }
  }

  class StructureChunkGenerator {
    const dimension: string
    const structure: string
    const structureOffset: BlockPos
    const playerSpawnOffset: BlockPos
    /** The default state of the configured fill block. */
    const fillmentBlock: BlockState
    const enableTopBedrock: bool
    const enableBottomBedrock: bool
    const isBedrockFlat: bool

    constructor (dimension: string, structure: string, structureOffset: BlockPos, playerSpawnOffset: BlockPos,
                 fillmentBlock: BlockState, enableTopBedrock: bool, enableBottomBedrock: bool, isBedrockFlat: bool)
      ensures this.dimension == dimension && this.structure == structure
      ensures this.structureOffset == structureOffset && this.playerSpawnOffset == playerSpawnOffset
      ensures this.fillmentBlock == fillmentBlock
      ensures this.enableTopBedrock == enableTopBedrock && this.enableBottomBedrock == enableBottomBedrock
      ensures this.isBedrockFlat == isBedrockFlat
    {
      this.dimension := dimension;
      this.structure := structure;
      this.structureOffset := structureOffset;
      this.playerSpawnOffset := playerSpawnOffset;
      this.fillmentBlock := fillmentBlock;
      this.enableTopBedrock := enableTopBedrock;
      this.enableBottomBedrock := enableBottomBedrock;
      this.isBedrockFlat := isBedrockFlat;
    }

    function WorldHeight(): int {
      320
    }

    function SeaLevel(): int {
      64
    }

    function MinimumY(): int {
      -64
    }

    /** Height-map query: this generator reports no terrain anywhere. */
    function GetHeight(x: int, z: int): int {
      0
    }

    /** The layout buildBedrock computes from the geometry and the bedrock flags. */
    function Layout(): BedrockLayout {
      BedrockLayout(WorldHeight() - 1, MinimumY(),
                    LayerEnabled(WorldHeight() - 1, WorldHeight(), enableTopBedrock),
                    LayerEnabled(MinimumY(), WorldHeight(), enableBottomBedrock),
                    isBedrockFlat)
    }

    /** buildSurface fills p: the fill block is not air and p is in the box from
        (startX, MinimumY(), startZ) to (startX + 15, WorldHeight(), startZ + 15), corners included. */
    predicate FillCell(p: BlockPos, startX: int, startZ: int) {
      !fillmentBlock.IsAir() && InBox(p, startX, MinimumY(), startZ, startX + 15, WorldHeight(), startZ + 15)
    }

    /** buildSurface: fill the footprint's full height with the fill block unless it is air, then,
        if either bedrock flag is set, lay bedrock with a fresh random source whose draws are `seed`.
        Bedrock overwrites the fill; every position neither fills nor bedrock touches is unchanged. */
    method BuildSurface(chunk: Chunk, seed: nat -> nat)
      modifies chunk
      ensures forall p :: p in chunk.blocks <==>
        p in old(chunk.blocks) || FillCell(p, chunk.startX, chunk.startZ) || BedrockCell(p, chunk.startX, chunk.startZ, Layout(), seed, 0)
      ensures forall p :: p in chunk.blocks ==>
        chunk.blocks[p] == (if BedrockCell(p, chunk.startX, chunk.startZ, Layout(), seed, 0) then Bedrock
                            else if FillCell(p, chunk.startX, chunk.startZ) then fillmentBlock
                            else old(chunk.blocks)[p])
    {
      var startX := chunk.startX;
      var startZ := chunk.startZ;
      if !fillmentBlock.IsAir() {
        var box := Iterate(startX, MinimumY(), startZ, startX + 15, WorldHeight(), startZ + 15);
        for i := 0 to |box|
          invariant Painted(chunk.blocks, old(chunk.blocks), Visited(box, i), fillmentBlock)
        {
          VisitStep(chunk.blocks, old(chunk.blocks), box, i, fillmentBlock);
          chunk.SetBlockState(box[i], fillmentBlock);
        }
        FillVisitsBox(chunk.blocks, old(chunk.blocks), startX, startZ);
      }
      if enableTopBedrock || enableBottomBedrock {
        var random := new Random(seed);
        BuildBedrock(chunk, random);
      }
    }

    /** The fill loop, having visited all of BlockPos.iterate's box, has filled exactly the fill cells. */
    lemma FillVisitsBox(after: map<BlockPos, BlockState>, before: map<BlockPos, BlockState>, startX: int, startZ: int)
      requires !fillmentBlock.IsAir()
      requires var box := Iterate(startX, MinimumY(), startZ, startX + 15, WorldHeight(), startZ + 15);
               Painted(after, before, Visited(box, |box|), fillmentBlock)
      ensures Painted(after, before, (iset p: BlockPos | FillCell(p, startX, startZ)), fillmentBlock)
    {
      var box := Iterate(startX, MinimumY(), startZ, startX + 15, WorldHeight(), startZ + 15);
      assert box[..|box|] == box;
      forall p
        ensures p in box <==> FillCell(p, startX, startZ)
      {
        IterateMembers(startX, MinimumY(), startZ, startX + 15, WorldHeight(), startZ + 15, p);
      }
      PaintedCells(after, before, Visited(box, |box|), (iset p: BlockPos | FillCell(p, startX, startZ)), fillmentBlock);
    }

    /** buildBedrock: walks the footprint's 256 columns in BlockPos.iterate order and paints each
        column's layers, taking ColumnDraws() draws per column. */
    method BuildBedrock(chunk: Chunk, random: Random)
      modifies chunk, random
      ensures random.drawn == old(random.drawn) + 256 * Layout().ColumnDraws()
      ensures Painted(chunk.blocks, old(chunk.blocks),
                      (iset p: BlockPos | BedrockCell(p, chunk.startX, chunk.startZ, Layout(), random.oracle, old(random.drawn))), Bedrock)
    {
      var startX := chunk.startX;
      var startZ := chunk.startZ;
      var bottomBedrockY := MinimumY();
      var topBedrockY := WorldHeight() - 1;
      var shouldGenerateTopBedrock := LayerEnabled(topBedrockY, WorldHeight(), enableTopBedrock);
      var shouldGenerateBottomBedrock := LayerEnabled(bottomBedrockY, WorldHeight(), enableBottomBedrock);
      var layout := BedrockLayout(topBedrockY, bottomBedrockY, shouldGenerateTopBedrock, shouldGenerateBottomBedrock, isBedrockFlat);
      if shouldGenerateTopBedrock || shouldGenerateBottomBedrock {
        PaintColumns(chunk, random, layout);
      }
      BedrockAllColumns(chunk.blocks, old(chunk.blocks), chunk.startX, chunk.startZ, layout, random.oracle, old(random.drawn));
    }

    /** The BlockPos.iterate(...).forEach(...) of buildBedrock: paints the 256 columns of the footprint
        in iterate order, column i drawing from ColumnDraws() * i on. */
    method PaintColumns(chunk: Chunk, random: Random, l: BedrockLayout)
      modifies chunk, random
      ensures random.drawn == old(random.drawn) + l.ColumnDraws() * 256
      ensures Painted(chunk.blocks, old(chunk.blocks), BedrockDone(chunk.startX, chunk.startZ, l, random.oracle, old(random.drawn), 256), Bedrock)
    {
      var startX := chunk.startX;
      var startZ := chunk.startZ;
      ghost var d0 := random.drawn;
      ghost var oracle := random.oracle;
      var columns := Iterate(startX, 0, startZ, startX + 15, 0, startZ + 15);
      ColumnsInOrder(startX, startZ, 0);
      for i := 0 to |columns|
        invariant random.drawn == d0 + l.ColumnDraws() * i
        invariant Painted(chunk.blocks, old(chunk.blocks), BedrockDone(startX, startZ, l, oracle, d0, i), Bedrock)
      {
        ColumnsInOrder(startX, startZ, i);
        var column := columns[i];
        ghost var mid := chunk.blocks;
        ghost var from := random.drawn;
        PaintColumn(chunk, random, column.x, column.z, l);
        MulStep(i + 1, l.ColumnDraws());
        BedrockStep(chunk.blocks, mid, old(chunk.blocks), startX, startZ, l, oracle, d0, i, column.x, column.z, from);
      }
    }

    /** The body buildBedrock runs for the column at (x, z): the top layer, then the bottom layer. */
    method PaintColumn(chunk: Chunk, random: Random, x: int, z: int, l: BedrockLayout)
      modifies chunk, random
      ensures random.drawn == old(random.drawn) + l.ColumnDraws()
      ensures Painted(chunk.blocks, old(chunk.blocks), ColumnCells(x, z, l, random.oracle, old(random.drawn)), Bedrock)
    {
      ghost var d0 := random.drawn;
      ghost var oracle := random.oracle;
      if l.top {
        if l.flat {
          chunk.SetBlockState(BlockPos(x, l.topY, z), Bedrock);
        } else {
          for o := 0 to 5
            invariant random.drawn == d0 + o
            invariant Painted(chunk.blocks, old(chunk.blocks), TopDone(x, z, l, oracle, d0, o), Bedrock)
          {
            var r := random.NextInt(5);
            TopStep(chunk.blocks, old(chunk.blocks), x, z, l, oracle, d0, o, r);
            if o <= r {
              chunk.SetBlockState(BlockPos(x, l.topY - o, z), Bedrock);
            }
          }
          PaintedCells(chunk.blocks, old(chunk.blocks), TopDone(x, z, l, oracle, d0, 5),
                       TopCells(x, z, l, oracle, d0), Bedrock);
        }
      }
      ghost var mid := chunk.blocks;
      ghost var d1 := random.drawn;
      if l.bottom {
        if l.flat {
          chunk.SetBlockState(BlockPos(x, l.bottomY, z), Bedrock);
        } else {
          var o := 4;
          while o >= 0
            invariant -1 <= o <= 4
            invariant random.drawn == d1 + (4 - o)
            invariant Painted(chunk.blocks, mid, BottomDone(x, z, l, oracle, d1, o), Bedrock)
          {
            var r := random.NextInt(5);
            BottomStep(chunk.blocks, mid, x, z, l, oracle, d1, o, r);
            if o <= r {
              chunk.SetBlockState(BlockPos(x, l.bottomY + o, z), Bedrock);
            }
            o := o - 1;
          }
          PaintedCells(chunk.blocks, mid, BottomDone(x, z, l, oracle, d1, -1),
                       BottomCells(x, z, l, oracle, d0 + l.TopDraws()), Bedrock);
        }
      }
      ColumnJoin(chunk.blocks, mid, old(chunk.blocks), x, z, l, oracle, d0);
    }

    /** populateNoise: hands the chunk back untouched. */
    method PopulateNoise(chunk: Chunk) returns (r: Chunk)
      ensures r == chunk
    {
      r := chunk;
    }

    /** carve: no caves. */
    method Carve(chunk: Chunk)
      modifies chunk
      ensures unchanged(chunk)
    {
    }

    /** generateFeatures: no features. */
    method GenerateFeatures(chunk: Chunk)
      modifies chunk
      ensures unchanged(chunk)
    {
    }

    /** populateEntities: no entities; the region is represented by its chunk. */
    method PopulateEntities(region: Chunk)
      modifies region
      ensures unchanged(region)
    {
    }
  }
}
