/** The host chunk the generator writes into, and the frame facts about its writes. */
module Chunks {
  import opened Blocks

  /** `after` is `before` with every position of `cells` set to `b` and every other position as it was. */
  ghost predicate Painted(after: map<BlockPos, BlockState>, before: map<BlockPos, BlockState>, cells: iset<BlockPos>, b: BlockState) {
    && (forall p :: p in after <==> p in before || p in cells)
    && (forall p :: p in after ==> after[p] == if p in cells then b else before[p])
  }

  /** Painting S and then T with the same block paints their union. */
  lemma PaintedThen(after: map<BlockPos, BlockState>, mid: map<BlockPos, BlockState>, before: map<BlockPos, BlockState>,
                    s: iset<BlockPos>, t: iset<BlockPos>, u: iset<BlockPos>, b: BlockState)
    requires Painted(mid, before, s, b) && Painted(after, mid, t, b)
    requires forall p :: p in u <==> p in s || p in t
    ensures Painted(after, before, u, b)
  {
  }

  /** Writing one more position extends the painted set by that position. */
  lemma PaintedOneMore(m: map<BlockPos, BlockState>, before: map<BlockPos, BlockState>,
                       s: iset<BlockPos>, t: iset<BlockPos>, q: BlockPos, b: BlockState)
    requires Painted(m, before, s, b)
    requires forall p :: p in t <==> p in s || p == q
    ensures Painted(m[q := b], before, t, b)
  {
  }

  /** A chunk: the positions written so far and the block written last at each.
      A position never written is absent. startX and startZ are the smallest x and z of
      the chunk's 16 x 16 footprint. */
  class Chunk {
    const startX: int
    const startZ: int
    var blocks: map<BlockPos, BlockState>

    /** A fresh chunk at chunk coordinates (chunkX, chunkZ); the host shifts them left by four. */
    constructor (chunkX: int, chunkZ: int)
      ensures startX == 16 * chunkX && startZ == 16 * chunkZ
      ensures blocks == map[]
    {
      startX := 16 * chunkX;
      startZ := 16 * chunkZ;
      blocks := map[];
    }

    /** setBlockState(pos, state, false): records state at pos. */
    method SetBlockState(pos: BlockPos, state: BlockState)
      modifies this
      ensures blocks == old(blocks)[pos := state]
    {
      blocks := blocks[pos := state];
    }
  }
}
