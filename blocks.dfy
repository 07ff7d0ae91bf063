/** Positions and block states, the two host values the chunk generator writes with. */
module Blocks {

  /** A block position in world coordinates (the host's BlockPos; y is the height). */
  datatype BlockPos = BlockPos(x: int, y: int, z: int)

  /** The default state of a block. Only the distinctions the generator makes are kept:
      the three air blocks, bedrock, and any other block by its identifier. */
  datatype BlockState = Air | CaveAir | VoidAir | Bedrock | Other(id: string)
  {
    /** The host's isAir(): true exactly for the three air blocks. */
    predicate IsAir() {
      Air? || CaveAir? || VoidAir?
    }
  }
}
