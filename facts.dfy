/** What the constant world geometry makes true of every structure-world chunk generator. */
module GeneratorFacts {
  import opened Blocks
  import opened BoxIteration
  import opened Chunks
  import opened Worldgen

  /** The geometry accessors: world height 320, sea level 64, minimum height -64. */
  lemma GeometryConstants(g: StructureChunkGenerator)
    ensures g.WorldHeight() == 320 && g.SeaLevel() == 64 && g.MinimumY() == -64
    ensures g.MinimumY() < g.SeaLevel() < g.WorldHeight()
  {
  }

  /** Every height-map query answers 0, wherever it is asked. */
  lemma NoTerrainHeight(g: StructureChunkGenerator, x: int, z: int)
    ensures g.GetHeight(x, z) == 0
  {
  }

  /** The top layer sits at height 319 and its guard holds exactly when the top flag is set. */
  lemma TopGuardIsFlag(g: StructureChunkGenerator)
    ensures g.Layout().topY == g.WorldHeight() - 1 == 319
    ensures g.Layout().top <==> g.enableTopBedrock
  {
  }

  /** The bottom layer would sit at -64, where its guard -64 + 4 >= 0 fails: it is never generated. */
  lemma BottomGuardNeverHolds(g: StructureChunkGenerator)
    ensures g.Layout().bottomY == g.MinimumY() == -64
    ensures !g.Layout().bottom
  {
  }

  /** Every bedrock block buildBedrock writes comes from the top layer: the top flag is set, the block is
      in the footprint and lies in heights 315..319. None is ever written at the bottom of the world. */
  lemma BedrockOnlyAtTop(g: StructureChunkGenerator, p: BlockPos, startX: int, startZ: int, oracle: nat -> nat, start: nat)
    requires BedrockCell(p, startX, startZ, g.Layout(), oracle, start)
    ensures g.enableTopBedrock && InFootprint(p, startX, startZ)
    ensures g.WorldHeight() - 5 <= p.y <= g.WorldHeight() - 1
  {
  }

  /** Flat bedrock is exactly the layer y = 319 of every column of the footprint, when the top flag is set. */
  lemma FlatBedrockIsOneLayer(g: StructureChunkGenerator, p: BlockPos, startX: int, startZ: int, oracle: nat -> nat, start: nat)
    requires g.isBedrockFlat
    ensures BedrockCell(p, startX, startZ, g.Layout(), oracle, start)
        <==> g.enableTopBedrock && InFootprint(p, startX, startZ) && p.y == 319
  {
  }

  /** Whatever the draws, each column gets bedrock at 319 when the top flag is set: depth 0 is never above a draw. */
  lemma TopLayerAlwaysPlaced(g: StructureChunkGenerator, p: BlockPos, startX: int, startZ: int, oracle: nat -> nat, start: nat)
    requires g.enableTopBedrock && InFootprint(p, startX, startZ) && p.y == g.WorldHeight() - 1
    ensures BedrockCell(p, startX, startZ, g.Layout(), oracle, start)
  {
  }

  /** Ragged top bedrock takes five draws per column, 1280 per chunk; otherwise buildBedrock draws nothing. */
  lemma DrawsPerChunk(g: StructureChunkGenerator)
    ensures g.Layout().ColumnDraws() == if g.enableTopBedrock && !g.isBedrockFlat then 5 else 0
    ensures 256 * g.Layout().ColumnDraws() == if g.enableTopBedrock && !g.isBedrockFlat then 1280 else 0
  {
  }

  /** The fill reaches y = WorldHeight() = 320, one above the top bedrock height 319, and no further:
      its box holds 385 heights of 256 columns. */
  lemma FillReachesPastTop(g: StructureChunkGenerator, startX: int, startZ: int)
    ensures g.FillCell(BlockPos(startX, g.WorldHeight(), startZ), startX, startZ) <==> !g.fillmentBlock.IsAir()
    ensures !g.FillCell(BlockPos(startX, g.WorldHeight() + 1, startZ), startX, startZ)
    ensures |Iterate(startX, g.MinimumY(), startZ, startX + 15, g.WorldHeight(), startZ + 15)| == 256 * 385
    ensures g.WorldHeight() - g.MinimumY() + 1 == 385
  {
    IterateLength(startX, g.MinimumY(), startZ, startX + 15, g.WorldHeight(), startZ + 15);
  }

  /** buildSurface writes nothing outside the chunk's 16 x 16 footprint. */
  lemma WritesStayInFootprint(g: StructureChunkGenerator, p: BlockPos, startX: int, startZ: int, oracle: nat -> nat)
    requires !InFootprint(p, startX, startZ)
    ensures !g.FillCell(p, startX, startZ) && !BedrockCell(p, startX, startZ, g.Layout(), oracle, 0)
  {
  }

  /** A client's view of buildSurface on a fresh chunk at chunk coordinates (2, -1), filled with stone
      under flat top bedrock: what the contract alone lets it conclude. */
  method StoneUnderFlatBedrock(seed: nat -> nat)
  {
    var stone := Other("minecraft:stone");
    var g := new StructureChunkGenerator("minecraft:overworld", "island", BlockPos(0, 64, 0), BlockPos(0, 65, 0),
                                         stone, true, true, true);
    var chunk := new Chunk(2, -1);
    g.BuildSurface(chunk, seed);
    assert BedrockCell(BlockPos(32, 319, -16), 32, -16, g.Layout(), seed, 0);
    assert chunk.blocks[BlockPos(32, 319, -16)] == Bedrock;
    assert chunk.blocks[BlockPos(47, 320, -1)] == stone;
    assert chunk.blocks[BlockPos(40, -64, -10)] == stone;
    assert BlockPos(48, 0, -16) !in chunk.blocks;
    assert BlockPos(32, 321, -16) !in chunk.blocks;
  }
}
