# Structure-world chunk generator

SkyblockCreator replaces a world's terrain with one pre-recorded structure. Its chunk generator,
`StructureChunkGenerator`, skips normal terrain generation. For each chunk it can do two things:

- fill the chunk's whole 16 x 16 column footprint, from the world's minimum height up to its
  world height, with one configured "fill" block (skipped when that block is air);
- lay bedrock at the top and/or bottom of the world. A layer is either flat (one block thick) or
  ragged. A ragged layer is up to five blocks deep. The depth is decided per block by draws from a
  freshly seeded random source.

Every other hook of the generator does nothing. It reports no terrain height, carves no caves,
places no features, spawns no entities, and hands the chunk back untouched from noise population.

This project models that generator and proves what its constant world geometry implies:

- The world height is 320, the sea level 64 and the minimum height -64.
- The top bedrock layer sits at y = 319, and its guard holds exactly when the top flag is set.
- The bottom layer's guard `-64 + 4 >= 0` never holds. So no bottom bedrock is ever written,
  whatever the bottom flag says.
- Top bedrock always includes y = 319 in every column, and every bedrock block lies in heights 315..319.
- A ragged top layer takes exactly five draws per column, so 1280 per chunk.
- The fill covers heights -64..320 inclusive. That is 385 heights, one above the top bedrock
  height 319.
- Nothing outside the chunk's footprint is ever written.

Modules:

- `Blocks` (`blocks.dfy`): block positions, and block states with `IsAir`.
- `BoxIteration` (`box_iteration.dfy`): the host's `BlockPos.iterate` over an inclusive box, as the
  sequence of positions it yields. x varies fastest, then y, then z. The lemmas say which positions
  it yields, how many, and in which order.
- `Chunks` (`chunk.dfy`): the chunk, a class whose `blocks` map records the last block written at
  each position. `Painted` states that one map is another with a set of positions overwritten by one block.
- `Randomness` (`random.dfy`): `java.util.Random`, as an oracle stream of values. `drawn` counts the
  draws taken so far.
- `Worldgen` (`generator.dfy`): the generator class, with its geometry, `BuildSurface`,
  `BuildBedrock` and the no-op hooks. Also the specification of which cells get bedrock
  (`BedrockLayout`, `BedrockCell`) and the step lemmas the loops are proved with.
- `GeneratorFacts` (`facts.dfy`): the consequences of the geometry constants listed above, and a
  client method showing what `BuildSurface`'s contract lets a caller conclude.

`BuildSurface` is proved against a specification. Its postcondition gives the exact new contents of
the chunk at every position: bedrock where `BedrockCell` holds, otherwise the fill block where
`FillCell` holds, otherwise what was there before. The lemmas in `GeneratorFacts` then describe
`BedrockCell` and `FillCell` for the fixed geometry.

## Model

| member | source | states |
|---|---|---|
| `Chunks.Chunk.SetBlockState` | src/main/java/io/github/null2264/skyblockcreator/worldgen/StructureChunkGenerator.java:88 | a write records the block at that position and changes no other position |
| `Randomness.Random.NextInt` | src/main/java/io/github/null2264/skyblockcreator/worldgen/StructureChunkGenerator.java:130 | `nextInt(5)` returns the next draw of the stream, in [0, 5), and consumes exactly one draw |
| `BoxIteration.IterateMembers` | src/main/java/io/github/null2264/skyblockcreator/worldgen/StructureChunkGenerator.java:88 | `BlockPos.iterate` yields exactly the positions of the box, both corners included |
| `BoxIteration.IterateLength` | src/main/java/io/github/null2264/skyblockcreator/worldgen/StructureChunkGenerator.java:124 | `BlockPos.iterate` yields width x height x depth positions |
| `Worldgen.ColumnsInOrder` | src/main/java/io/github/null2264/skyblockcreator/worldgen/StructureChunkGenerator.java:124 | the column loop visits all 256 columns, x fastest; the i-th column is (startX + i % 16, startZ + i / 16) |
| `Worldgen.ColumnIndexAt` | src/main/java/io/github/null2264/skyblockcreator/worldgen/StructureChunkGenerator.java:124 | a footprint position is in column i exactly when it is at (startX + i % 16, startZ + i / 16) |
| `Worldgen.StructureChunkGenerator.constructor` | src/main/java/io/github/null2264/skyblockcreator/worldgen/StructureChunkGenerator.java:49-59 | the generator keeps every configuration value it is given |
| `Worldgen.StructureChunkGenerator.BuildSurface` | src/main/java/io/github/null2264/skyblockcreator/worldgen/StructureChunkGenerator.java:83-91 | the new chunk contents at every position: bedrock on bedrock cells, else the fill block on the fill box when the fill is not air, else unchanged; bedrock is laid only when a bedrock flag is set |
| `Worldgen.StructureChunkGenerator.FillVisitsBox` | src/main/java/io/github/null2264/skyblockcreator/worldgen/StructureChunkGenerator.java:84-88 | after visiting every position `BlockPos.iterate` yields, the fill has overwritten exactly the box x in [startX, startX+15], y in [-64, 320], z in [startZ, startZ+15] |
| `Worldgen.StructureChunkGenerator.BuildBedrock` | src/main/java/io/github/null2264/skyblockcreator/worldgen/StructureChunkGenerator.java:113-149 | bedrock is written exactly on the cells `BedrockCell` gives for the computed layout; nothing else changes; 256 x (draws per column) draws are taken |
| `Worldgen.StructureChunkGenerator.PaintColumns` | src/main/java/io/github/null2264/skyblockcreator/worldgen/StructureChunkGenerator.java:124-147 | walking the 256 columns in iterate order paints every column's cells, column i using the draws from ColumnDraws() x i on |
| `Worldgen.StructureChunkGenerator.PaintColumn` | src/main/java/io/github/null2264/skyblockcreator/worldgen/StructureChunkGenerator.java:125-146 | one column gets bedrock at exactly the heights its top and bottom layers select, and takes the layers' draws in order |
| `Worldgen.TopStep` | src/main/java/io/github/null2264/skyblockcreator/worldgen/StructureChunkGenerator.java:129-133 | depth o of a ragged top layer gets bedrock exactly when o is at most its draw |
| `Worldgen.BottomStep` | src/main/java/io/github/null2264/skyblockcreator/worldgen/StructureChunkGenerator.java:140-144 | height o of a ragged bottom layer, drawn for from 4 down to 0, gets bedrock exactly when o is at most its draw |
| `Worldgen.ColumnJoin` | src/main/java/io/github/null2264/skyblockcreator/worldgen/StructureChunkGenerator.java:125-146 | a column's cells are its top layer's cells followed by its bottom layer's, the bottom using the draws after the top's |
| `Worldgen.BedrockStep` | src/main/java/io/github/null2264/skyblockcreator/worldgen/StructureChunkGenerator.java:124 | painting column i after columns 0..i-1 paints the cells of columns 0..i |
| `Worldgen.BedrockAllColumns` | src/main/java/io/github/null2264/skyblockcreator/worldgen/StructureChunkGenerator.java:123 | when the layer guard fails nothing is painted; otherwise the 256 columns paint every bedrock cell |
| `Worldgen.StructureChunkGenerator.PopulateNoise` | src/main/java/io/github/null2264/skyblockcreator/worldgen/StructureChunkGenerator.java:166-168 | noise population returns the very chunk it was given and changes nothing |
| `Worldgen.StructureChunkGenerator.Carve` | src/main/java/io/github/null2264/skyblockcreator/worldgen/StructureChunkGenerator.java:171-172 | carving leaves the chunk unchanged |
| `Worldgen.StructureChunkGenerator.GenerateFeatures` | src/main/java/io/github/null2264/skyblockcreator/worldgen/StructureChunkGenerator.java:175-176 | feature generation leaves the chunk unchanged |
| `Worldgen.StructureChunkGenerator.PopulateEntities` | src/main/java/io/github/null2264/skyblockcreator/worldgen/StructureChunkGenerator.java:94-95 | entity population leaves the region unchanged |
| `GeneratorFacts.GeometryConstants` | src/main/java/io/github/null2264/skyblockcreator/worldgen/StructureChunkGenerator.java:98-110 | world height 320, sea level 64, minimum height -64, in that order from the bottom up |
| `GeneratorFacts.NoTerrainHeight` | src/main/java/io/github/null2264/skyblockcreator/worldgen/StructureChunkGenerator.java:152-154 | the height query answers 0 at every column |
| `GeneratorFacts.TopGuardIsFlag` | src/main/java/io/github/null2264/skyblockcreator/worldgen/StructureChunkGenerator.java:119-121 | the top layer is at 319 and its guard holds if and only if the top flag is set |
| `GeneratorFacts.BottomGuardNeverHolds` | src/main/java/io/github/null2264/skyblockcreator/worldgen/StructureChunkGenerator.java:118-122 | the bottom layer is at -64 and its guard never holds |
| `GeneratorFacts.BedrockOnlyAtTop` | src/main/java/io/github/null2264/skyblockcreator/worldgen/StructureChunkGenerator.java:123-147 | every bedrock cell needs the top flag, lies in the footprint and in heights 315..319 |
| `GeneratorFacts.FlatBedrockIsOneLayer` | src/main/java/io/github/null2264/skyblockcreator/worldgen/StructureChunkGenerator.java:126-127 | flat bedrock is exactly y = 319 in each of the 256 columns, when the top flag is set |
| `GeneratorFacts.TopLayerAlwaysPlaced` | src/main/java/io/github/null2264/skyblockcreator/worldgen/StructureChunkGenerator.java:129-133 | with the top flag set, every column gets bedrock at 319 whatever the draws |
| `GeneratorFacts.DrawsPerChunk` | src/main/java/io/github/null2264/skyblockcreator/worldgen/StructureChunkGenerator.java:129-144 | five draws per column (1280 per chunk) for ragged top bedrock, none otherwise |
| `GeneratorFacts.FillReachesPastTop` | src/main/java/io/github/null2264/skyblockcreator/worldgen/StructureChunkGenerator.java:88 | the fill reaches y = 320, one above the top bedrock height, and no higher; its box holds 256 x 385 positions |
| `GeneratorFacts.WritesStayInFootprint` | src/main/java/io/github/null2264/skyblockcreator/worldgen/StructureChunkGenerator.java:83-149 | no position outside the 16 x 16 footprint is filled or gets bedrock |

## Left out

- The `CODEC` record definition is host serialisation and is not modelled. Its defaults are air
  fill and all three bedrock flags false. The constructor takes every value explicitly.
- `getFillmentBlock` looks the configured identifier up in the host block registry and takes its
  default state. The generator holds that state directly, as `fillmentBlock`.
- `RandomSeed.getSeed()` and the generator algorithm of `java.util.Random` are not modelled.
  `BuildSurface` takes the random stream as a parameter (`seed`). `nextInt(bound)` is the next value
  of that stream reduced modulo `bound`.
- Positions are values here. The reuse of one `BlockPos.Mutable` across writes is not modelled.
- The chunk records every write, wherever it lands. The host chunk's own handling of a position
  outside its height range, such as the fill's write at y = 320, is host code and is not modelled.
- The host types among the hooks' parameters are dropped: region, structure accessor, noise
  configuration, heightmap type, height view, biome access, carver step and seed. So are the
  `moved` flag of `setBlockState` (always false here) and the executor and future of `populateNoise`.
- `PopulateEntities` receives a region of the world in the host. The model stands a chunk in for
  that region.
- `getCodec`, `getStructure`, `getStructureOffset`, `getPlayerSpawnOffset`, `locateStructure`,
  `getColumnSample` and `getDebugHudText` are constant returns or getters of host types, and are
  not modelled.
- Mod.java, PlayerEntityMixin.java, the Respro interfaces and build.gradle.kts are not part of this
  model. They hold file and network I/O, registration with the host, and build configuration.
