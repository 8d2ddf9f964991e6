# Voxel world core, modelled in Dafny

The model covers the core of a Unity voxel game written in C#: its blocks, chunks and chunk registry.
`Assets/Scripts/Block.cs`, `Assets/Scripts/Chunk.cs` and `Assets/Scripts/World.cs` hold that core.

**Blocks**
- The world is made of blocks.
- Each block has a kind (sand, water, cactus, sign parts, …), a solid and a water flag, and a crack stage and health counter.
- A hit lowers the health and advances the cracks.
- A block whose health runs out becomes air.
- A hit schedules a heal when the health it leaves is one below the kind's maximum: the first hit, and also the hit after destruction, since air's maximum is 0 and the remains drop from 0 to -1.

**Chunks**
- Blocks live in chunks: cubes of 8×8×8 blocks.
- A chunk is built cell by cell by four rule chains, applied in order:
  1. bedrock or sand;
  2. the cactus band, sand, water or air;
  3. the sign post;
  4. the sign boards and the area around the sign.
- Placing water greens the sand and cactus bases next to it, in the chunk itself or across the border into a registered chunk.
- Drawing a chunk collects, for every cell, the faces that no neighbour hides.
- Saving a chunk copies its block kinds into a `BlockData` record, written to a file whose name encodes the chunk position, the chunk size and the radius.

**The world**
- The world keeps a dictionary from chunk names (`"x_y_z"`) to chunks.
- It looks up blocks at world positions by flooring to the chunk lattice.
- It builds chunks in two ways:
  - layer by layer around a point (`BuildWorld`);
  - by a breadth-first flood of coroutines (`BuildRecursiveWorld`).
- It draws the chunks still in the DRAW state and lists those beyond the drawing radius.
- It saves and unloads the chunks on that list.

## Project layout

The modules follow the source files:
- `BlockTypes.dfy` (module `BlockTypes`): the block kinds and their enum values, the health table, and the texture-atlas row each face of each kind uses.
- `BlockHealth.dfy` (module `BlockHealth`): the state machine of one block's `SetType`, `Reset` and `HitBlock`, on values. Lemmas follow a block through any number of hits.
- `Coords.dfy` (module `Coords`): the constants and the truncating integer arithmetic that maps world positions to chunks and local indices.
- `Names.dfy` (module `Names`): chunk names, column names and save-file names. A parser reads them back, which shows that the names are injective.
- `Terrain.dfy` (module `Terrain`): what the four rule chains of `BuildChunk` plan for every world position. The noise functions are parameters of a `Terrain` value.
- `Streaming.dfy` (module `Streaming`): the sequence of chunk coordinates that `BuildWorld` and `BuildRecursiveWorld` request. It also gives the termination measure of the coroutine flood.
- `Voxel.dfy` (module `Voxel`): the classes.
  - `Block`, `Chunk`, `World` and `BlockData`, with the mutable fields of the source.
  - `Chunk.chunkData` is an `array3<Block?>`.
  - The world's dictionary is a `map<string, Chunk>` field.
  - The methods update these in place and are specified against the value-level functions of the other modules.

Each block-building and chunk-building method states an invariant that it preserves:
- The registry invariant `World.Valid`: every registered chunk is fully built, lies on the chunk lattice and is stored under the name of its origin.
- Blocks that already exist are only ever "greened" (sand or cactus base turned to grass).

## Model

| member | source | states |
|---|---|---|
| BlockTypes.Ordinal | Assets/Scripts/Block.cs:11-12 | enum values are 0..20; 20 is reserved for the cactus base the builder uses |
| BlockTypes.FromOrdinal | Assets/Scripts/Block.cs:11-12 | every enum value 0..20 names the kind whose value it is |
| BlockTypes.OrdinalRoundTrip | Assets/Scripts/Block.cs:11-12 | a kind is recovered from its enum value (the values are distinct) |
| BlockTypes.HealthMax | Assets/Scripts/Block.cs:24 | maximal health is between -1 and 10; -1 exactly for bedrock; 0 exactly for the crack kinds and air |
| BlockTypes.UvRow | Assets/Scripts/Block.cs:242-366 | the texture row chosen for any kind and side is a row of the 25-row atlas table (no out-of-range index) |
| BlockTypes.SignBoardFaces | Assets/Scripts/Block.cs:311-359 | sign boards show text rows 21..23 only on front and back, the middle board row 22, the side boards their outer text rows, and every other face the plain row 24 |
| BlockTypes.BodyRowsAvoidCracks | Assets/Scripts/Block.cs:242-366 | kinds other than the crack stages never draw their body with a crack-overlay row 8..12 |
| BlockHealth.SetTypeState | Assets/Scripts/Block.cs:120-143 | after SetType the block is uncracked with full health; non-solid exactly for air and water; the water flag is sticky; sand becomes grass exactly when a neighbour holds water; other kinds are kept |
| BlockHealth.ResetState | Assets/Scripts/Block.cs:148-153 | Reset keeps kind and flags and restores cracks and health |
| BlockHealth.Hit | Assets/Scripts/Block.cs:188-212 | a block at health -1 ignores the hit; a destroying hit leaves non-solid air; otherwise kind and solidity stay and the crack/health balance is kept; the water flag never changes |
| BlockHealth.GreenedStateTransitive | Assets/Scripts/Chunk.cs:246-267 | greening twice is one greening |
| BlockHealth.GreenedStateKind | Assets/Scripts/Chunk.cs:246-267 | a greened block changed kind only from sand or cactus base to grass |
| BlockHealth.FreshBlockHit | Assets/Scripts/Block.cs:188-212 | hit i+1 of a fresh block of health h >= 1: outcome of the (i+1)-th hit in closed form |
| BlockHealth.FreshBlockStates | Assets/Scripts/Block.cs:188-212 | the state of a fresh block after i hits, in closed form (health drops one per hit, air with health 0 after hit h, health -1 after that) |
| BlockHealth.FreshBlockHits | Assets/Scripts/Block.cs:188-212 | a fresh block of health h >= 1 is destroyed by hit h and reported destroyed again by hit h+1, never otherwise; heals are scheduled on the first hit and on hit h+1 only; the crack overlay advances one row per hit |
| BlockHealth.HollowBlockHits | Assets/Scripts/Block.cs:188-212 | a fresh block of health 0 is destroyed by the first hit only, and only that hit schedules a heal |
| BlockHealth.IndestructibleHits | Assets/Scripts/Block.cs:188-212 | a block with health -1 is unchanged by any number of hits and never reports destruction or schedules a heal |
| BlockHealth.BedrockIsIndestructible | Assets/Scripts/Block.cs:24 | fresh bedrock survives any number of hits |
| BlockHealth.OverlayStaysOnCrackRows | Assets/Scripts/Block.cs:369-372 | while a block of health at most 5 is alive its overlay row stays within the crack rows 8..12 |
| BlockHealth.OverlayInAtlas | Assets/Scripts/Block.cs:369-372 | after any number of hits a fresh block of health h >= 1 selects an overlay row between 8 and h + 7, inside the 25-row atlas |
| BlockHealth.WaterOverlayLeavesCrackRows | Assets/Scripts/Block.cs:24 | water (health 10) hit 5 to 9 times selects overlay rows 13..17, past the crack rows |
| Coords.TruncDiv | Assets/Scripts/World.cs:67-84 | C# integer division: Euclidean division for non-negative dividends, negated division of the absolute value for negative ones |
| Coords.ChunkOrigin | Assets/Scripts/World.cs:67-84 | the shifted-then-truncated origin equals the floor to the chunk lattice: a multiple of 8 at most 7 below the position, for negative positions too |
| Coords.SameChunkSameOrigin | Assets/Scripts/World.cs:67-84 | every position inside the chunk at lattice point c gets origin c |
| Coords.LocalIndex | Assets/Scripts/World.cs:86-94 | the block index inside the chunk is in 0..7 and adds back to the position |
| Coords.OffsetsInChunk | Assets/Scripts/World.cs:67-94 | a cell (i, j, k) of the chunk at a lattice point is found back with that origin and index |
| Coords.ConvertBlockIndexToLocal | Assets/Scripts/Block.cs:456-463 | an index one chunk out of range on either side is brought into 0..7 as index mod 8; indices in range are unchanged; the result is always congruent to the input |
| Coords.Manhattan | Assets/Scripts/World.cs:140-173 | the step distance between chunk coordinates is non-negative and zero exactly for equal coordinates |
| Names.DigitValue | Assets/Scripts/World.cs:41-46 | a digit character reads back to the digit that prints it |
| Names.NatToStringDigits | Assets/Scripts/World.cs:41-46 | the decimal form of a natural number is a non-empty digit string |
| Names.IntToStringPlain | Assets/Scripts/World.cs:41-46 | a printed integer contains no underscore, so it can be one field of a name |
| Names.ParseNat | Assets/Scripts/World.cs:41-46 | reading succeeds exactly on non-empty digit strings |
| Names.ParseNatToString | Assets/Scripts/World.cs:41-46 | printing a natural number and reading it back gives the number |
| Names.ParseIntToString | Assets/Scripts/World.cs:41-46 | printing an integer, with a minus sign if negative, and reading it back gives the integer |
| Names.Fields | Assets/Scripts/World.cs:41-46 | splitting at underscores yields at least one field |
| Names.FieldsOfJoin | Assets/Scripts/World.cs:41-46 | underscore-free fields joined with underscores split back into the same fields |
| Names.ParseAllDecimals | Assets/Scripts/World.cs:41-46 | the decimal strings of a list of integers read back to the list |
| Names.JoinedDecimalsRoundTrip | Assets/Scripts/World.cs:41-46 | integers printed and joined with underscores are recovered by splitting and reading |
| Names.ParseChunkNameRoundTrip | Assets/Scripts/World.cs:41-46 | a chunk name "x_y_z" reads back to (x, y, z) |
| Names.ColumnName | Assets/Scripts/World.cs:53-56 | a column name "x_z" reads back to (x, z) |
| Names.ChunkNameInjective | Assets/Scripts/World.cs:41-46 | two chunk names are equal exactly when their coordinates are |
| Names.ColumnNameInjective | Assets/Scripts/World.cs:53-56 | two column names are equal exactly when their coordinates are |
| Names.ChunkFileNameShape | Assets/Scripts/Chunk.cs:62-71 | a save-file name is the data directory, "/savedata/Chunk_", the five underscore-joined numbers and ".dat" |
| Names.ParseChunkFileNameRoundTrip | Assets/Scripts/Chunk.cs:62-71 | the position, chunk size and radius are read back out of a save-file name |
| Names.ChunkFileNameInjective | Assets/Scripts/Chunk.cs:62-71 | under one data directory two save-file names are equal exactly when position, chunk size and radius all agree |
| Terrain.BedrockRule | Assets/Scripts/Chunk.cs:159-163 | bedrock exactly at height 100; otherwise sand or nothing; the surface always gets a block |
| Terrain.TerrainRule | Assets/Scripts/Chunk.cs:164-189 | the second chain writes only cactus bases, cacti, sand, water and air; it leaves the cell as the first chain left it only at the surface (failed base test) or where that was already a block; water only strictly between surface and water level |
| Terrain.SignPostRule | Assets/Scripts/Chunk.cs:192-197 | outside the sign column nothing changes; inside it only SIGNBASE and SIGNMIDDLE are written |
| Terrain.SignSurroundRule | Assets/Scripts/Chunk.cs:198-211 | nothing changes in the sign column or away from the sign; otherwise only the two boards, air and HELGE are written |
| Terrain.Planned | Assets/Scripts/Chunk.cs:159-211 | the rule chains place a block at every position, and the bedrock of the first chain never survives the second |
| Terrain.PlannedKind | Assets/Scripts/Chunk.cs:159-211 | the kind planned for a position is the one the four chains produce, and it is not bedrock |
| Terrain.PlainTerrain | Assets/Scripts/Chunk.cs:159-189 | outside the cactus band and away from the sign: sand up to the surface, water below the water level, air above |
| Terrain.CactusBand | Assets/Scripts/Chunk.cs:164-181 | in the cactus band: cactus base or sand at the surface, a cactus above it exactly when the base noise test passes, a second cactus only when both tests pass, air otherwise |
| Terrain.SignPost | Assets/Scripts/Chunk.cs:192-197 | the sign column holds SIGNBASE up to two above its surface and SIGNMIDDLE three above |
| Terrain.SignBoards | Assets/Scripts/Chunk.cs:199-204 | SIGNLEFT and SIGNRIGHT sit one column left and right of the post, at the middle board's height |
| Terrain.SignSurroundings | Assets/Scripts/Chunk.cs:205-211 | around the sign (distance below 3) cells above the sign's height are air and cells at or below both surface and sign height are HELGE |
| Terrain.SettlesGreened | Assets/Scripts/Chunk.cs:246-267 | greening a cell that agrees with the plan keeps it in agreement |
| Terrain.GreenedTransitive | Assets/Scripts/Chunk.cs:246-267 | greening composes |
| Terrain.SettledExactly | Assets/Scripts/Chunk.cs:182-211 | water, air, sign parts and HELGE are placed exactly as planned; only sand, cactus bases and cacti may differ |
| Streaming.RowPrefixIndex | Assets/Scripts/World.cs:121-130 | request k of the innermost loop is for j = -r + k |
| Streaming.RowPrefixMembers | Assets/Scripts/World.cs:121-130 | the innermost loop requests exactly the z-range it iterates |
| Streaming.BuildWorldCount | Assets/Scripts/World.cs:121-130 | BuildWorld makes 10·(2r+1)² requests |
| Streaming.BuildWorldMembers | Assets/Scripts/World.cs:121-130 | BuildWorld requests exactly the chunks of layers 12..21 within r of (x, z) on both horizontal axes |
| Streaming.BuildWorldIndex | Assets/Scripts/World.cs:121-130 | the request for (x+i, y, z+j) comes at position (y-12)·W² + (i+r)·W + (j+r), with W = 2r+1 |
| Streaming.Neighbours | Assets/Scripts/World.cs:143-172 | a coroutine visits six neighbours |
| Streaming.Children | Assets/Scripts/World.cs:143-172 | a coroutine starts one coroutine per neighbour it builds, at that neighbour, with radius one less |
| Streaming.ChildrenLighter | Assets/Scripts/World.cs:140-173 | the six coroutines started by one of radius r weigh less than it (7^r against 6·7^(r-1)) |
| Streaming.WeightDrops | Assets/Scripts/World.cs:140-173 | running the first coroutine of the queue makes the queue lighter, so the flood terminates |
| Streaming.DrainStep | Assets/Scripts/World.cs:140-173 | running the first coroutine moves its requests from the queue's remaining requests to those made, keeping the total order |
| Streaming.NeighbourDistance | Assets/Scripts/World.cs:143-172 | a neighbour is one step from its coroutine's position and at most one layer away |
| Streaming.StepWithinReach | Assets/Scripts/World.cs:140-173 | one coroutine run keeps every queued coroutine's distance plus radius within the start radius |
| Streaming.DrainWithinReach | Assets/Scripts/World.cs:140-173 | a queue within reach only requests chunks within reach |
| Streaming.RecursiveOrderWithinReach | Assets/Scripts/World.cs:140-173 | BuildRecursiveWorld requests only chunks within Manhattan distance rad of its start, in layers 9..27 |
| Streaming.ChildrenNear | Assets/Scripts/World.cs:143-172 | the coroutines one starts have its radius minus one and are one step further from any point |
| Streaming.GenerationShape | Assets/Scripts/World.cs:140-173 | coroutines at recursion depth d have radius rad-d and lie within distance d of the first; no coroutine is deeper than rad |
| Voxel.CellIndexInverse | Assets/Scripts/Chunk.cs:138-140 | the draw-order position of cell (i, j, k) decodes back to i, j and k |
| Voxel.CellIndexInjective | Assets/Scripts/Chunk.cs:138-140 | distinct cells have distinct draw-order positions |
| Voxel.CellOf | Assets/Scripts/Chunk.cs:138-140 | every draw-order position belongs to one cell of the grid |
| Voxel.Adjacent | Assets/Scripts/Block.cs:560-576 | the neighbour across any face is one step away |
| Voxel.Block.constructor | Assets/Scripts/Block.cs:106-114 | a new block records its position and owner and is in the state SetType gives it from C# default fields |
| Voxel.Block.SetType | Assets/Scripts/Block.cs:120-143 | the new fields are those of BlockHealth.SetTypeState, with the water test taken on the six neighbours |
| Voxel.Block.Reset | Assets/Scripts/Block.cs:148-153 | the fields become ResetState of the old ones and the owning chunk is redrawn to its mesh |
| Voxel.Block.BuildBlock | Assets/Scripts/Block.cs:161-185 | the block takes the new kind as SetType does, the owning chunk is redrawn, and the result is true |
| Voxel.Block.HitBlock | Assets/Scripts/Block.cs:188-212 | the fields and the result follow BlockHealth.Hit; a heal is queued at this position when the hit schedules one; the chunk is redrawn unless the block ignored the hit |
| Voxel.Block.HasSolidNeighbour | Assets/Scripts/Block.cs:521-532 | true exactly when the neighbour exists and is solid or of the same kind |
| Voxel.Block.Face | Assets/Scripts/Block.cs:225-447 | the quad of a side is placed at this block and carries its side |
| Voxel.Block.FacesOfMembers | Assets/Scripts/Block.cs:560-576 | a side's face is emitted exactly when the side is tried and not culled, and only own faces are emitted |
| Voxel.Block.Draw | Assets/Scripts/Block.cs:560-576 | air draws nothing, and no block draws more than six faces |
| Voxel.Block.DrawnFaces | Assets/Scripts/Block.cs:560-576 | a block draws its face on a side exactly when it is not air and the neighbour on that side does not hide it |
| Voxel.Chunk.constructor | Assets/Scripts/Chunk.cs:358-371 | a new chunk at the given origin is fully built, every cell agrees with the terrain plan, its status is DRAW, and existing blocks were only greened |
| Voxel.Chunk.Save | Assets/Scripts/Chunk.cs:95-108 | the chunk's file receives a fresh BlockData copying every block kind; no other file changes |
| Voxel.Chunk.GetBlock | Assets/Scripts/Block.cs:494-519 | an index inside the chunk gives the grid cell; outside it gives the world lookup at origin plus index; a block found is a cell of this chunk or of a registered chunk |
| Voxel.Chunk.GetBlockType | Assets/Scripts/Block.cs:478-490 | a missing block reads as air; otherwise the kind of the block found |
| Voxel.Chunk.HasWaterNeighbour | Assets/Scripts/Block.cs:534-544 | true exactly when the block found exists and has held water |
| Voxel.Chunk.HasAnyWaterNeighbour | Assets/Scripts/Block.cs:546-556 | true exactly when the block across one of the six faces exists and has held water |
| Voxel.Chunk.CellFacesAt | Assets/Scripts/Chunk.cs:287-324 | the faces recorded for a cell's draw-order position are the faces that cell draws |
| Voxel.Chunk.MeshMembers | Assets/Scripts/Chunk.cs:287-324 | the chunk mesh holds exactly the faces its cells draw |
| Voxel.Chunk.DrawCells | Assets/Scripts/Chunk.cs:287-324 | the draw loop collects exactly the chunk's mesh, cell by cell in draw order |
| Voxel.Chunk.DrawChunk | Assets/Scripts/Chunk.cs:287-324 | the chunk's quads become its mesh and its status DONE |
| Voxel.Chunk.Place | Assets/Scripts/Chunk.cs:193 | a new block of the kind, owned here at this index, replaces one cell; sand next to water is grass; no other cell changes |
| Voxel.Chunk.SetSand | Assets/Scripts/Chunk.cs:217-219 | the cell gets a fresh block that is grass when a neighbour holds water and sand otherwise; no other cell changes |
| Voxel.Chunk.SetAir | Assets/Scripts/Chunk.cs:221-223 | the cell gets a fresh air block; no other cell changes |
| Voxel.Chunk.SetCactus | Assets/Scripts/Chunk.cs:225-244 | a cactus base at height 0; above it a cactus, unless a cactus base lies beside the column's surface cell, in which case sand, or grass exactly when the cell has a water neighbour once the block is placed; no other cell changes |
| Voxel.Chunk.TurnToSand | Assets/Scripts/Chunk.cs:231-242 | SetType(SAND) on a placed block: sand, or grass exactly when its cell has a water neighbour; no water test changes |
| Voxel.Chunk.SetWater | Assets/Scripts/Chunk.cs:246-267 | the cell gets a fresh water block; every sand block and cactus base among the six neighbours found before the placement turns to grass; other neighbours keep their state, and so does every block that is not one of the six |
| Voxel.Chunk.GreenBlocks | Assets/Scripts/Chunk.cs:250-266 | among the six blocks found, sand and cactus bases turn to grass, other kinds keep their state, and no other block changes |
| Voxel.Chunk.BedrockStep | Assets/Scripts/Chunk.cs:159-163 | the cell settles the first rule chain's plan (`Terrain.Settles`): empty where the chain writes nothing; no other cell changes |
| Voxel.Chunk.TerrainStep | Assets/Scripts/Chunk.cs:164-189 | the cell settles the second rule chain's plan after the first (`Terrain.Settles`); no other cell changes and other blocks are only greened |
| Voxel.Chunk.SignPostStep | Assets/Scripts/Chunk.cs:192-197 | a kind the third rule chain writes is placed exactly; otherwise the cell keeps settling the plan of the first two (`Terrain.Settles`) |
| Voxel.Chunk.SignSurroundStep | Assets/Scripts/Chunk.cs:199-211 | a kind the fourth rule chain writes is placed exactly; otherwise the cell keeps settling the plan of the first three (`Terrain.Settles`) |
| Voxel.Chunk.GroundSteps | Assets/Scripts/Chunk.cs:159-189 | starting from an empty cell, the first two rule chains leave a cell that settles their combined plan (`Terrain.Settles`) |
| Voxel.Chunk.SignSteps | Assets/Scripts/Chunk.cs:192-211 | the last two rule chains leave a cell that settles their combined plan (`Terrain.Settles`) |
| Voxel.Chunk.BuildCell | Assets/Scripts/Chunk.cs:142-211 | one loop iteration leaves a fresh block that settles the full plan for its position (`Terrain.Settles`); no other cell changes and other blocks are only greened |
| Voxel.Chunk.BuiltOneMore | Assets/Scripts/Chunk.cs:138-213 | building the next cell in draw order extends the settled prefix of the grid by one |
| Voxel.Chunk.BuildNext | Assets/Scripts/Chunk.cs:138-213 | the loop body extends the settled prefix by one cell, greening only |
| Voxel.Chunk.BuildChunk | Assets/Scripts/Chunk.cs:131-215 | afterwards every cell holds a fresh block agreeing with the plan, the status is DRAW, and blocks of registered chunks were only greened |
| Voxel.Chunk.Neighbours | Assets/Scripts/Chunk.cs:246-267 | the six neighbour lookups of setWater return cells of this chunk or of registered chunks |
| Voxel.PositionsAdd | Assets/Scripts/World.cs:103-119 | registering a chunk under a new name adds exactly its coordinates to the registered positions |
| Voxel.GrowsByNew | Assets/Scripts/World.cs:103-119 | adding a chunk at the requested coordinates grows the registry by that request |
| Voxel.GrowsByPresent | Assets/Scripts/World.cs:103-119 | a request for registered coordinates leaves the registry as it is |
| Voxel.GrowsTransitive | Assets/Scripts/World.cs:121-173 | two batches of requests grow the registry by their concatenation |
| Voxel.World.constructor | Assets/Scripts/World.cs:22-23 | a new world has an empty registry, removal list, file store and request log |
| Voxel.World.GetWorldBlock | Assets/Scripts/World.cs:63-95 | no block when the chunk named by the floored origin is not registered; a block found belongs to a registered chunk |
| Voxel.World.WorldBlockOwner | Assets/Scripts/World.cs:63-95 | a block found at a world position is owned by a registered built chunk, at exactly that position |
| Voxel.World.FindsRegistered | Assets/Scripts/World.cs:63-95 | every cell of every registered chunk is found by GetWorldBlock at its world position |
| Voxel.World.RegisteredChunk | Assets/Scripts/World.cs:103-119 | a registered chunk lies on the lattice, has a full grid, and is stored under the name of its origin |
| Voxel.World.PositionRegistered | Assets/Scripts/World.cs:103-119 | coordinates hold a chunk exactly when their name is registered |
| Voxel.World.BuildChunkAt | Assets/Scripts/World.cs:103-119 | the request is logged; a missing chunk is built at coordinates·8 in state DRAW and registered; a registered one leaves the registry unchanged; the registry invariant holds |
| Voxel.World.Register | Assets/Scripts/World.cs:111-118 | the insertion branch adds exactly one fresh chunk, under its name, keeping the registry invariant |
| Voxel.World.BuildRow | Assets/Scripts/World.cs:123-127 | the innermost loop logs and registers exactly its row of requests |
| Voxel.World.BuildLayer | Assets/Scripts/World.cs:122-128 | the middle loop logs and registers exactly its layer of requests |
| Voxel.World.BuildWorld | Assets/Scripts/World.cs:121-130 | the requests are BuildWorldOrder; afterwards every chunk of layers 12..21 within r of (x, z) is registered |
| Voxel.World.ExpandTask | Assets/Scripts/World.cs:140-173 | one coroutine run logs and registers its six neighbours, or nothing when out of bounds, and starts exactly its children |
| Voxel.World.BuildNeighbour | Assets/Scripts/World.cs:145-171 | each of the six calls extends the logged and registered requests by one neighbour |
| Voxel.World.BuildRecursiveWorld | Assets/Scripts/World.cs:140-173 | running all coroutines logs RecursiveOrder; every newly registered chunk lies within Manhattan distance rad, in layers 9..27 |
| Voxel.World.RunFirst | Assets/Scripts/World.cs:140-173 | one turn of the coroutine queue keeps the requests made plus the remaining ones equal to the full order, and lightens the queue |
| Voxel.World.DrawChunks | Assets/Scripts/World.cs:179-194 | every chunk ends DONE (those already DONE keep their mesh); toRemove lists exactly the chunks out of range, each once |
| Voxel.World.DrawEntries | Assets/Scripts/World.cs:181-193 | the dictionary loop leaves every chunk DONE (those already DONE keep their quads) and collects exactly the out-of-range names, without repeats |
| Voxel.World.DrawEntry | Assets/Scripts/World.cs:184-190 | one entry ends DONE (its quads kept if it was already DONE), and its name is appended exactly when it is out of range |
| Voxel.World.DistinctChunks | Assets/Scripts/World.cs:103-119 | distinct names are registered to distinct chunks |
| Voxel.World.RemoveOldChunks | Assets/Scripts/World.cs:200-214 | the listed chunks are unregistered, their save files are written, other files are unchanged, and the registry invariant holds |
| Voxel.World.RemoveEntries | Assets/Scripts/World.cs:202-213 | the removal loop unregisters exactly the listed names and writes exactly the files of the listed registered chunks |
| Voxel.World.RemoveNext | Assets/Scripts/World.cs:204-212 | one iteration extends the removed names and written files by the next listed name |
| Voxel.World.RemoveEntry | Assets/Scripts/World.cs:204-212 | a registered name is unregistered and its chunk's file receives a copy of its kinds; an unregistered name changes nothing |
| Voxel.World.DistinctFiles | Assets/Scripts/Chunk.cs:62-71 | distinct registered chunks have distinct save files |
| Voxel.World.RemovedValid | Assets/Scripts/World.cs:200-214 | unregistering chunks keeps the registry invariant |
| Voxel.BlockData.constructor | Assets/Scripts/Chunk.cs:23-32 | the matrix is a fresh 8×8×8 copy of every block kind of the grid |

## Left out

- `Utils.GenerateHeightMountains` and `Utils.fBM3D` are not part of this model. The `Terrain` value stands in for the noise:
  - surface height;
  - the two cactus tests;
  - the water level;
  - the sign column.
- Coroutines and `CoroutineQueue`: the model runs them one at a time.
  - `BuildRecursiveWorld` is a first-in, first-out worklist of pending coroutines. The `yield return null` interleaving with other coroutines and `maxCoroutines` are not modelled.
  - The six neighbour calls of a coroutine are written as a loop over the six neighbours.
  - The `startrad` parameter is unused in the source and also unused here.
- Floating point: positions are integral.
  - `Vector3.Distance(...) > radius * chunkSize` in `DrawChunks` is compared as squared integer distances.
  - `Vector2.Distance(...) < 3` around the sign is compared the same way.
  - `worldY < startHeightMountains - 2.9` is the integer threshold `waterLevel`.
  - The `(int)` truncations of positions are the identity.
- Unity objects:
  - GameObjects, meshes, materials, `transform` parents and `Destroy(c.chunk)` are not modelled. A chunk's `c.Value.chunk` is always present.
  - A drawn mesh is the sequence of faces (`Quad`) its blocks emit. UV coordinates are the atlas row numbers.
  - `CombineQuads` and the component teardown in `Redraw` are not modelled.
- The heal coroutine a first hit starts (`HealBlock` on the chunk's MonoBehaviour) is recorded as the position appended to `Chunk.pendingHeals`. The later `Reset` it performs is `Block.Reset`.
- Files and serialization:
  - The `BinaryFormatter` file store is the map `World.files` from file name to `BlockData`.
  - `Chunk.Load` is left out: it is disabled in `BuildChunk`.
  - `Directory.CreateDirectory` and the file handles are not modelled.
- The level set-up and the player loop (`World.cs:219-333`) are not part of this model:
  - `BuildNearPlayer`, `createPosition`, the seeds, `setSignPos`, `Start`, `Update`;
  - the `Mumie` objects;
  - `Debug.Log` output.

  `signPos` and the data path are parameters of the `World` constructor.
- The `ConcurrentDictionary` is a `map`; the model has no concurrent access.
  - `DrawChunks` visits the names in an unspecified order.
  - `RemoveOldChunks` follows the order of `toRemove`.
- Voxel.World.DrawChunks: does not restate which faces are drawn. That is stated for each chunk by `Voxel.Chunk.DrawChunk`.
- Voxel.World.DrawEntries: does not state that a chunk in DRAW gets its mesh as quads. That is stated for one chunk by `Voxel.Chunk.DrawChunk`, which `DrawEntry` calls.
- Voxel.World.DrawEntry: the same weakening as `DrawEntries`; a chunk in DRAW is drawn by `Voxel.Chunk.DrawChunk`, whose contract states the new quads.
- Voxel.World.RemoveOldChunks: states which files are written, but not that each written file copies its chunk's block kinds. That is stated for one chunk by `Voxel.World.RemoveEntry` and `Voxel.Chunk.Save`.
- Voxel.World.RemoveEntries: same weakening as `RemoveOldChunks`; it does not state the file contents.
- Voxel.Chunk.BuildChunk: states that every cell agrees with the plan up to `Terrain.Settles`, not which planned sand, cactus base or cactus actually became grass (or which cactus became sand). That depends on the order the cells are built in and on the water of the registered neighbour chunks at that time, and the contract does not state it. Each single step is exact (`SetSand`, `SetCactus`, `SetWater`).
- Voxel.Chunk.constructor: the same weakening as `BuildChunk`, which it runs.
- Voxel.Chunk.BedrockStep: states the cell only up to `Terrain.Settles`: surface sand may be grass, and the contract does not say when. `Voxel.Chunk.SetSand`, which it calls, states the exact outcome.
- Voxel.Chunk.TerrainStep: states the cell only up to `Terrain.Settles`: planned sand, cactus base or cactus may be grass, and a cactus may be sand, with no condition stated. The single placements `SetSand`, `SetCactus` and `SetWater` state the exact outcome.
- Voxel.Chunk.GroundSteps: the same weakening as `BedrockStep` and `TerrainStep`, which it runs.
- Voxel.Chunk.BuildCell: the same weakening as `GroundSteps`; the sign steps it runs place their kinds exactly.
- Voxel.World.BuildChunkAt: states the new chunk's origin and status, but not its contents. That every cell of a new chunk agrees with the terrain plan is stated by `Voxel.Chunk.constructor`.
- BlockTypes.Ordinal: the builder places `CACTUSBASE`, which the enum in `Block.cs` does not declare. It is appended as value 20 with the cactus health 3 and the default texture row 22.
- The builder's side effects are modelled as written, including five oddities:
  - bedrock at height 100 is always overwritten by the second rule chain;
  - `isWater` is never cleared once set;
  - `setCactus(…, 0)` does not test for water that an earlier cell already placed;
  - a hit on destroyed remains (health 0 to -1) schedules a second heal, because air's maximum health is 0;
  - water has health 10, so its 6th to 10th hits select overlay rows 13..17, which hold no crack textures.
