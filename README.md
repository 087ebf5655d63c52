# Voxel engine core, modelled in Dafny

This project models the data core of a Python voxel engine. The world is a
fixed grid of 30 x 3 x 30 chunks of 32^3 voxels. Each voxel is a `uint8` block id: 0 is void
and 16 is water.

The model covers:

- **Terrain generation.** `terrain_gen.py` and the chunk's `generate_terrain`.
  The model covers the block-band choice, caves, ores and tree placement.
- **The world.** `world.py` creates the chunks and points each chunk's voxel
  array at a row of the world's 2-D voxel array. It builds every mesh and looks
  voxels up.
- **The chunk mesher.** `chunk_mesh_builder.py` provides the packed vertex word,
  face culling, ambient occlusion and the x, y, z loops. Those loops fill one
  buffer for opaque faces and one for water faces.
- **The voxel handler.** `voxel_handler.py` covers the 3-D DDA ray traversal,
  block placement and removal, and the neighbour-chunk rebuilds.
- **Smaller pieces.** The marker cube's vertex tables (`cube_mesh.py`), the game-mode
  manager (`game_mode.py`) and the player's block selection and mouse
  dispatch (`player.py`).

One Dafny module per source file:

| module | file | what it holds |
|---|---|---|
| `Settings`, `BlockType` | settings.dfy, block_type.dfy | constants, vectors, block ids |
| `TerrainGen` | terrain_gen.dfy | `get_index`, `set_voxel_id`, `place_tree` |
| `Chunks` | chunk.dfy | class `Chunk`: `build_voxels`, `generate_terrain`, `build_mesh` |
| `ChunkMeshBuilder` | chunk_mesh_builder.dfy | the mesher's pure helpers |
| `MeshStreams` | mesh_streams.dfy | the word streams the mesher emits, as functions |
| `MeshCapacity` | mesh_capacity.dfy | why no stream outgrows its buffer |
| `MeshBuffers` | mesh_buffers.dfy | the mesher's loops over arrays |
| `WorldStore` | world.dfy | class `World` |
| `VoxelHandling` | voxel_handler.dfy | class `VoxelHandler` |
| `CubeMeshes` | cube_mesh.dfy | `get_data` and the cube tables |
| `GameModes` | game_mode.dfy | class `GameModeManager` |
| `Players` | player.dfy | class `Player` |

Code that mutates state is modelled with classes and arrays:

- A world row and its chunk's `voxels` are the same `array<Byte>`.
- The chunk list is a `seq<Chunk>` field.
- The loops are `while`/`for` loops. Each is proved against a function of the
  old state: `TerrainState`, `FullStream`, `WriteVoxel`, `AfterAdd`.

Pure code becomes functions and lemmas.

## Model

| member | source | states |
|---|---|---|
| TerrainGen.GetIndex | app/world_utils/terrain_gen.py:48-54 | the flat index of an in-chunk cell lies in [0, CHUNK_VOL) |
| TerrainGen.LocalPos | app/world_utils/terrain_gen.py:48-54 | every flat index decodes to an in-chunk cell whose index is that flat index |
| TerrainGen.LocalPosOfIndex | app/world_utils/terrain_gen.py:48-54 | decoding the index of a cell gives the cell back |
| TerrainGen.GetIndexInjective | app/world_utils/terrain_gen.py:48-54 | distinct in-chunk cells have distinct indices |
| TerrainGen.Scaled | app/world_utils/terrain_gen.py:88 | `int(k * random.random())` lies in [0, k) |
| TerrainGen.ChooseBlockUnderground | app/world_utils/terrain_gen.py:66-85 | below the column top the id is void, coal, tin, copper or stone. It is void exactly in caves. Coal occurs only within 24 of the top, tin and copper only 11 to 19 below it |
| TerrainGen.ChooseBlockSurface | app/world_utils/terrain_gen.py:87-103 | at and above the column top the id is snow, stone, dirt, grass or sand. High voxels are always snow and voxels below GRASS_LVL always sand. Snow and grass appear only inside their bands shifted by the 0..6 draw |
| TerrainGen.Put | app/world_utils/terrain_gen.py:106 | a write keeps the chunk's length |
| TerrainGen.PutAt | app/world_utils/terrain_gen.py:106 | after a write the written cell holds the id and every other cell is unchanged |
| TerrainGen.LeafCellInChunk | app/world_utils/terrain_gen.py:121-139 | with the position guards passed, every leaf cell lies inside the chunk, so no write leaves it |
| TerrainGen.RowAt | app/world_utils/terrain_gen.py:137-139 | after the `iz` loop a cell is a leaf iff it is on the row's pattern, where `(ix + iz) % 4 != 0`; other cells are unchanged |
| TerrainGen.LayerAt | app/world_utils/terrain_gen.py:136-139 | after the `ix` loop a cell is a leaf iff it lies in the layer's shrinking, shifted rectangle and on the pattern |
| TerrainGen.CrownAt | app/world_utils/terrain_gen.py:133-140 | after the crown loop a cell is a leaf iff one of the three layers covers it |
| TerrainGen.TrunkAt | app/world_utils/terrain_gen.py:143-144 | the trunk loop writes wood at heights 1 to TREE_HEIGHT - 3 above the base and nothing else |
| TerrainGen.TreeShape | app/world_utils/terrain_gen.py:128-147 | a planted tree, cell by cell: top leaf, then trunk, which overwrites the crown, then crown leaves, then dirt at the base; every other cell is unchanged |
| TerrainGen.RowNext | app/world_utils/terrain_gen.py:137-139 | one more `iz` step adds a leaf exactly when `(ix + iz) % 4 != 0` |
| TerrainGen.LeafDraws | app/world_utils/terrain_gen.py:135 | the three layer draws `int(random.random() * 2)` are 0 or 1 |
| TerrainGen.PlaceLeafRow | app/world_utils/terrain_gen.py:137-139 | the `iz` loop over the array leaves it equal to RowState |
| TerrainGen.PlaceCrownLayer | app/world_utils/terrain_gen.py:136-139 | the `ix` loop over the array leaves it equal to LayerState |
| TerrainGen.PlaceCrown | app/world_utils/terrain_gen.py:132-140 | the layer loop with its counter `m` leaves the array equal to CrownState |
| TerrainGen.PlaceTrunk | app/world_utils/terrain_gen.py:143-144 | the trunk loop leaves the array equal to TrunkState |
| TerrainGen.PlantTree | app/world_utils/terrain_gen.py:128-147 | the writes after the guards: dirt, crown, trunk, top |
| TerrainGen.PlaceTree | app/world_utils/terrain_gen.py:112-147 | `place_tree` leaves the array equal to TreeEffect. The array is unchanged unless the tree is planted on grass, within the probability and inside the guards |
| TerrainGen.SetVoxelIdAt | app/world_utils/terrain_gen.py:57-110 | with no tree, `set_voxel_id` writes exactly the chosen id at its cell; with a tree, the cell ends up as TreeShape says |
| TerrainGen.TreeOnlyOnSurface | app/world_utils/terrain_gen.py:64-110 | trees grow only at or above the column top, in the grass band below DIRT_LVL, and only when the position guards pass |
| TerrainGen.SetVoxelId | app/world_utils/terrain_gen.py:57-110 | the array afterwards is SetVoxelIdEffect of the array before |
| Chunks.EmptyColumnsUnchanged | app/meshes/chunks/chunk.py:113-123 | columns above the terrain write nothing |
| Chunks.AboveTerrainUnchanged | app/meshes/chunks/chunk.py:113-123 | a chunk whose every column lies above the terrain is left as it was |
| Chunks.FillColumn | app/meshes/chunks/chunk.py:117-123 | the `y` loop runs `set_voxel_id` on the rows below `min(height - cy, CHUNK_SIZE)` and leaves the array equal to ColumnState |
| Chunks.FillSlice | app/meshes/chunks/chunk.py:114-123 | the `z` loop leaves the array equal to SliceState |
| Chunks.GenerateTerrain | app/meshes/chunks/chunk.py:100-123 | the array afterwards is TerrainState of the array before |
| Chunks.ColumnEnd | app/meshes/chunks/chunk.py:118-120 | the row loop stops at the local height, or at once when the height is not positive |
| Chunks.Chunk.constructor | app/meshes/chunks/chunk.py:21-38 | a new chunk has its position, no voxels, no mesh, and `is_empty` set |
| Chunks.Chunk.CenterIsMidpoint | app/meshes/chunks/chunk.py:37-48 | the centre lies half a chunk past the model translation on each axis |
| Chunks.Chunk.BuildVoxels | app/meshes/chunks/chunk.py:78-98 | a fresh array equal to the terrain generated over zeros. `is_empty` is cleared iff some voxel is non-zero |
| Chunks.Chunk.BuildMesh | app/meshes/chunks/chunk.py:56-60 | the chunk's mesh becomes the mesher's output for its voxels in the current world; voxels and `is_empty` are kept |
| Chunks.AboveTerrainIsEmpty | app/meshes/chunks/chunk.py:95-96 | a chunk above the terrain in every column builds as empty |
| ChunkMeshBuilder.PackData | app/meshes/chunks/chunk_mesh_builder.py:72-106 | the packed vertex fits in 32 bits |
| ChunkMeshBuilder.UnpackPackData | app/meshes/chunks/chunk_mesh_builder.py:84-104 | shifting and masking the packed word recovers all seven fields |
| ChunkMeshBuilder.LocalCoord | app/meshes/chunks/chunk_mesh_builder.py:149-150 | the position modulo CHUNK_SIZE is an in-chunk cell |
| ChunkMeshBuilder.ChunkSlot | app/meshes/chunks/chunk_mesh_builder.py:126 | an in-world chunk's slot lies in [0, WORLD_VOL) |
| ChunkMeshBuilder.ChunkAt | app/meshes/chunks/chunk_mesh_builder.py:126 | every slot belongs to an in-world chunk whose slot it is |
| ChunkMeshBuilder.ChunkSlotBijection | app/meshes/chunks/chunk_mesh_builder.py:126 | the slot formula is a bijection from in-world chunks onto [0, WORLD_VOL) |
| ChunkMeshBuilder.GetChunkIndex | app/meshes/chunks/chunk_mesh_builder.py:108-127 | the result is -1 or a valid slot |
| ChunkMeshBuilder.GetChunkIndexSpec | app/meshes/chunks/chunk_mesh_builder.py:119-127 | -1 exactly when the floor-divided chunk is outside the world; otherwise the slot of that chunk |
| ChunkMeshBuilder.GetChunkIndexInjective | app/meshes/chunks/chunk_mesh_builder.py:119-127 | positions in different chunks get different indices |
| ChunkMeshBuilder.GetVoxelIdAtSpec | app/meshes/chunks/chunk_mesh_builder.py:130-152 | the lookup is void outside the world and reads the stored voxel when the local and world positions agree |
| ChunkMeshBuilder.IsVoidSpec | app/meshes/chunks/chunk_mesh_builder.py:154-174 | outside the world counts as void; inside, void iff the stored id is 0, so water is not void |
| ChunkMeshBuilder.ShouldRenderFace | app/meshes/chunks/chunk_mesh_builder.py:176-203 | no face between equal ids; a face toward void and any face touching water; none between two different solids |
| ChunkMeshBuilder.ShouldRenderFaceAsymmetry | app/meshes/chunks/chunk_mesh_builder.py:176-203 | the rule is asymmetric exactly between a non-water block and void |
| ChunkMeshBuilder.Samples | app/meshes/chunks/chunk_mesh_builder.py:23-52 | eight samples around the face, each 0 or 1 |
| ChunkMeshBuilder.SamplesAt | app/meshes/chunks/chunk_mesh_builder.py:23-52 | the sample list holds sample k at position k |
| ChunkMeshBuilder.AmbientOcclusion | app/meshes/chunks/chunk_mesh_builder.py:5-55 | each corner's occlusion lies in [0, 3] |
| ChunkMeshBuilder.AmbientOcclusionPlaneX | app/meshes/chunks/chunk_mesh_builder.py:38-54 | in plane X, `a` repeats `h`: corner 0 counts h and corner 1 counts h twice |
| MeshStreams.Corner | app/meshes/chunks/chunk_mesh_builder.py:284-403 | every face vertex lies on the voxel's unit cube |
| MeshStreams.TriangleOrder | app/meshes/chunks/chunk_mesh_builder.py:289-414 | six vertex references, each one of v0..v3 |
| MeshStreams.TriangulationFollowsFlip | app/meshes/chunks/chunk_mesh_builder.py:289-414 | each face is two proper triangles covering all four corners, sharing the diagonal the flip flag selects |
| MeshStreams.Cell | app/meshes/chunks/chunk_mesh_builder.py:261-263 | loop position p is an in-chunk cell in x, y, z order |
| MeshStreams.FaceQuad | app/meshes/chunks/chunk_mesh_builder.py:274-414 | a drawn face is six words |
| MeshStreams.FaceWords | app/meshes/chunks/chunk_mesh_builder.py:274-414 | a face contributes six words to a stream iff it is drawn into that stream |
| MeshStreams.StreamStep | app/meshes/chunks/chunk_mesh_builder.py:261-414 | each loop position appends its voxel's words to the stream |
| MeshStreams.VoidStep | app/meshes/chunks/chunk_mesh_builder.py:265-266 | a void voxel leaves both streams as they were |
| MeshStreams.FaceVertexFields | app/meshes/chunks/chunk_mesh_builder.py:284-287 | a packed vertex carries its corner's position, the voxel id, the face id, the corner's occlusion and the flip flag |
| MeshStreams.FaceQuadFields | app/meshes/chunks/chunk_mesh_builder.py:274-414 | every word of a drawn face carries the face id, the voxel id and a corner of the face |
| MeshStreams.VoidCellEmitsNothing | app/meshes/chunks/chunk_mesh_builder.py:265-266 | a void voxel contributes no words |
| MeshStreams.StreamRouting | app/meshes/chunks/chunk_mesh_builder.py:289-298 | water words come only from water voxels and opaque words only from other voxels |
| MeshStreams.EmptyChunkEmptyStreams | app/meshes/chunks/chunk_mesh_builder.py:261-266 | an all-void chunk emits two empty streams |
| MeshStreams.StreamPrefix | app/meshes/chunks/chunk_mesh_builder.py:258-414 | the mesher only appends: an earlier stream is a prefix of a later one |
| MeshCapacity.CellWordsLength | app/meshes/chunks/chunk_mesh_builder.py:274-414 | a voxel contributes six words per drawn face |
| MeshCapacity.StreamLength | app/meshes/chunks/chunk_mesh_builder.py:258-414 | the stream has six words per drawn face so far |
| MeshCapacity.CellStep | app/meshes/chunks/chunk_mesh_builder.py:261-264 | the neighbour along an axis sits a fixed stride later in loop order |
| MeshCapacity.StoredVoxelInChunk | app/meshes/chunks/chunk_mesh_builder.py:144-152 | inside a chunk stored in its own slot, the world lookup reads the chunk's own cell |
| MeshCapacity.NeighbourInChunk | app/meshes/chunks/chunk_mesh_builder.py:274-414 | a neighbour lookup inside the chunk reads the chunk's own voxel array |
| MeshCapacity.EmitCrossesClass | app/meshes/chunks/chunk_mesh_builder.py:176-203 | a drawn face goes from a voxel of the stream's class to one outside it |
| MeshCapacity.PairBound | app/meshes/chunks/chunk_mesh_builder.py:176-203 | two neighbours draw at most two of their four faces on one axis |
| MeshCapacity.AxisPair | app/meshes/chunks/chunk_mesh_builder.py:274-414 | a pair of neighbouring voxels draws at most two faces along their axis |
| MeshCapacity.AxisBound | app/meshes/chunks/chunk_mesh_builder.py:274-414 | per axis a stream draws at most CHUNK_VOL faces |
| MeshCapacity.StreamCapacity | app/meshes/chunks/chunk_mesh_builder.py:256-257 | each stream of a chunk stored in its own slot has at most CHUNK_VOL * 18 words: the buffers never overflow |
| MeshCapacity.CellFits | app/meshes/chunks/chunk_mesh_builder.py:256-414 | after every voxel the stream still fits in the buffer |
| MeshBuffers.AddData | app/meshes/chunks/chunk_mesh_builder.py:214-231 | the vertices are copied from `index` on, the words before and after are kept, and the next free index is returned |
| MeshBuffers.EmitFace | app/meshes/chunks/chunk_mesh_builder.py:274-298 | one face block appends exactly that face's words to the stream it belongs to |
| MeshBuffers.EmitVoxel | app/meshes/chunks/chunk_mesh_builder.py:274-414 | the six face blocks append exactly the voxel's words to both streams |
| MeshBuffers.LoopCell | app/meshes/chunks/chunk_mesh_builder.py:261-264 | the loop counters visit loop position p and read the voxel there |
| MeshBuffers.TableStream | app/meshes/chunks/chunk_mesh_builder.py:261-414 | the words of the first n positions concatenate to the stream after n positions |
| MeshBuffers.VisitCell | app/meshes/chunks/chunk_mesh_builder.py:264-414 | one pass of the inner loop body extends the filled prefix by that position's words |
| MeshBuffers.FillRow | app/meshes/chunks/chunk_mesh_builder.py:263-414 | the `z` loop extends both filled prefixes by the words of its 32 positions |
| MeshBuffers.FillLayer | app/meshes/chunks/chunk_mesh_builder.py:262-414 | the `y` loop extends both filled prefixes by the words of its 1024 positions |
| MeshBuffers.FillBuffers | app/meshes/chunks/chunk_mesh_builder.py:258-414 | after the loops each buffer's filled prefix is exactly its full stream, within bounds |
| MeshBuffers.SliceAsWritten | app/meshes/chunks/chunk_mesh_builder.py:416 | the slice starts with the stream and holds at most one word past it, always one when there is room |
| MeshBuffers.BuildChunkMesh | app/meshes/chunks/chunk_mesh_builder.py:234-416 | as written: each result is its stream followed by the word after it |
| MeshBuffers.BuildChunkMeshExact | app/meshes/chunks/chunk_mesh_builder.py:234-416 | corrected: each result is exactly its stream |
| MeshBuffers.AllocateBuffers | app/meshes/chunks/chunk_mesh_builder.py:256-257 | two distinct fresh buffers of CHUNK_VOL * 18 * format_size words |
| MeshBuffers.EmptyChunkExtraWord | app/meshes/chunks/chunk_mesh_builder.py:416 | for an all-void chunk the streams are empty, yet each as-written mesh holds one word |
| WorldStore.Generated | app/meshes/chunks/chunk.py:78-98 | the generated voxels of a chunk number CHUNK_VOL |
| WorldStore.WriteVoxel | app/graphics/voxel_handler.py:47 | writing one cell keeps the world's shape |
| WorldStore.ReadAfterWrite | app/graphics/voxel_handler.py:47 | after a write the cell reads the new id and every other position reads as before |
| WorldStore.World.constructor | app/world_utils/world.py:16-28 | every slot holds the chunk at its coordinate, whose voxels are the generated terrain. It is empty iff that terrain is all void, and carries the mesh of the world's voxels |
| WorldStore.World.BuildChunks | app/world_utils/world.py:31-48 | every slot is filled once: the chunk at its coordinate, its voxels the slot's row holding the generated terrain |
| WorldStore.World.BuildSlice | app/world_utils/world.py:37-48 | the `y` loop fills the slots of one `x` |
| WorldStore.World.BuildColumn | app/world_utils/world.py:38-48 | the `z` loop fills the slots of one `x, y` |
| WorldStore.World.BuildChunk | app/world_utils/world.py:39-48 | one iteration fills exactly its own slot with a fresh chunk and row |
| WorldStore.World.ChunksDistinct | app/world_utils/world.py:36-42 | distinct slots hold distinct chunks |
| WorldStore.World.BuildChunkMesh | app/world_utils/world.py:50-55 | every chunk carries the mesh of the current voxels; voxels and `is_empty` are kept |
| WorldStore.World.RebuildMesh | app/meshes/chunks/chunk_mesh.py:42-47 | rebuilding one chunk gives it the mesh of the current voxels and changes nothing else |
| WorldStore.World.WriteThrough | app/graphics/voxel_handler.py:47 | a write through a chunk's `voxels` is a write to the world's row: the world becomes WriteVoxel of the old one |
| WorldStore.World.GetVoxelId | app/world_utils/world.py:77-94 | void outside the world; otherwise the stored voxel at the position |
| WorldStore.World.LookupAgreesWithMesher | app/world_utils/world.py:77-94 | the world's lookup equals the mesher's `get_voxel_id_at` whenever the local and world positions agree |
| WorldStore.World.SolidWaterClassification | app/world_utils/world.py:96-123 | solid and water exclude each other; positions outside the world are neither; water iff id 16; solid iff neither 0 nor 16 |
| VoxelHandling.ChooseAxis | app/graphics/voxel_handler.py:166-183 | the nested comparisons pick an axis with the least parametric distance; x only when strictly least, y when not above x and below z |
| VoxelHandling.Step | app/graphics/voxel_handler.py:166-183 | one step moves exactly the chosen coordinate by its sign |
| VoxelHandling.NormalPointsBack | app/graphics/voxel_handler.py:158-163 | after a step, hit plus normal is the cell the ray came from |
| VoxelHandling.StepsLeftAdvance | app/graphics/voxel_handler.py:166-183 | a step taken inside the segment uses up one of that axis's steps |
| VoxelHandling.ChosenStepDecreases | app/graphics/voxel_handler.py:150-183 | each step shrinks the termination measure, so the loop ends |
| VoxelHandling.StepRay | app/graphics/voxel_handler.py:166-183 | the nested ifs step along ChooseAxis and advance that axis's distance |
| VoxelHandling.ExtendTrace | app/graphics/voxel_handler.py:150-183 | a step from a void cell inside the segment extends the traversal's trace |
| VoxelHandling.AdjacentTargetsExact | app/graphics/voxel_handler.py:67-88 | a face neighbour of the voxel is rebuilt iff it lies in another chunk |
| VoxelHandling.AdjacentSlotsOfTargets | app/graphics/voxel_handler.py:58-88 | the slots rebuilt are exactly the in-world slots of the visited neighbours |
| VoxelHandling.AfterAdd | app/graphics/voxel_handler.py:36-56 | placement keeps the world's shape |
| VoxelHandling.AfterRemove | app/graphics/voxel_handler.py:95-97 | removal keeps the world's shape |
| VoxelHandling.AddReads | app/graphics/voxel_handler.py:36-56 | a placement fills only the faced cell, and only when it is in the world and empty, so it never overwrites a voxel |
| VoxelHandling.RemoveReads | app/graphics/voxel_handler.py:95-97 | a removal clears the hit cell and nothing else |
| VoxelHandling.AddIdempotent | app/graphics/voxel_handler.py:36-56 | placing the same non-void id twice is placing it once |
| VoxelHandling.RemoveThenPlaceRestores | app/graphics/voxel_handler.py:36-97 | removing a voxel and placing its id back into the same cell restores the world |
| VoxelHandling.VoxelHandler.constructor | app/graphics/voxel_handler.py:11-34 | no hit, no chunk, remove mode, default id 1 |
| VoxelHandling.VoxelHandler.GetVoxelId | app/graphics/voxel_handler.py:254-278 | `(0, 0, 0, 0)` outside the world. Inside: the chunk in the position's slot, the local position, its flat index and the voxel there, which is the world's own lookup |
| VoxelHandling.VoxelHandler.RecordHit | app/graphics/voxel_handler.py:154-164 | a hit records the lookup at the current cell and the normal against the last step |
| VoxelHandling.VoxelHandler.ClearHit | app/graphics/voxel_handler.py:134-135 | no hit: id 0 and a zero normal; the cell, chunk, index and local position stay as they were |
| VoxelHandling.VoxelHandler.Traverse | app/graphics/voxel_handler.py:150-184 | the loop follows the DDA trace through void cells. It stops at the first non-void cell inside the segment, or when all three distances exceed 1 |
| VoxelHandling.VoxelHandler.Raycast | app/graphics/voxel_handler.py:123-184 | returns true iff a voxel was hit. The hit is the first non-void cell along the trace and every earlier cell is void. The normal points back along the last step; with no hit the id is 0 and the normal zero |
| VoxelHandling.VoxelHandler.GetVoxelByRaycast | app/graphics/voxel_handler.py:186-252 | the same DDA traversal through void cells, leaving the same hit record as `raycast`. It returns the lookup of the first non-void cell along the trace, whose position and normal it records. Otherwise it returns None, with all three distances past the segment and a zero normal |
| VoxelHandling.VoxelHandler.SwitchMode | app/graphics/voxel_handler.py:104-113 | remove and place modes swap and the hit record is kept |
| VoxelHandling.VoxelHandler.AddVoxel | app/graphics/voxel_handler.py:36-56 | corrected placement: the world becomes AfterAdd. The target chunk is re-meshed and non-empty; every other chunk and the handler are unchanged |
| VoxelHandling.VoxelHandler.RemoveVoxel | app/graphics/voxel_handler.py:95-99 | removal clears the hit cell and re-meshes its chunk and the chunks across its faces; other chunks and every `is_empty` flag are unchanged |
| VoxelHandling.VoxelHandler.SetVoxel | app/graphics/voxel_handler.py:90-99 | place mode places: the target chunk is re-meshed and non-empty, and the others are unchanged. Remove mode with a hit removes: the hit chunk and the chunks across its faces are re-meshed, the others are unchanged, and every `is_empty` is kept. Remove mode with no hit changes nothing |
| VoxelHandling.VoxelHandler.TopFacePlacement | app/graphics/voxel_handler.py:41-47 | a hit on the top layer seen from above faces a cell outside the world. The as-written branch writes into a missing chunk; the corrected placement writes nothing |
| VoxelHandling.VoxelHandler.MarkNonEmpty | app/graphics/voxel_handler.py:55-56 | the chunk's `is_empty` is cleared and its mesh kept |
| VoxelHandling.VoxelHandler.RebuildAdjChunk | app/graphics/voxel_handler.py:58-65 | the chunk holding the position, if in the world, is re-meshed; every other chunk is unchanged |
| VoxelHandling.VoxelHandler.RebuildAdjacentChunks | app/graphics/voxel_handler.py:67-88 | exactly the chunks across the faces the voxel lies on are re-meshed; the rest are unchanged |
| VoxelHandling.VoxelHandler.RebuildAxis | app/graphics/voxel_handler.py:74-88 | one axis: the neighbour across the lower face at local 0 and the upper face at CHUNK_SIZE - 1 |
| CubeMeshes.GetData | app/meshes/cube_mesh.py:37-51 | three entries per triangle; triangle t's corners at positions 3t to 3t + 2, in order |
| CubeMeshes.GetDataAppend | app/meshes/cube_mesh.py:50 | expanding two triangle lists in sequence gives the two expansions in sequence |
| CubeMeshes.TablesInRange | app/meshes/cube_mesh.py:61-83 | every position index is in [0, 8), every texture index in [0, 4), and both lists have 12 triangles |
| CubeMeshes.UnitTables | app/meshes/cube_mesh.py:61-75 | the corner tables hold 3- and 2-entry rows of zeros and ones |
| CubeMeshes.PositionData | app/meshes/cube_mesh.py:61-73 | 36 rows, each a corner of the cube |
| CubeMeshes.TexCoordData | app/meshes/cube_mesh.py:75-84 | 36 rows, each a corner of the texture square |
| CubeMeshes.VertexData | app/meshes/cube_mesh.py:53-86 | 36 rows; row i is texture coordinate i followed by position i |
| CubeMeshes.UnitCube | app/meshes/cube_mesh.py:53-86 | every entry of the vertex data is 0 or 1 |
| GameModes.Other | app/game_mode.py:56-59 | the other mode differs |
| GameModes.OtherTwice | app/game_mode.py:56-59 | the other mode of the other mode is the mode itself |
| GameModes.GameModeManager.constructor | app/game_mode.py:29-37 | starts in the given mode, DEBUG by default |
| GameModes.GameModeManager.SwitchMode | app/game_mode.py:39-50 | reports a change iff the new mode differs; the mode is the new one afterwards |
| GameModes.GameModeManager.ToggleMode | app/game_mode.py:52-59 | DEBUG becomes GAME and GAME becomes DEBUG |
| GameModes.GameModeManager.ExactlyOneMode | app/game_mode.py:61-67 | exactly one of `is_debug` and `is_game` holds |
| GameModes.ToggleTwice | app/game_mode.py:52-59 | toggling twice restores the mode |
| Players.NextSelected | app/players/player.py:77-81 | the middle button keeps the selection in [0, 15] |
| Players.Presses | app/players/player.py:77-81 | any number of presses keeps the selection in [0, 15] |
| Players.PressesModulo | app/players/player.py:77-81 | n presses from s give (s + n) mod 16 |
| Players.SixteenPresses | app/players/player.py:77-81 | sixteen presses restore the selection, and water (16) is never selected |
| Players.Player.constructor | app/players/player.py:19-34 | the selection starts at 0 |
| Players.Player.HandleEvent | app/players/player.py:58-85 | button 1 sets a voxel with the selected id, with the chunk effects of `set_voxel`; button 2 advances the selection; button 3 swaps the mode. The hit record is kept, and for buttons other than 1 every chunk is unchanged |

## Left out

- Noise, `get_height` and `random.random()` are inputs, keyed by world coordinate (`TerrainInputs`, `VoxelDraws`). The model does not capture how many draws the short-circuit `and` conditions consume from the global random stream, or in what order.
- `glm.ivec3` division in the handler's `get_voxel_id` is modelled as floor division, as in `world.py`. If the library truncates toward zero, positions just below 0 would map into chunk 0 with a negative local index, and the model does not cover that.
- The raycast's floating-point set-up (`sign`, `fract`, the deltas and first distances) is not modelled. The start cell, the signs and the positive deltas are inputs. Reals replace single-precision floats.
- `VoxelHandling.VoxelHandler.GetVoxelByRaycast` reuses the traversal of `Raycast`. The source repeats the loop text with `max_distance` 2; in the model that distance is part of the inputs.
- `VoxelHandling.VoxelHandler.RecordHit` resets the normal at hit time. The source zeroes it before the loop, and nothing reads it in between, so the outcome is the same.
- `voxel_id = None` before the first ray cast is modelled as 0, since every test of it is a truth test. Likewise, the `(0, 0, 0, 0)` miss result is modelled with a null chunk.
- `World.__init__` creating the `VoxelHandler` is left out, because the handler module imports the world. The handler is built over a finished world.
- Rendering, GPU buffers, shaders, the camera, frustum tests and the model matrix as a matrix are not modelled. `get_vao` is modelled only through the vertex data it uploads. The `float16` dtype of the cube data is not modelled; its entries are 0 and 1.
- `to_uint8` is not modelled: it is never called.
- `print` calls are not modelled: they change no state.
- Keyboard and mouse movement in `player.py` are not modelled: they are float and pygame input.
- `Players.Player.HandleEvent` takes the mouse button number in place of the pygame event.
- Rows keep their original numpy semantics: `self.voxels[chunk_index] = chunk.build_voxels()` copies into the 2-D array and `chunk.voxels` then aliases the row. The model builds the array and makes it the row, which gives the same observable sharing.
- `VoxelHandling.VoxelHandler.AddVoxel` does not re-mesh neighbouring chunks, because the source does not. A neighbour whose faces or occlusion depend on the placed voxel keeps its old mesh.
- `VoxelHandling.VoxelHandler.RemoveVoxel` keeps `is_empty`, because the source does not update it on removal.
- `VoxelHandling.VoxelHandler.RebuildAdjacentChunks` re-meshes only face neighbours. A diagonal chunk whose occlusion samples cross the edited cell keeps its old mesh, as in the source.
- The ambient-occlusion quirk in plane X (`h = a = ...`) is modelled as written, not corrected.

## Findings

| source | as written | input that shows it | evidently intended | confidence | as-written member | corrected member |
|---|---|---|---|---|---|---|
| app/meshes/chunks/chunk_mesh_builder.py:416 | each mesh is returned as `data[:index + 1]`, one word past the last written one | an all-void chunk: both streams are empty, yet each returned mesh holds one uninitialised word | `data[:index]`, exactly the written words | high (not executed) | MeshBuffers.EmptyChunkExtraWord | MeshBuffers.BuildChunkMeshExact |
| app/graphics/voxel_handler.py:41-47 | `add_voxel` writes whenever the faced cell's lookup id is 0, including the `(0, 0, 0, 0)` returned for a cell outside the world, whose chunk is `0` | a hit at height 95 (the top layer) with normal (0, 1, 0): the faced cell at height 96 is outside the world, and `chunk.voxels[...]` is taken on the integer 0 | skip the placement when the faced cell lies outside the world | high (not executed) | VoxelHandling.VoxelHandler.TopFacePlacement | VoxelHandling.VoxelHandler.AddVoxel |
