/** One chunk of the world: terrain generation over its 32^3 voxels, the
    emptiness flag, its centre and model translation, and its mesh. */
module Chunks {
  import opened Settings
  import opened BlockType
  import opened TerrainGen
  import opened ChunkMeshBuilder
  import opened MeshStreams
  import opened MeshBuffers

  // ---------------------------------------------------------------------------
  // Terrain generation of one chunk

  /** Rows of a column that fall inside the chunk based at height `cy`:
      `int(min(world_height - cy, CHUNK_SIZE))`; zero or less means none. */
  function LocalHeight(worldHeight: int, cy: int): int {
    if worldHeight - cy < CHUNK_SIZE then worldHeight - cy else CHUNK_SIZE
  }

  /** Local rows filled in column (x, z) of the chunk with world origin `o`. */
  function ColumnHeight(o: IVec3, inp: TerrainInputs, x: int, z: int): int {
    LocalHeight(inp.Height(x + o.x, z + o.z), o.y)
  }

  /** The effect of `set_voxel_id` on local cell (x, y, z) of the chunk with
      world origin `o`: world coordinates are the local ones plus the origin. */
  function VoxelStep(s: seq<Byte>, o: IVec3, inp: TerrainInputs, x: int, y: int, z: int): (r: seq<Byte>)
    ensures |r| == |s|
  {
    SetVoxelIdEffect(s, IVec3(x, y, z), y + o.y, inp.Height(x + o.x, z + o.z),
                     inp.Cave(x + o.x, y + o.y, z + o.z), inp.Floor(x + o.x, z + o.z), inp.Draws(x + o.x, y + o.y, z + o.z))
  }

  /** The chunk after the first `y` cells (bottom up) of column (x, z). */
  function ColumnState(s: seq<Byte>, o: IVec3, inp: TerrainInputs, x: int, z: int, y: int): (r: seq<Byte>)
    ensures |r| == |s|
    decreases y
  {
    if y <= 0 then s else VoxelStep(ColumnState(s, o, inp, x, z, y - 1), o, inp, x, y - 1, z)
  }

  /** The chunk after the first `z` columns of the slice at `x`. The origin
      `o` in the termination measure keeps the verifier from evaluating the
      recursion through all CHUNK_SIZE steps when only the bound is a constant. */
  function SliceState(s: seq<Byte>, o: IVec3, inp: TerrainInputs, x: int, z: int): (r: seq<Byte>)
    ensures |r| == |s|
    decreases z, o
  {
    if z <= 0 then s else ColumnState(SliceState(s, o, inp, x, z - 1), o, inp, x, z - 1, ColumnHeight(o, inp, x, z - 1))
  }

  /** The chunk after the first `x` slices (`o` in the measure as in SliceState). */
  function TerrainState(s: seq<Byte>, o: IVec3, inp: TerrainInputs, x: int): (r: seq<Byte>)
    ensures |r| == |s|
    decreases x, o
  {
    if x <= 0 then s else SliceState(TerrainState(s, o, inp, x - 1), o, inp, x - 1, CHUNK_SIZE)
  }

  /** A chunk of CHUNK_VOL void voxels (`numpy.zeros(CHUNK_VOL, dtype='uint8')`). */
  function Zeros(): (s: seq<Byte>)
    ensures |s| == CHUNK_VOL && forall i :: 0 <= i < CHUNK_VOL ==> s[i] == VOID
  {
    seq(CHUNK_VOL, i => VOID)
  }

  /** `numpy.any(voxels)`: some voxel is not void. */
  predicate AnyNonZero(s: seq<Byte>) {
    exists i :: 0 <= i < |s| && s[i] != VOID
  }

  /** The column (x, z) of the chunk with origin `o` lies wholly above the terrain. */
  predicate AboveTerrain(o: IVec3, inp: TerrainInputs, x: int, z: int) {
    inp.Height(x + o.x, z + o.z) <= o.y
  }

  /** Column steps write nothing in a column above the terrain. */
  lemma {:induction false} EmptyColumnsUnchanged(s: seq<Byte>, o: IVec3, inp: TerrainInputs, x: int, z: int)
    requires forall c :: 0 <= c < z ==> AboveTerrain(o, inp, x, c)
    ensures SliceState(s, o, inp, x, z) == s
    decreases z
  {
    if z > 0 {
      EmptyColumnsUnchanged(s, o, inp, x, z - 1);
      assert AboveTerrain(o, inp, x, z - 1);
      assert ColumnHeight(o, inp, x, z - 1) <= 0;
    }
  }

  /** A chunk whose every column lies above the terrain is left as it was. */
  lemma {:induction false} AboveTerrainUnchanged(s: seq<Byte>, o: IVec3, inp: TerrainInputs, x: int)
    requires forall a, c :: 0 <= a < x && 0 <= c < CHUNK_SIZE ==> AboveTerrain(o, inp, a, c)
    ensures TerrainState(s, o, inp, x) == s
    decreases x
  {
    if x > 0 {
      AboveTerrainUnchanged(s, o, inp, x - 1);
      EmptyColumnsUnchanged(s, o, inp, x - 1, CHUNK_SIZE);
    }
  }

  /** Rows of column (x, z) of `generate_terrain`'s loop: `set_voxel_id` on
      local rows 0 .. localHeight - 1, bottom up. */
  method FillColumn(voxels: array<Byte>, cx: int, cy: int, cz: int, inp: TerrainInputs, x: int, z: int)
    requires voxels.Length == CHUNK_VOL && 0 <= x < CHUNK_SIZE && 0 <= z < CHUNK_SIZE
    modifies voxels
    ensures voxels[..] == ColumnState(old(voxels[..]), IVec3(cx, cy, cz), inp, x, z, ColumnHeight(IVec3(cx, cy, cz), inp, x, z))
  {
    ghost var o := IVec3(cx, cy, cz);
    ghost var s0 := voxels[..];
    var wx := x + cx;
    var wz := z + cz;
    var worldHeight := inp.Height(wx, wz);
    var localHeight := LocalHeight(worldHeight, cy);
    var y := 0;
    while y < localHeight
      invariant 0 <= y && (y <= localHeight || y == 0)
      invariant voxels[..] == ColumnState(s0, o, inp, x, z, y)
    {
      ghost var before := voxels[..];
      var wy := y + cy;
      assert RowArgs(s0, o, inp, x, z, y, wx, wy, wz, worldHeight, before);
      SetVoxelId(voxels, x, y, z, wx, wy, wz, worldHeight, inp);
      ColumnNext(s0, o, inp, x, z, y, wx, wy, wz, worldHeight, before, voxels[..]);
      y := y + 1;
    }
    assert ColumnExit(o, inp, x, z, y, localHeight);
    ColumnEnd(s0, o, inp, x, z, y, localHeight);
  }

  /** The slice `x` of `generate_terrain`'s loop: every column z, in order. */
  method FillSlice(voxels: array<Byte>, cx: int, cy: int, cz: int, inp: TerrainInputs, x: int)
    requires voxels.Length == CHUNK_VOL && 0 <= x < CHUNK_SIZE
    modifies voxels
    ensures voxels[..] == SliceState(old(voxels[..]), IVec3(cx, cy, cz), inp, x, CHUNK_SIZE)
  {
    ghost var o := IVec3(cx, cy, cz);
    ghost var s0 := voxels[..];
    var z := 0;
    while z < CHUNK_SIZE
      invariant 0 <= z <= CHUNK_SIZE
      invariant voxels[..] == SliceState(s0, o, inp, x, z)
    {
      FillColumn(voxels, cx, cy, cz, inp, x, z);
      SliceNext(s0, o, inp, x, z);
      z := z + 1;
    }
  }

  /** `generate_terrain`: every column (x, z) of the chunk with world origin
      (cx, cy, cz) gets `set_voxel_id` on its local rows below the column
      height, bottom up, with world coordinates `local + origin`. */
  method GenerateTerrain(voxels: array<Byte>, cx: int, cy: int, cz: int, inp: TerrainInputs)
    requires voxels.Length == CHUNK_VOL
    modifies voxels
    ensures voxels[..] == TerrainState(old(voxels[..]), IVec3(cx, cy, cz), inp, CHUNK_SIZE)
  {
    ghost var o := IVec3(cx, cy, cz);
    ghost var s0 := voxels[..];
    var x := 0;
    while x < CHUNK_SIZE
      invariant 0 <= x <= CHUNK_SIZE
      invariant voxels[..] == TerrainState(s0, o, inp, x)
    {
      FillSlice(voxels, cx, cy, cz, inp, x);
      TerrainNext(s0, o, inp, x);
      x := x + 1;
    }
  }

  /** One more row of a column: the chunk after `set_voxel_id` on row `y`,
      at world coordinates `(wx, wy, wz)` offset from the local ones by `o`. */
  lemma ColumnNext(s: seq<Byte>, o: IVec3, inp: TerrainInputs, x: int, z: int, y: int, wx: int, wy: int, wz: int, worldHeight: int,
                   before: seq<Byte>, after: seq<Byte>)
    requires RowArgs(s, o, inp, x, z, y, wx, wy, wz, worldHeight, before)
    requires after == SetVoxelIdEffect(before, IVec3(x, y, z), wy, worldHeight, inp.Cave(wx, wy, wz), inp.Floor(wx, wz), inp.Draws(wx, wy, wz))
    ensures after == ColumnState(s, o, inp, x, z, y + 1)
  {
  }

  /** Row `y` of column (x, z) is visited with the chunk `before` built by the rows below it. */
  predicate RowArgs(s: seq<Byte>, o: IVec3, inp: TerrainInputs, x: int, z: int, y: int, wx: int, wy: int, wz: int, worldHeight: int, before: seq<Byte>) {
    && 0 <= y && wx == x + o.x && wy == y + o.y && wz == z + o.z && worldHeight == inp.Height(wx, wz)
    && before == ColumnState(s, o, inp, x, z, y)
  }

  /** The row loop of a column stops at its local height, or at once when that is not positive. */
  lemma ColumnEnd(s: seq<Byte>, o: IVec3, inp: TerrainInputs, x: int, z: int, y: int, localHeight: int)
    requires ColumnExit(o, inp, x, z, y, localHeight)
    ensures ColumnState(s, o, inp, x, z, y) == ColumnState(s, o, inp, x, z, ColumnHeight(o, inp, x, z))
  {
  }

  /** The state in which the row loop of column (x, z) exits. */
  predicate ColumnExit(o: IVec3, inp: TerrainInputs, x: int, z: int, y: int, localHeight: int) {
    localHeight == LocalHeight(inp.Height(x + o.x, z + o.z), o.y) && 0 <= y && (y <= localHeight || y == 0) && !(y < localHeight)
  }

  lemma SliceNext(s: seq<Byte>, o: IVec3, inp: TerrainInputs, x: int, z: int)
    requires 0 <= z
    ensures SliceState(s, o, inp, x, z + 1) == ColumnState(SliceState(s, o, inp, x, z), o, inp, x, z, ColumnHeight(o, inp, x, z))
  {
  }

  lemma TerrainNext(s: seq<Byte>, o: IVec3, inp: TerrainInputs, x: int)
    requires 0 <= x
    ensures TerrainState(s, o, inp, x + 1) == SliceState(TerrainState(s, o, inp, x), o, inp, x, CHUNK_SIZE)
  {
  }

  // ---------------------------------------------------------------------------
  // The chunk object

  /** The vertex data of a built mesh: the solid and the water stream. */
  datatype ChunkMesh = ChunkMesh(solid: seq<int>, water: seq<int>)

  /** `format_size` of the chunk mesh's vertex format `'1u4'`. */
  const FORMAT_SIZE: int := 1

  /** The water stream (`water`) or the opaque stream of a chunk mesh. */
  function StreamOf(mesh: ChunkMesh, water: bool): seq<int> {
    if water then mesh.water else mesh.solid
  }

  /** `mesh` is what `build_chunk_mesh` returns for the chunk at `pos` of the
      world `w`: each of its two streams is the matching full stream cut as
      the mesher cuts it. */
  predicate MeshOf(mesh: ChunkMesh, pos: IVec3, w: seq<seq<Byte>>)
    requires WorldShaped(w) && InWorld(pos)
  {
    ChunkSlotBijection(pos);
    forall water: bool ::
      SliceOfStream(StreamOf(mesh, water), FullStream(w[ChunkSlot(pos)], pos, w, water), CHUNK_VOL * 18 * FORMAT_SIZE)
  }

  /** World coordinate of local cell (0, 0, 0) of the chunk at chunk coordinate `c`. */
  function ChunkOrigin(c: IVec3): IVec3 {
    IVec3(c.x * CHUNK_SIZE, c.y * CHUNK_SIZE, c.z * CHUNK_SIZE)
  }

  class Chunk {
    /** Chunk coordinate in the world grid. */
    const position: IVec3
    /** The chunk's voxels; null until the world assigns its row. */
    var voxels: array?<Byte>
    /** The chunk's mesh; absent until first built. */
    var mesh: Option<ChunkMesh>
    var isEmpty: bool

    constructor (position: IVec3)
      ensures this.position == position && voxels == null && mesh == None && isEmpty
    {
      this.position := position;
      voxels := null;
      mesh := None;
      isEmpty := true;
    }

    /** World coordinate of the chunk's local cell (0, 0, 0). */
    function Origin(): IVec3 {
      ChunkOrigin(position)
    }

    /** Translation of the model matrix: the chunk's world origin. */
    function ModelTranslation(): (t: Vec3) {
      Vec3(Origin().x as real, Origin().y as real, Origin().z as real)
    }

    /** `center = (vec3(position) + 0.5) * CHUNK_SIZE`. */
    function Center(): (c: Vec3) {
      Vec3((position.x as real + 0.5) * CHUNK_SIZE as real,
           (position.y as real + 0.5) * CHUNK_SIZE as real,
           (position.z as real + 0.5) * CHUNK_SIZE as real)
    }

    /** The centre lies half a chunk past the model translation on every axis,
        so it is the midpoint of the chunk's world box. */
    lemma CenterIsMidpoint()
      ensures var c, t := Center(), ModelTranslation();
        && c.x == t.x + H_CHUNK_SIZE as real && c.y == t.y + H_CHUNK_SIZE as real && c.z == t.z + H_CHUNK_SIZE as real
        && t.x < c.x < t.x + CHUNK_SIZE as real && t.y < c.y < t.y + CHUNK_SIZE as real && t.z < c.z < t.z + CHUNK_SIZE as real
    {
    }

    /** `build_voxels`: a fresh array of void voxels filled by terrain
        generation from the chunk's world origin; `is_empty` is cleared when
        the result holds any non-void voxel and is never set back. */
    method BuildVoxels(inp: TerrainInputs) returns (built: array<Byte>)
      modifies this
      ensures fresh(built) && built.Length == CHUNK_VOL
      ensures built[..] == TerrainState(Zeros(), Origin(), inp, CHUNK_SIZE)
      ensures isEmpty == (old(isEmpty) && !AnyNonZero(built[..]))
      ensures voxels == old(voxels) && mesh == old(mesh)
    {
      // Empty chunk
      built := new Byte[CHUNK_VOL](i => VOID);
      assert built[..] == Zeros();

      // Fill chunk
      var cx, cy, cz := position.x * CHUNK_SIZE, position.y * CHUNK_SIZE, position.z * CHUNK_SIZE;
      GenerateTerrain(built, cx, cy, cz, inp);

      if AnyNonZero(built[..]) {
        isEmpty := false;
      }
    }

    /** `build_mesh` / `mesh.rebuild()`: the mesh of the chunk's current
        voxels within the world `w`, which holds them in the chunk's row. */
    method BuildMesh(w: seq<seq<Byte>>)
      requires voxels != null && BuildInputs(voxels[..], w) && InWorld(position) && voxels[..] == w[ChunkSlot(position)]
      modifies this
      ensures mesh.Some? && MeshOf(mesh.value, position, w)
      ensures voxels == old(voxels) && isEmpty == old(isEmpty)
    {
      var solid, water := BuildChunkMesh(voxels[..], FORMAT_SIZE, position, w);
      mesh := Some(ChunkMesh(solid, water));
    }
  }

  /** A chunk above the terrain in every column builds as empty. */
  lemma AboveTerrainIsEmpty(o: IVec3, inp: TerrainInputs)
    requires forall a, c :: 0 <= a < CHUNK_SIZE && 0 <= c < CHUNK_SIZE ==> AboveTerrain(o, inp, a, c)
    ensures !AnyNonZero(TerrainState(Zeros(), o, inp, CHUNK_SIZE))
  {
    AboveTerrainUnchanged(Zeros(), o, inp, CHUNK_SIZE);
  }
}
