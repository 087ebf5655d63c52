/** The world: the fixed WORLD_WIDTH x WORLD_HEIGHT x WORLD_DEPTH grid of
    chunks, the 2-D voxel array whose rows the chunks alias, and the voxel
    queries over world positions. */
module WorldStore {
  import opened Settings
  import opened BlockType
  import opened TerrainGen
  import opened ChunkMeshBuilder
  import opened Chunks

  /** Chunk coordinates `build_chunks` has visited before reaching (x, y, z):
      x is the outer loop, y the middle one and z the inner one. */
  predicate Visited(c: IVec3, x: int, y: int, z: int) {
    c.x < x || (c.x == x && (c.y < y || (c.y == y && c.z < z)))
  }

  /** The voxels terrain generation gives the chunk at chunk coordinate `c`. */
  function Generated(c: IVec3, inp: TerrainInputs): (s: seq<Byte>)
    ensures |s| == CHUNK_VOL
  {
    TerrainState(Zeros(), ChunkOrigin(c), inp, CHUNK_SIZE)
  }

  /** The world array after writing `v` into the cell at world position `p`
      (`chunk.voxels[voxel_index] = v` through the chunk's alias of its row). */
  function WriteVoxel(w: seq<seq<Byte>>, p: IVec3, v: Byte): (r: seq<seq<Byte>>)
    requires WorldShaped(w) && InWorld(ChunkCoord(p))
    ensures WorldShaped(r)
  {
    var c := ChunkCoord(p);
    ChunkSlotBijection(c);
    var l := LocalCoord(p);
    var row: seq<Byte> := w[ChunkSlot(c)][GetIndex(l.x, l.y, l.z) := v];
    w[ChunkSlot(c) := row]
  }

  /** Reading after a write: the written position now reads `v` and every
      other world position reads what it did before. */
  lemma ReadAfterWrite(w: seq<seq<Byte>>, p: IVec3, v: Byte, q: IVec3)
    requires WorldShaped(w) && InWorld(ChunkCoord(p))
    ensures StoredVoxel(WriteVoxel(w, p, v), q) == if q == p then v else StoredVoxel(w, q)
  {
    var c, d := ChunkCoord(p), ChunkCoord(q);
    ChunkSlotBijection(c);
    if InWorld(d) {
      ChunkSlotBijection(d);
      var lp, lq := LocalCoord(p), LocalCoord(q);
      if ChunkSlot(c) == ChunkSlot(d) && GetIndex(lp.x, lp.y, lp.z) == GetIndex(lq.x, lq.y, lq.z) {
        GetIndexInjective(lp, lq);
        assert c == d;
      }
    }
  }

  /** The voxel cell a real position lies in (`glm.ivec3(glm.floor(position))`). */
  function FloorCell(p: Vec3): IVec3 {
    IVec3(p.x.Floor, p.y.Floor, p.z.Floor)
  }

  /** A slot's chunk is the chunk at `c` and its voxels are the slot's row itself. */
  ghost predicate Holds(c: IVec3, chunk: Chunk?, row: array?<Byte>)
    reads chunk
  {
    chunk != null && row != null && chunk.position == c && chunk.voxels == row && row.Length == CHUNK_VOL
  }

  /** A slot as `build_chunks` leaves it: the chunk at `c`, its row holding
      `content`, empty exactly when `content` holds no voxel, and not yet
      meshed. */
  ghost predicate Built(c: IVec3, chunk: Chunk?, row: array?<Byte>, content: seq<Byte>)
    reads chunk, row
  {
    && Holds(c, chunk, row)
    && row[..] == content
    && chunk.isEmpty == !AnyNonZero(content) && chunk.mesh == None
  }

  /** The slot's chunk carries the mesh of the chunk at `c` in the world `w`. */
  ghost predicate Meshed(c: IVec3, chunk: Chunk?, w: seq<seq<Byte>>)
    requires WorldShaped(w) && InWorld(c)
    reads chunk
  {
    chunk != null && chunk.mesh.Some? && MeshOf(chunk.mesh.value, c, w)
  }

  class World {
    /** `chunks`: the slot ChunkSlot(c) holds the chunk at chunk coordinate c. */
    var chunks: seq<Chunk?>
    /** `voxels`: the WORLD_VOL rows of the 2-D voxel array. */
    var rows: seq<array?<Byte>>
    /** The voxels terrain generation gives each slot (a proof device). */
    ghost const terrain: seq<seq<Byte>>

    /** `terrain` holds, for every slot, what the chunk there generates. */
    ghost predicate TerrainOf(inp: TerrainInputs) {
      |terrain| == WORLD_VOL && forall i {:trigger Generated(ChunkAt(i), inp)} :: 0 <= i < WORLD_VOL ==> terrain[i] == Generated(ChunkAt(i), inp)
    }

    /** Every row is allocated with CHUNK_VOL voxels. */
    predicate RowsShaped()
      reads this, rows
    {
      |rows| == WORLD_VOL && forall i :: 0 <= i < WORLD_VOL ==> rows[i] != null && rows[i].Length == CHUNK_VOL
    }

    /** Distinct slots hold distinct rows, so a write to one row leaves the others as they were. */
    predicate RowsDistinct()
      reads this
    {
      forall i, j :: 0 <= i < j < |rows| && rows[i] != null && rows[j] != null ==> rows[i] != rows[j]
    }

    /** The world after `build_chunks`. */
    ghost predicate Valid()
      reads this, chunks, rows
    {
      && |chunks| == WORLD_VOL && RowsShaped() && RowsDistinct()
      && forall i :: 0 <= i < WORLD_VOL ==> Holds(ChunkAt(i), chunks[i], rows[i])
    }

    /** The state of `build_chunks` before the chunk at (x, y, z): the slots
        of visited chunks are built and the others are still None. */
    ghost predicate Progress(x: int, y: int, z: int)
      reads this, chunks, rows
    {
      && |chunks| == WORLD_VOL && |rows| == WORLD_VOL && |terrain| == WORLD_VOL && RowsDistinct()
      && forall c :: InWorld(c) ==>
           if Visited(c, x, y, z) then Built(c, chunks[ChunkSlot(c)], rows[ChunkSlot(c)], terrain[ChunkSlot(c)])
           else chunks[ChunkSlot(c)] == null && rows[ChunkSlot(c)] == null
    }

    /** The contents of the 2-D voxel array, as the mesh builder reads it. */
    function Voxels(): (w: seq<seq<Byte>>)
      requires RowsShaped()
      reads this, rows
      ensures WorldShaped(w)
      ensures forall i :: 0 <= i < WORLD_VOL ==> w[i] == rows[i][..]
    {
      seq(WORLD_VOL, i requires 0 <= i < WORLD_VOL && RowsShaped() reads this, rows => rows[i][..])
    }

    /** `__init__`: build every chunk, then every chunk's mesh. */
    constructor (inp: TerrainInputs)
      ensures Valid()
      ensures forall i :: 0 <= i < WORLD_VOL ==>
        && rows[i][..] == Generated(ChunkAt(i), inp)
        && chunks[i].isEmpty == !AnyNonZero(Generated(ChunkAt(i), inp))
        && Meshed(ChunkAt(i), chunks[i], Voxels())
    {
      chunks := seq(WORLD_VOL, i => null);
      rows := seq(WORLD_VOL, i => null);
      terrain := seq(WORLD_VOL, i requires 0 <= i < WORLD_VOL => Generated(ChunkAt(i), inp));
      new;
      BuildChunks(inp);
      forall i | 0 <= i < WORLD_VOL
        ensures rows[i][..] == Generated(ChunkAt(i), inp)
        ensures chunks[i].isEmpty == !AnyNonZero(Generated(ChunkAt(i), inp))
      {
        var c := ChunkAt(i);
        assert Built(c, chunks[ChunkSlot(c)], rows[ChunkSlot(c)], terrain[ChunkSlot(c)]);
      }
      BuildChunkMesh();
    }

    /** `build_chunks`: every slot is filled exactly once, through the
        bijection ChunkSlot, with a generated chunk aliasing its row. */
    method BuildChunks(inp: TerrainInputs)
      requires Progress(0, 0, 0) && TerrainOf(inp)
      modifies this
      ensures Valid() && forall c :: InWorld(c) ==> Built(c, chunks[ChunkSlot(c)], rows[ChunkSlot(c)], terrain[ChunkSlot(c)])
      ensures forall i :: 0 <= i < WORLD_VOL ==> fresh(chunks[i])
    {
      var x := 0;
      while x < WORLD_WIDTH
        invariant 0 <= x <= WORLD_WIDTH && Progress(x, 0, 0)
        invariant forall i :: 0 <= i < WORLD_VOL && chunks[i] != old(chunks[i]) ==> fresh(chunks[i])
      {
        BuildSlice(x, inp);
        x := x + 1;
      }
      forall i | 0 <= i < WORLD_VOL
        ensures rows[i] != null && rows[i].Length == CHUNK_VOL && fresh(chunks[i])
      {
        var c := ChunkAt(i);
        assert Built(c, chunks[ChunkSlot(c)], rows[ChunkSlot(c)], terrain[ChunkSlot(c)]);
        assert old(chunks[ChunkSlot(c)]) == null;
      }
    }

    /** The `y` loop of `build_chunks` for one x. */
    method BuildSlice(x: int, inp: TerrainInputs)
      requires 0 <= x < WORLD_WIDTH && Progress(x, 0, 0) && TerrainOf(inp)
      modifies this
      ensures Progress(x + 1, 0, 0)
      ensures forall i :: 0 <= i < WORLD_VOL && chunks[i] != old(chunks[i]) ==> fresh(chunks[i])
    {
      var y := 0;
      while y < WORLD_HEIGHT
        invariant 0 <= y <= WORLD_HEIGHT && Progress(x, y, 0)
        invariant forall i :: 0 <= i < WORLD_VOL && chunks[i] != old(chunks[i]) ==> fresh(chunks[i])
      {
        BuildColumn(x, y, inp);
        y := y + 1;
      }
    }

    /** The `z` loop of `build_chunks` for one (x, y). */
    method BuildColumn(x: int, y: int, inp: TerrainInputs)
      requires 0 <= x < WORLD_WIDTH && 0 <= y < WORLD_HEIGHT && Progress(x, y, 0) && TerrainOf(inp)
      modifies this
      ensures Progress(x, y + 1, 0)
      ensures forall i :: 0 <= i < WORLD_VOL && chunks[i] != old(chunks[i]) ==> fresh(chunks[i])
    {
      var z := 0;
      while z < WORLD_DEPTH
        invariant 0 <= z <= WORLD_DEPTH && Progress(x, y, z)
        invariant forall i :: 0 <= i < WORLD_VOL && chunks[i] != old(chunks[i]) ==> fresh(chunks[i])
      {
        var here := IVec3(x, y, z);
        ChunkSlotBijection(here);
        var k := ChunkSlot(here);
        ghost var chunks0, rows0 := chunks, rows;
        BuildChunk(x, y, z, inp);
        forall c | InWorld(c)
          ensures if Visited(c, x, y, z + 1) then Built(c, chunks[ChunkSlot(c)], rows[ChunkSlot(c)], terrain[ChunkSlot(c)])
                  else chunks[ChunkSlot(c)] == null && rows[ChunkSlot(c)] == null
        {
          if c != here {
            ChunkSlotBijection(c);
            var i := ChunkSlot(c);
            assert i != k;
            assert chunks[i] == chunks0[i] && rows[i] == rows0[i];
          }
        }
        forall i, j | 0 <= i < j < |rows| && rows[i] != null && rows[j] != null
          ensures rows[i] != rows[j]
        {
          if i != k && j != k {
            assert rows[i] == rows0[i] && rows[j] == rows0[j];
          }
        }
        z := z + 1;
      }
    }

    /** One iteration of `build_chunks`: create the chunk at (x, y, z), store
        it in its slot, generate its voxels into the row and alias the row.
        Only that slot changes. */
    method BuildChunk(x: int, y: int, z: int, inp: TerrainInputs)
      requires InWorld(IVec3(x, y, z)) && |chunks| == WORLD_VOL && |rows| == WORLD_VOL && TerrainOf(inp)
      modifies this
      ensures |chunks| == WORLD_VOL && |rows| == WORLD_VOL
      ensures chunks == old(chunks)[ChunkSlot(IVec3(x, y, z)) := chunks[ChunkSlot(IVec3(x, y, z))]]
      ensures rows == old(rows)[ChunkSlot(IVec3(x, y, z)) := rows[ChunkSlot(IVec3(x, y, z))]]
      ensures fresh(chunks[ChunkSlot(IVec3(x, y, z))]) && fresh(rows[ChunkSlot(IVec3(x, y, z))])
      ensures Built(IVec3(x, y, z), chunks[ChunkSlot(IVec3(x, y, z))], rows[ChunkSlot(IVec3(x, y, z))], terrain[ChunkSlot(IVec3(x, y, z))])
    {
      var here := IVec3(x, y, z);
      var chunk := new Chunk(here);

      var chunkIndex := x + WORLD_WIDTH * z + WORLD_AREA * y;
      ChunkSlotBijection(here);
      chunks := chunks[chunkIndex := chunk];

      var built := chunk.BuildVoxels(inp);
      rows := rows[chunkIndex := built];

      chunk.voxels := built;

      assert terrain[chunkIndex] == Generated(ChunkAt(chunkIndex), inp);
    }

    /** Distinct slots hold distinct chunk objects, so rebuilding one chunk
        leaves every other chunk as it was. */
    lemma ChunksDistinct(i: int, j: int)
      requires Valid() && 0 <= i < WORLD_VOL && 0 <= j < WORLD_VOL && i != j
      ensures chunks[i] != chunks[j]
    {
      assert Holds(ChunkAt(i), chunks[i], rows[i]) && Holds(ChunkAt(j), chunks[j], rows[j]);
    }

    /** `build_chunk_mesh`: every chunk gets the mesh of its voxels in the
        current world; no voxel changes. */
    method BuildChunkMesh()
      requires Valid()
      modifies chunks
      ensures Valid() && Voxels() == old(Voxels())
      ensures forall i :: 0 <= i < WORLD_VOL ==>
        && Meshed(ChunkAt(i), chunks[i], Voxels())
        && chunks[i].isEmpty == old(chunks[i].isEmpty)
    {
      ghost var w := Voxels();
      for i := 0 to WORLD_VOL
        invariant Valid() && Voxels() == w
        invariant forall j :: 0 <= j < WORLD_VOL ==> chunks[j].isEmpty == old(chunks[j].isEmpty)
        invariant forall j :: 0 <= j < i ==> Meshed(ChunkAt(j), chunks[j], w)
      {
        RebuildMesh(chunks[i], i, w);
      }
    }

    /** `build_mesh` / `mesh.rebuild()` on the chunk in slot `i` (one iteration
        of `build_chunk_mesh`, and every rebuild after a voxel edit): its mesh
        becomes the mesh of the current voxels; every other chunk is a
        distinct object, so only that chunk changes. */
    method RebuildMesh(chunk: Chunk, ghost i: int, ghost w: seq<seq<Byte>>)
      requires 0 <= i < WORLD_VOL && Valid() && Voxels() == w && chunk == chunks[i]
      modifies chunk
      ensures Valid() && Voxels() == w && Meshed(ChunkAt(i), chunk, w)
      ensures chunk.voxels == old(chunk.voxels) && chunk.isEmpty == old(chunk.isEmpty)
      ensures forall j :: 0 <= j < WORLD_VOL && j != i ==> chunks[j] != chunk
    {
      assert Holds(ChunkAt(i), chunk, rows[i]);
      forall j | 0 <= j < WORLD_VOL && j != i
        ensures chunks[j] != chunk
      {
        ChunksDistinct(i, j);
      }
      chunk.BuildMesh(Voxels());
    }

    /** `chunk.voxels[voxel_index] = v` on the chunk holding `p`: the
        chunk's array is its world row, so the world's voxels change at `p`
        and nowhere else, and the world keeps its shape. */
    method WriteThrough(chunk: Chunk, index: int, ghost p: IVec3, v: Byte)
      requires Valid() && InWorld(ChunkCoord(p))
      requires chunk == chunks[ChunkSlot(ChunkCoord(p))]
      requires index == GetIndex(LocalCoord(p).x, LocalCoord(p).y, LocalCoord(p).z)
      modifies rows[ChunkSlot(ChunkCoord(p))]
      ensures Valid() && Voxels() == WriteVoxel(old(Voxels()), p, v)
    {
      ghost var w0 := Voxels();
      ghost var i := ChunkSlot(ChunkCoord(p));
      assert Holds(ChunkAt(i), chunk, rows[i]);
      chunk.voxels[index] := v;
      forall j | 0 <= j < WORLD_VOL
        ensures Voxels()[j] == WriteVoxel(w0, p, v)[j]
      {
        if j != i {
          assert rows[j] != rows[i];
        }
      }
      assert Voxels() == WriteVoxel(w0, p, v);
    }

    /** `get_voxel_id`: the voxel at a world position, 0 when the position's
        chunk lies outside the world. */
    function GetVoxelId(p: IVec3): (id: Byte)
      requires RowsShaped()
      reads this, rows
      ensures !InWorld(ChunkCoord(p)) ==> id == VOID
      ensures id == StoredVoxel(Voxels(), p)
    {
      var cx, cy, cz := p.x / CHUNK_SIZE, p.y / CHUNK_SIZE, p.z / CHUNK_SIZE;
      if 0 <= cx < WORLD_WIDTH && 0 <= cy < WORLD_HEIGHT && 0 <= cz < WORLD_DEPTH then
        var chunkIndex := cx + WORLD_WIDTH * cz + WORLD_AREA * cy;
        var lx, ly, lz := p.x % CHUNK_SIZE, p.y % CHUNK_SIZE, p.z % CHUNK_SIZE;
        var voxelIndex := lx + CHUNK_SIZE * lz + CHUNK_AREA * ly;
        assert voxelIndex == GetIndex(lx, ly, lz) && InChunk(IVec3(lx, ly, lz));
        rows[chunkIndex][voxelIndex]
      else
        0
    }

    /** The world's lookup and the mesh builder's lookup agree at every
        position whose local coordinate is congruent to it. */
    lemma LookupAgreesWithMesher(local: IVec3, p: IVec3)
      requires RowsShaped() && Congruent(local, p)
      ensures GetVoxelId(p) == GetVoxelIdAt(local, p, Voxels())
    {
      GetVoxelIdAtSpec(local, p, Voxels());
    }

    /** `is_solid_voxel`: neither void nor water. */
    function IsSolidVoxel(position: Vec3): bool
      requires RowsShaped()
      reads this, rows
    {
      var voxelId := GetVoxelId(FloorCell(position));
      voxelId != 0 && voxelId != 16
    }

    /** `is_water_voxel`: water. */
    function IsWaterVoxel(position: Vec3): bool
      requires RowsShaped()
      reads this, rows
    {
      GetVoxelId(FloorCell(position)) == 16
    }

    /** No position is both solid and water; a position outside the world is
        neither; inside, solidity and water are read from the stored voxel of
        the cell the position lies in. */
    lemma SolidWaterClassification(position: Vec3)
      requires RowsShaped()
      ensures !(IsSolidVoxel(position) && IsWaterVoxel(position))
      ensures !InWorld(ChunkCoord(FloorCell(position))) ==> !IsSolidVoxel(position) && !IsWaterVoxel(position)
      ensures IsWaterVoxel(position) <==> StoredVoxel(Voxels(), FloorCell(position)) == WATER
      ensures IsSolidVoxel(position) <==> StoredVoxel(Voxels(), FloorCell(position)) !in {VOID, WATER}
    {
    }
  }
}
