/** The pure part of the chunk mesher: the vertex-word packer, chunk index
    arithmetic, voxel lookup through the world array, the face-visibility rule
    and the ambient-occlusion sampler. */
module ChunkMeshBuilder {
  import opened Settings
  import opened BlockType
  import opened TerrainGen

  /** `world_voxels`: WORLD_VOL rows of CHUNK_VOL voxels each. */
  predicate WorldShaped(w: seq<seq<Byte>>) {
    |w| == WORLD_VOL && forall i :: 0 <= i < |w| ==> |w[i]| == CHUNK_VOL
  }

  // ---------------------------------------------------------------------------
  // Vertex packing

  // Multipliers for the bit offsets 26, 20, 14, 6, 3 and 1 that follow from the
  // field widths x:6 y:6 z:6 voxel_id:8 face_id:3 ao_id:2 flip_id:1.
  const X_SHIFT: int := 0x400_0000
  const Y_SHIFT: int := 0x10_0000
  const Z_SHIFT: int := 0x4000
  const ID_SHIFT: int := 0x40
  const FACE_SHIFT: int := 0x8
  const AO_SHIFT: int := 0x2

  /** Every field fits its width in the packed layout. */
  predicate PackableFields(x: int, y: int, z: int, voxelId: int, faceId: int, aoId: int, flipId: int) {
    0 <= x < 64 && 0 <= y < 64 && 0 <= z < 64 && 0 <= voxelId < 256
    && 0 <= faceId < 8 && 0 <= aoId < 4 && 0 <= flipId < 2
  }

  /** Packs one vertex into a 32-bit word. The fields occupy disjoint bit
      ranges, so the program's bitwise or of the shifted fields is their sum. */
  function PackData(x: int, y: int, z: int, voxelId: int, faceId: int, aoId: int, flipId: int): (w: int)
    requires PackableFields(x, y, z, voxelId, faceId, aoId, flipId)
    ensures 0 <= w < 0x1_0000_0000
  {
    x * X_SHIFT + y * Y_SHIFT + z * Z_SHIFT + voxelId * ID_SHIFT + faceId * FACE_SHIFT + aoId * AO_SHIFT + flipId
  }

  /** `(w >> shift) & (size - 1)` for a power-of-two shift multiplier and field size. */
  function Field(w: int, shift: int, size: int): int
    requires shift > 0 && size > 0
  {
    (w / shift) % size
  }

  /** Shifting and masking a packed word recovers every field. */
  lemma UnpackPackData(x: int, y: int, z: int, voxelId: int, faceId: int, aoId: int, flipId: int)
    requires PackableFields(x, y, z, voxelId, faceId, aoId, flipId)
    ensures var w := PackData(x, y, z, voxelId, faceId, aoId, flipId);
      && Field(w, X_SHIFT, 64) == x
      && Field(w, Y_SHIFT, 64) == y
      && Field(w, Z_SHIFT, 64) == z
      && Field(w, ID_SHIFT, 256) == voxelId
      && Field(w, FACE_SHIFT, 8) == faceId
      && Field(w, AO_SHIFT, 4) == aoId
      && Field(w, 1, 2) == flipId
  {
    var w := PackData(x, y, z, voxelId, faceId, aoId, flipId);
    var low := y * Y_SHIFT + z * Z_SHIFT + voxelId * ID_SHIFT + faceId * FACE_SHIFT + aoId * AO_SHIFT + flipId;
    DivMod(w, X_SHIFT, x, low);
    DivMod(x, 64, 0, x);
    var yq := x * 64 + y;
    DivMod(w, Y_SHIFT, yq, low - y * Y_SHIFT);
    DivMod(yq, 64, x, y);
    var zq := yq * 64 + z;
    DivMod(w, Z_SHIFT, zq, voxelId * ID_SHIFT + faceId * FACE_SHIFT + aoId * AO_SHIFT + flipId);
    DivMod(zq, 64, yq, z);
    var iq := zq * 256 + voxelId;
    DivMod(w, ID_SHIFT, iq, faceId * FACE_SHIFT + aoId * AO_SHIFT + flipId);
    DivMod(iq, 256, zq, voxelId);
    var fq := iq * 8 + faceId;
    DivMod(w, FACE_SHIFT, fq, aoId * AO_SHIFT + flipId);
    DivMod(fq, 8, iq, faceId);
    var aq := fq * 4 + aoId;
    DivMod(w, AO_SHIFT, aq, flipId);
    DivMod(aq, 4, fq, aoId);
    DivMod(w, 1, w, 0);
    DivMod(w, 2, aq, flipId);
  }

  // ---------------------------------------------------------------------------
  // Chunk index arithmetic

  /** A chunk coordinate inside the fixed WORLD_WIDTH x WORLD_HEIGHT x WORLD_DEPTH grid. */
  predicate InWorld(c: IVec3) {
    0 <= c.x < WORLD_WIDTH && 0 <= c.y < WORLD_HEIGHT && 0 <= c.z < WORLD_DEPTH
  }

  /** Floor-divided chunk coordinate of a world voxel position (`pos // CHUNK_SIZE`). */
  function ChunkCoord(p: IVec3): IVec3 {
    IVec3(p.x / CHUNK_SIZE, p.y / CHUNK_SIZE, p.z / CHUNK_SIZE)
  }

  /** Local coordinate of a world voxel position inside its chunk (`pos % CHUNK_SIZE`). */
  function LocalCoord(p: IVec3): (l: IVec3)
    ensures InChunk(l)
  {
    IVec3(p.x % CHUNK_SIZE, p.y % CHUNK_SIZE, p.z % CHUNK_SIZE)
  }

  /** Slot of a chunk coordinate in the world's chunk list. */
  function ChunkSlot(c: IVec3): (i: int)
    ensures InWorld(c) ==> 0 <= i < WORLD_VOL
  {
    c.x + WORLD_WIDTH * c.z + WORLD_AREA * c.y
  }

  /** The chunk coordinate stored in slot `i` (inverse of ChunkSlot). */
  function ChunkAt(i: int): (c: IVec3)
    requires 0 <= i < WORLD_VOL
    ensures InWorld(c) && ChunkSlot(c) == i
  {
    IVec3(i % WORLD_WIDTH, i / WORLD_AREA, (i / WORLD_WIDTH) % WORLD_DEPTH)
  }

  /** ChunkSlot is a bijection from in-world chunk coordinates onto [0, WORLD_VOL). */
  lemma ChunkSlotBijection(c: IVec3)
    requires InWorld(c)
    ensures 0 <= ChunkSlot(c) < WORLD_VOL && ChunkAt(ChunkSlot(c)) == c
  {
    var i := ChunkSlot(c);
    DivMod(i, 30, c.z + 30 * c.y, c.x);
    DivMod(i, 900, c.y, c.x + 30 * c.z);
    DivMod(c.z + 30 * c.y, 30, c.y, c.z);
  }

  /** `get_chunk_index`: -1 outside the world, else the slot of the position's chunk. */
  function GetChunkIndex(p: IVec3): (r: int)
    ensures -1 <= r < WORLD_VOL
  {
    var c := ChunkCoord(p);
    if !(0 <= c.x < WORLD_WIDTH && 0 <= c.y < WORLD_HEIGHT && 0 <= c.z < WORLD_DEPTH) then
      -1
    else
      c.x + WORLD_WIDTH * c.z + WORLD_AREA * c.y
  }

  /** The index is -1 exactly for positions whose chunk lies outside the world,
      and otherwise names the slot holding that chunk. */
  lemma GetChunkIndexSpec(p: IVec3)
    ensures GetChunkIndex(p) == -1 <==> !InWorld(ChunkCoord(p))
    ensures GetChunkIndex(p) != -1 ==> ChunkAt(GetChunkIndex(p)) == ChunkCoord(p)
  {
    if InWorld(ChunkCoord(p)) {
      ChunkSlotBijection(ChunkCoord(p));
    }
  }

  /** Positions in different chunks get different indices. */
  lemma GetChunkIndexInjective(p: IVec3, q: IVec3)
    requires GetChunkIndex(p) != -1 && GetChunkIndex(p) == GetChunkIndex(q)
    ensures ChunkCoord(p) == ChunkCoord(q)
  {
    GetChunkIndexSpec(p);
    GetChunkIndexSpec(q);
  }

  // ---------------------------------------------------------------------------
  // Voxel lookup

  /** The voxel the world array holds at a world position, void outside the world:
      the reference reading of the 2-D world array. */
  function StoredVoxel(w: seq<seq<Byte>>, p: IVec3): Byte
    requires WorldShaped(w)
  {
    var c := ChunkCoord(p);
    if InWorld(c) then
      ChunkSlotBijection(c);
      var l := LocalCoord(p);
      w[ChunkSlot(c)][GetIndex(l.x, l.y, l.z)]
    else
      VOID
  }

  /** The local and world positions name the same cell (local ≡ world mod CHUNK_SIZE),
      as at every call site of the lookup. */
  predicate Congruent(local: IVec3, world: IVec3) {
    local.x % CHUNK_SIZE == world.x % CHUNK_SIZE
    && local.y % CHUNK_SIZE == world.y % CHUNK_SIZE
    && local.z % CHUNK_SIZE == world.z % CHUNK_SIZE
  }

  /** `get_voxel_id_at`: chunk chosen by the world position, cell by the local position. */
  function GetVoxelIdAt(local: IVec3, world: IVec3, w: seq<seq<Byte>>): Byte
    requires WorldShaped(w)
  {
    var chunkIndex := GetChunkIndex(world);
    if chunkIndex == -1 then
      VOID
    else
      var chunkVoxels := w[chunkIndex];
      var voxelIndex := local.x % CHUNK_SIZE + local.z % CHUNK_SIZE * CHUNK_SIZE + local.y % CHUNK_SIZE * CHUNK_AREA;
      assert 0 <= voxelIndex < CHUNK_VOL by {
        assert voxelIndex == GetIndex(local.x % CHUNK_SIZE, local.y % CHUNK_SIZE, local.z % CHUNK_SIZE);
      }
      chunkVoxels[voxelIndex]
  }

  /** The lookup is void outside the world, and reads the stored voxel whenever
      the local position is congruent to the world position. */
  lemma GetVoxelIdAtSpec(local: IVec3, world: IVec3, w: seq<seq<Byte>>)
    requires WorldShaped(w)
    ensures GetChunkIndex(world) == -1 ==> GetVoxelIdAt(local, world, w) == VOID
    ensures Congruent(local, world) ==> GetVoxelIdAt(local, world, w) == StoredVoxel(w, world)
  {
    GetChunkIndexSpec(world);
  }

  /** `is_void`: the looked-up voxel is empty (water is not void). */
  function IsVoid(local: IVec3, world: IVec3, w: seq<seq<Byte>>): bool
    requires WorldShaped(w)
  {
    GetVoxelIdAt(local, world, w) == 0
  }

  /** Positions outside the world are void; inside, exactly the stored empty cells. */
  lemma IsVoidSpec(local: IVec3, world: IVec3, w: seq<seq<Byte>>)
    requires WorldShaped(w)
    ensures !InWorld(ChunkCoord(world)) ==> IsVoid(local, world, w)
    ensures Congruent(local, world) ==> (IsVoid(local, world, w) <==> StoredVoxel(w, world) == VOID)
  {
    GetChunkIndexSpec(world);
    GetVoxelIdAtSpec(local, world, w);
  }

  // ---------------------------------------------------------------------------
  // Face visibility

  /** `should_render_face`: is the face of `current` toward `neighbor` drawn? */
  function ShouldRenderFace(current: int, neighbor: int): (r: bool)
    ensures current == neighbor ==> !r
    ensures current != neighbor && neighbor == VOID ==> r
    ensures current != neighbor && (current == WATER || neighbor == WATER) ==> r
    ensures (current != neighbor && current != VOID && neighbor != VOID
             && current != WATER && neighbor != WATER) ==> !r
    ensures current == VOID && neighbor != VOID && neighbor != WATER ==> !r
  {
    if current == neighbor then false
    else if neighbor == 0 then true
    else if current == 16 || neighbor == 16 then true
    else false
  }

  /** The rule is asymmetric exactly between a non-water block and void:
      such a face is drawn from the block's side only. */
  lemma ShouldRenderFaceAsymmetry(a: int, b: int)
    ensures (ShouldRenderFace(a, b) && !ShouldRenderFace(b, a))
            <==> (b == VOID && a != VOID && a != WATER)
  {
  }

  // ---------------------------------------------------------------------------
  // Ambient occlusion

  /** The plane a face lies in, as passed to the sampler ('X', 'Y' or 'Z'). */
  datatype Plane = PlaneX | PlaneY | PlaneZ

  /** Occlusion counts at the four corners of a face. */
  datatype Ao = Ao(ao0: int, ao1: int, ao2: int, ao3: int)

  /** Samples a..h (k = 0..7) walk around the cell in the face's plane: with
      in-plane axes (u, v) they sit at (0,-1) (-1,-1) (-1,0) (-1,1) (0,1) (1,1)
      (1,0) (1,-1). */
  function RingU(k: int): int
    requires 0 <= k < 8
  {
    if k == 0 || k == 4 then 0 else if k < 4 then -1 else 1
  }

  function RingV(k: int): int
    requires 0 <= k < 8
  {
    if k == 2 || k == 6 then 0 else if 2 < k < 6 then 1 else -1
  }

  /** Offset of sample k (0..7 = a..h) around the cell in front of a face: the
      plane's (u, v) axes are (x, z) for Y, (y, z) for X and (y, x) for Z. */
  function SampleOffset(plane: Plane, k: int): IVec3
    requires 0 <= k < 8
  {
    match plane
    case PlaneY => IVec3(RingU(k), 0, RingV(k))
    case PlaneX => IVec3(0, RingU(k), RingV(k))
    case PlaneZ => IVec3(RingV(k), RingU(k), 0)
  }

  /** 1 if sample k around (local, world) is void, else 0. */
  function Sample(local: IVec3, world: IVec3, w: seq<seq<Byte>>, plane: Plane, k: int): (v: int)
    requires WorldShaped(w) && 0 <= k < 8
    ensures 0 <= v <= 1
  {
    var o := SampleOffset(plane, k);
    if IsVoid(local.Add(o), world.Add(o), w) then 1 else 0
  }

  /** The samples k..h (k = 0 is a) around the cell in front of a face. */
  function Samples(local: IVec3, world: IVec3, w: seq<seq<Byte>>, plane: Plane, k: int): (s: seq<int>)
    requires WorldShaped(w) && 0 <= k <= 8
    ensures |s| == 8 - k
    ensures forall i :: 0 <= i < |s| ==> 0 <= s[i] <= 1
    decreases 8 - k
  {
    if k == 8 then [] else [Sample(local, world, w, plane, k)] + Samples(local, world, w, plane, k + 1)
  }

  lemma {:induction false} SamplesAt(local: IVec3, world: IVec3, w: seq<seq<Byte>>, plane: Plane, k: int, i: int)
    requires WorldShaped(w) && 0 <= k <= i < 8
    ensures Samples(local, world, w, plane, k)[i - k] == Sample(local, world, w, plane, i)
    decreases i - k
  {
    if k < i {
      SamplesAt(local, world, w, plane, k + 1, i);
    }
  }

  /** `get_ambient_occlusion_value`: each corner counts the void samples among
      its two edge neighbours and its diagonal. In plane X the program assigns
      the h sample to `a` as well (`h = a = ...`), so `a` repeats `h` there. */
  function AmbientOcclusion(local: IVec3, world: IVec3, w: seq<seq<Byte>>, plane: Plane): (ao: Ao)
    requires WorldShaped(w)
    ensures 0 <= ao.ao0 <= 3 && 0 <= ao.ao1 <= 3 && 0 <= ao.ao2 <= 3 && 0 <= ao.ao3 <= 3
  {
    var s := Samples(local, world, w, plane, 0);
    var h := s[7];
    var a := if plane == PlaneX then h else s[0];
    Ao(a + s[1] + s[2], s[6] + h + a, s[4] + s[5] + s[6], s[2] + s[3] + s[4])
  }

  /** In plane X the first two corners both count the h sample, and the sample
      straight behind (offset (0, 0, -1)) is never consulted. */
  lemma AmbientOcclusionPlaneX(local: IVec3, world: IVec3, w: seq<seq<Byte>>)
    requires WorldShaped(w)
    ensures var ao := AmbientOcclusion(local, world, w, PlaneX);
      var h := Sample(local, world, w, PlaneX, 7);
      && ao.ao0 == h + Sample(local, world, w, PlaneX, 1) + Sample(local, world, w, PlaneX, 2)
      && ao.ao1 == Sample(local, world, w, PlaneX, 6) + 2 * h
  {
    SamplesAt(local, world, w, PlaneX, 0, 1);
    SamplesAt(local, world, w, PlaneX, 0, 2);
    SamplesAt(local, world, w, PlaneX, 0, 6);
    SamplesAt(local, world, w, PlaneX, 0, 7);
  }

  /** `flip_id`: flip the quad's diagonal when corners 1 and 3 are more open than 0 and 2. */
  function FlipId(ao: Ao): (flip: int)
    ensures flip == 0 || flip == 1
    ensures flip == 1 <==> ao.ao1 + ao.ao3 > ao.ao0 + ao.ao2
  {
    if ao.ao1 + ao.ao3 > ao.ao0 + ao.ao2 then 1 else 0
  }
}
