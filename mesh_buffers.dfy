/** The imperative mesher: the x, y, z loops over a chunk that fill the opaque
    and water vertex buffers, proved to produce exactly the streams of
    MeshStreams and never to write past the buffers. */
module MeshBuffers {
  import opened Settings
  import opened BlockType
  import opened TerrainGen
  import opened ChunkMeshBuilder
  import opened MeshStreams
  import opened MeshCapacity

  /** `add_data`: copies `vertices` into `data` from `index` on and returns the next free index. */
  method AddData(data: array<int>, index: int, vertices: seq<int>) returns (next: int)
    requires 0 <= index && index + |vertices| <= data.Length
    modifies data
    ensures next == index + |vertices|
    ensures data[..next] == old(data[..index]) + vertices
    ensures data[next..] == old(data[next..])
  {
    next := index;
    for i := 0 to |vertices|
      invariant next == index + i
      invariant data[..next] == old(data[..index]) + vertices[..i]
      invariant data[index + |vertices|..] == old(data[index + |vertices|..])
    {
      data[next] := vertices[i];
      next := next + 1;
    }
  }

  /** One face block of `build_chunk_mesh`: looks up the neighbour, and when the
      face is visible packs its four vertices with their occlusion levels and
      appends the two triangles to the buffer the voxel's id selects. */
  method EmitFace(cv: seq<Byte>, pos: IVec3, w: seq<seq<Byte>>, ghost p: int, l: IVec3, voxelId: Byte, face: int,
                  solidData: array<int>, solidIndex: int, waterData: array<int>, waterIndex: int)
    returns (solidNext: int, waterNext: int)
    requires BuildInputs(cv, w) && 0 <= p < CHUNK_VOL && l == Cell(p) && 0 <= face < 6
    requires voxelId == VoxelAt(cv, p) && voxelId != VOID
    requires solidData != waterData
    requires 0 <= solidIndex && solidIndex + |FaceWords(cv, pos, w, p, face, false)| <= solidData.Length
    requires 0 <= waterIndex && waterIndex + |FaceWords(cv, pos, w, p, face, true)| <= waterData.Length
    modifies solidData, waterData
    ensures solidNext == solidIndex + |FaceWords(cv, pos, w, p, face, false)|
    ensures waterNext == waterIndex + |FaceWords(cv, pos, w, p, face, true)|
    ensures solidData[..solidNext] == old(solidData[..solidIndex]) + FaceWords(cv, pos, w, p, face, false)
    ensures waterData[..waterNext] == old(waterData[..waterIndex]) + FaceWords(cv, pos, w, p, face, true)
  {
    solidNext, waterNext := solidIndex, waterIndex;
    var world := WorldPos(pos, l);
    var n := FaceNormal(face);
    var neighbourId := GetVoxelIdAt(l.Add(n), world.Add(n), w);
    if ShouldRenderFace(voxelId, neighbourId) {
      var ao := AmbientOcclusion(l.Add(n), world.Add(n), w, FacePlane(face));
      var flip := FlipId(ao);
      var c0, c1, c2, c3 := l.Add(Corner(face, 0)), l.Add(Corner(face, 1)), l.Add(Corner(face, 2)), l.Add(Corner(face, 3));
      var v0 := PackData(c0.x, c0.y, c0.z, voxelId, face, ao.ao0, flip);
      var v1 := PackData(c1.x, c1.y, c1.z, voxelId, face, ao.ao1, flip);
      var v2 := PackData(c2.x, c2.y, c2.z, voxelId, face, ao.ao2, flip);
      var v3 := PackData(c3.x, c3.y, c3.z, voxelId, face, ao.ao3, flip);
      var v := [v0, v1, v2, v3];
      var order := TriangleOrder(face, flip == 1);
      var words := Arrange(v, order);
      assert v == [FaceVertex(l, voxelId, face, ao, flip, 0), FaceVertex(l, voxelId, face, ao, flip, 1),
                   FaceVertex(l, voxelId, face, ao, flip, 2), FaceVertex(l, voxelId, face, ao, flip, 3)];
      if voxelId == WATER {
        waterNext := AddData(waterData, waterIndex, words);
      } else {
        solidNext := AddData(solidData, solidIndex, words);
      }
    }
  }

  /** The six face blocks for one non-void voxel, top to front. */
  method EmitVoxel(cv: seq<Byte>, pos: IVec3, w: seq<seq<Byte>>, ghost p: int, l: IVec3, voxelId: Byte,
                   solidData: array<int>, solidIndex: int, waterData: array<int>, waterIndex: int)
    returns (solidNext: int, waterNext: int)
    requires BuildInputs(cv, w) && 0 <= p < CHUNK_VOL && l == Cell(p)
    requires voxelId == VoxelAt(cv, p) && voxelId != VOID
    requires solidData != waterData
    requires 0 <= solidIndex && solidIndex + |CellWords(cv, pos, w, p, false)| <= solidData.Length
    requires 0 <= waterIndex && waterIndex + |CellWords(cv, pos, w, p, true)| <= waterData.Length
    modifies solidData, waterData
    ensures solidNext == solidIndex + |CellWords(cv, pos, w, p, false)|
    ensures waterNext == waterIndex + |CellWords(cv, pos, w, p, true)|
    ensures solidData[..solidNext] == old(solidData[..solidIndex]) + CellWords(cv, pos, w, p, false)
    ensures waterData[..waterNext] == old(waterData[..waterIndex]) + CellWords(cv, pos, w, p, true)
  {
    ghost var solid, water := FaceWordsOf(cv, pos, w, p, false), FaceWordsOf(cv, pos, w, p, true);
    ghost var solid0, water0 := solidData[..solidIndex], waterData[..waterIndex];
    solidNext, waterNext := solidIndex, waterIndex;
    solidNext, waterNext := EmitFace(cv, pos, w, p, l, voxelId, 0, solidData, solidNext, waterData, waterNext);
    assert solidData[..solidNext] == solid0 + solid(0) && waterData[..waterNext] == water0 + water(0);
    solidNext, waterNext := EmitFace(cv, pos, w, p, l, voxelId, 1, solidData, solidNext, waterData, waterNext);
    assert solidData[..solidNext] == solid0 + solid(0) + solid(1);
    assert waterData[..waterNext] == water0 + water(0) + water(1);
    solidNext, waterNext := EmitFace(cv, pos, w, p, l, voxelId, 2, solidData, solidNext, waterData, waterNext);
    assert solidData[..solidNext] == solid0 + solid(0) + solid(1) + solid(2);
    assert waterData[..waterNext] == water0 + water(0) + water(1) + water(2);
    solidNext, waterNext := EmitFace(cv, pos, w, p, l, voxelId, 3, solidData, solidNext, waterData, waterNext);
    assert solidData[..solidNext] == solid0 + solid(0) + solid(1) + solid(2) + solid(3);
    assert waterData[..waterNext] == water0 + water(0) + water(1) + water(2) + water(3);
    solidNext, waterNext := EmitFace(cv, pos, w, p, l, voxelId, 4, solidData, solidNext, waterData, waterNext);
    assert solidData[..solidNext] == solid0 + solid(0) + solid(1) + solid(2) + solid(3) + solid(4);
    assert waterData[..waterNext] == water0 + water(0) + water(1) + water(2) + water(3) + water(4);
    solidNext, waterNext := EmitFace(cv, pos, w, p, l, voxelId, 5, solidData, solidNext, waterData, waterNext);
    assert solidData[..solidNext] == solid0 + solid(0) + solid(1) + solid(2) + solid(3) + solid(4) + solid(5);
    assert waterData[..waterNext] == water0 + water(0) + water(1) + water(2) + water(3) + water(4) + water(5);
    AppendConcatSix(solid0, solid);
    AppendConcatSix(water0, water);
  }

  /** The loop counters `x`, `y`, `z` of the mesher visit loop position
      `p == 1024 * x + 32 * y + z`, whose voxel is the one they index in storage order. */
  lemma LoopCell(cv: seq<Byte>, x: int, y: int, z: int, p: int)
    requires |cv| == CHUNK_VOL && InChunk(IVec3(x, y, z)) && p == 1024 * x + 32 * y + z
    ensures 0 <= p < CHUNK_VOL && Cell(p) == IVec3(x, y, z)
    ensures 0 <= x + CHUNK_SIZE * z + CHUNK_AREA * y < CHUNK_VOL
    ensures VoxelAt(cv, p) == cv[x + CHUNK_SIZE * z + CHUNK_AREA * y]
  {
    CellRoundTrip(IVec3(x, y, z));
  }

  /** `parts` gives the words of every loop position of one stream. The
      fill loops carry the stream as `Concat(parts, p)` and learn what a part
      holds only where a voxel's own words are in view. */
  predicate IsCellTable(parts: int -> seq<int>, cv: seq<Byte>, pos: IVec3, w: seq<seq<Byte>>, water: bool)
    requires BuildInputs(cv, w)
  {
    forall q {:trigger CellWords(cv, pos, w, q, water)} :: 0 <= q < CHUNK_VOL ==> parts(q) == CellWords(cv, pos, w, q, water)
  }

  /** The inputs of the fill loops: a chunk stored in its own slot of the
      world, and the cell tables of both streams. */
  predicate FillTables(cv: seq<Byte>, pos: IVec3, w: seq<seq<Byte>>,
                       solidParts: int -> seq<int>, waterParts: int -> seq<int>)
  {
    && BuildInputs(cv, w) && InWorld(pos) && cv == w[ChunkSlot(pos)]
    && IsCellTable(solidParts, cv, pos, w, false) && IsCellTable(waterParts, cv, pos, w, true)
  }

  lemma CellTable(cv: seq<Byte>, pos: IVec3, w: seq<seq<Byte>>, water: bool) returns (parts: int -> seq<int>)
    requires BuildInputs(cv, w)
    ensures IsCellTable(parts, cv, pos, w, water)
  {
    parts := CellWordsOf(cv, pos, w, water);
  }

  /** The first `n` parts of a cell table concatenate to the stream after `n` positions. */
  lemma TableStream(parts: int -> seq<int>, cv: seq<Byte>, pos: IVec3, w: seq<seq<Byte>>, n: int, water: bool)
    requires BuildInputs(cv, w) && IsCellTable(parts, cv, pos, w, water) && 0 <= n <= CHUNK_VOL
    ensures Concat(parts, n) == Stream(cv, pos, w, n, water)
  {
    var cells := CellWordsOf(cv, pos, w, water);
    forall q | 0 <= q < n
      ensures parts(q) == cells(q)
    {
      assert cells(q) == CellWords(cv, pos, w, q, water);
    }
    ConcatAgree(parts, cells, n);
  }

  /** Concatenations of pieces that agree below `n` agree. */
  lemma {:induction false} ConcatAgree(parts: int -> seq<int>, others: int -> seq<int>, n: int)
    requires forall q :: 0 <= q < n ==> parts(q) == others(q)
    ensures Concat(parts, n) == Concat(others, n)
    decreases n
  {
    if n > 0 {
      ConcatAgree(parts, others, n - 1);
    }
  }

  /** The two output buffers: distinct, each with room for a chunk's worst case. */
  predicate Buffers(solidData: array<int>, waterData: array<int>) {
    solidData != waterData && solidData.Length >= CHUNK_VOL * 18 && waterData.Length >= CHUNK_VOL * 18
  }

  /** The buffers' filled prefixes hold the words of the first `p` loop positions. */
  ghost predicate Filled(solidData: array<int>, solidIndex: int, solidParts: int -> seq<int>,
                         waterData: array<int>, waterIndex: int, waterParts: int -> seq<int>, p: int)
    reads solidData, waterData
  {
    && 0 <= solidIndex <= solidData.Length && solidData[..solidIndex] == Concat(solidParts, p)
    && 0 <= waterIndex <= waterData.Length && waterData[..waterIndex] == Concat(waterParts, p)
  }

  /** One pass of the mesher's innermost loop body: reads the voxel at local
      `(x, y, z)`, skips it when void, and otherwise appends its faces. Both
      buffers then hold their streams up to and including loop position `p`. */
  method VisitCell(cv: seq<Byte>, pos: IVec3, w: seq<seq<Byte>>, x: int, y: int, z: int, ghost p: int,
                   ghost solidParts: int -> seq<int>, ghost waterParts: int -> seq<int>,
                   solidData: array<int>, solidIndex: int, waterData: array<int>, waterIndex: int)
    returns (solidNext: int, waterNext: int)
    requires FillTables(cv, pos, w, solidParts, waterParts)
    requires InChunk(IVec3(x, y, z)) && p == 1024 * x + 32 * y + z
    requires Buffers(solidData, waterData)
    requires 0 <= solidIndex <= solidData.Length && solidData[..solidIndex] == Concat(solidParts, p)
    requires 0 <= waterIndex <= waterData.Length && waterData[..waterIndex] == Concat(waterParts, p)
    modifies solidData, waterData
    ensures 0 <= solidNext <= solidData.Length && solidData[..solidNext] == Concat(solidParts, p + 1)
    ensures 0 <= waterNext <= waterData.Length && waterData[..waterNext] == Concat(waterParts, p + 1)
  {
    LoopCell(cv, x, y, z, p);
    TableStream(solidParts, cv, pos, w, p, false);
    TableStream(waterParts, cv, pos, w, p, true);
    TableStream(solidParts, cv, pos, w, p + 1, false);
    TableStream(waterParts, cv, pos, w, p + 1, true);
    var voxelId := cv[x + CHUNK_SIZE * z + CHUNK_AREA * y];
    if voxelId == VOID {
      VoidStep(cv, pos, w, p, false);
      VoidStep(cv, pos, w, p, true);
      return solidIndex, waterIndex;
    }
    CellFits(cv, pos, w, p, false);
    CellFits(cv, pos, w, p, true);
    solidNext, waterNext := EmitVoxel(cv, pos, w, p, IVec3(x, y, z), voxelId, solidData, solidIndex, waterData, waterIndex);
  }

  /** The `z` loop of `build_chunk_mesh` for one `x, y`: the 32 positions
      from `p0` on append their words to both buffers. */
  method FillRow(cv: seq<Byte>, pos: IVec3, w: seq<seq<Byte>>, x: int, y: int, ghost p0: int,
                 ghost solidParts: int -> seq<int>, ghost waterParts: int -> seq<int>,
                 solidData: array<int>, solidIndex: int, waterData: array<int>, waterIndex: int)
    returns (solidNext: int, waterNext: int)
    requires FillTables(cv, pos, w, solidParts, waterParts)
    requires 0 <= x < CHUNK_SIZE && 0 <= y < CHUNK_SIZE && p0 == 1024 * x + 32 * y
    requires Buffers(solidData, waterData)
    requires Filled(solidData, solidIndex, solidParts, waterData, waterIndex, waterParts, p0)
    modifies solidData, waterData
    ensures Filled(solidData, solidNext, solidParts, waterData, waterNext, waterParts, p0 + 32)
  {
    solidNext, waterNext := solidIndex, waterIndex;
    ghost var p := p0;
    var z := 0;
    while z < CHUNK_SIZE
      invariant 0 <= z <= CHUNK_SIZE && p == p0 + z
      invariant Filled(solidData, solidNext, solidParts, waterData, waterNext, waterParts, p)
    {
      solidNext, waterNext := VisitCell(cv, pos, w, x, y, z, p, solidParts, waterParts,
                                        solidData, solidNext, waterData, waterNext);
      p := p + 1;
      z := z + 1;
    }
  }

  /** The `y` loop of `build_chunk_mesh` for one `x`: the 1024 positions
      from `p0` on append their words to both buffers. */
  method FillLayer(cv: seq<Byte>, pos: IVec3, w: seq<seq<Byte>>, x: int, ghost p0: int,
                   ghost solidParts: int -> seq<int>, ghost waterParts: int -> seq<int>,
                   solidData: array<int>, solidIndex: int, waterData: array<int>, waterIndex: int)
    returns (solidNext: int, waterNext: int)
    requires FillTables(cv, pos, w, solidParts, waterParts)
    requires 0 <= x < CHUNK_SIZE && p0 == 1024 * x
    requires Buffers(solidData, waterData)
    requires Filled(solidData, solidIndex, solidParts, waterData, waterIndex, waterParts, p0)
    modifies solidData, waterData
    ensures Filled(solidData, solidNext, solidParts, waterData, waterNext, waterParts, p0 + 1024)
  {
    solidNext, waterNext := solidIndex, waterIndex;
    ghost var p := p0;
    var y := 0;
    while y < CHUNK_SIZE
      invariant 0 <= y <= CHUNK_SIZE && p == p0 + 32 * y
      invariant Filled(solidData, solidNext, solidParts, waterData, waterNext, waterParts, p)
    {
      solidNext, waterNext := FillRow(cv, pos, w, x, y, p, solidParts, waterParts,
                                      solidData, solidNext, waterData, waterNext);
      p := p + 32;
      y := y + 1;
    }
  }

  /** The x, y, z loops of `build_chunk_mesh`: every non-void voxel of the chunk
      appends its faces, so the buffers end up holding the two full streams. */
  method FillBuffers(cv: seq<Byte>, pos: IVec3, w: seq<seq<Byte>>, solidData: array<int>, waterData: array<int>)
    returns (solidIndex: int, waterIndex: int)
    requires BuildInputs(cv, w) && InWorld(pos) && cv == w[ChunkSlot(pos)]
    requires Buffers(solidData, waterData)
    modifies solidData, waterData
    ensures 0 <= solidIndex <= solidData.Length && solidData[..solidIndex] == FullStream(cv, pos, w, false)
    ensures 0 <= waterIndex <= waterData.Length && waterData[..waterIndex] == FullStream(cv, pos, w, true)
  {
    ghost var solidParts := CellTable(cv, pos, w, false);
    ghost var waterParts := CellTable(cv, pos, w, true);
    assert FillTables(cv, pos, w, solidParts, waterParts);
    solidIndex, waterIndex := 0, 0;
    ghost var p := 0;
    var x := 0;
    while x < CHUNK_SIZE
      invariant 0 <= x <= CHUNK_SIZE && p == 1024 * x
      invariant Filled(solidData, solidIndex, solidParts, waterData, waterIndex, waterParts, p)
    {
      solidIndex, waterIndex := FillLayer(cv, pos, w, x, p, solidParts, waterParts,
                                          solidData, solidIndex, waterData, waterIndex);
      p := p + 1024;
      x := x + 1;
    }
    TableStream(solidParts, cv, pos, w, CHUNK_VOL, false);
    TableStream(waterParts, cv, pos, w, CHUNK_VOL, true);
  }

  /** End of the slice `data[:index + 1]`: numpy clips a slice end at the length. */
  function SliceEnd(index: int, length: int): (e: int)
    requires 0 <= index <= length
    ensures e == if index < length then index + 1 else length
    ensures index <= e <= length
  {
    if index + 1 <= length then index + 1 else length
  }

  /** `mesh` is a buffer slice that starts with the whole stream `s` and keeps
      one word past it, unless the buffer of `capacity` words has no room for it. */
  predicate SliceOfStream(mesh: seq<int>, s: seq<int>, capacity: int) {
    |s| <= |mesh| <= |s| + 1 && mesh[..|s|] == s && (|s| < capacity ==> |mesh| == |s| + 1)
  }

  /** `data[:index + 1]` on a buffer whose first `index` words are the stream `s`. */
  method SliceAsWritten(data: array<int>, index: int, ghost s: seq<int>) returns (mesh: seq<int>)
    requires 0 <= index <= data.Length && data[..index] == s
    ensures SliceOfStream(mesh, s, data.Length)
  {
    mesh := data[..SliceEnd(index, data.Length)];
    assert mesh[..index] == data[..index];
  }

  /** `build_chunk_mesh` as written: allocates two buffers of
      `CHUNK_VOL * 18 * formatSize` words, fills them, and returns each buffer
      up to one past its last written word. The extra word is whatever the
      uninitialised buffer holds there. */
  method BuildChunkMesh(cv: seq<Byte>, formatSize: int, pos: IVec3, w: seq<seq<Byte>>)
    returns (solid: seq<int>, water: seq<int>)
    requires BuildInputs(cv, w) && InWorld(pos) && cv == w[ChunkSlot(pos)] && formatSize >= 1
    ensures SliceOfStream(solid, FullStream(cv, pos, w, false), CHUNK_VOL * 18 * formatSize)
    ensures SliceOfStream(water, FullStream(cv, pos, w, true), CHUNK_VOL * 18 * formatSize)
  {
    var solidData, waterData := AllocateBuffers(formatSize);
    var solidIndex, waterIndex := FillBuffers(cv, pos, w, solidData, waterData);
    solid := SliceAsWritten(solidData, solidIndex, FullStream(cv, pos, w, false));
    water := SliceAsWritten(waterData, waterIndex, FullStream(cv, pos, w, true));
  }

  /** The corrected mesher: each buffer up to its next free index, exactly its stream. */
  method BuildChunkMeshExact(cv: seq<Byte>, formatSize: int, pos: IVec3, w: seq<seq<Byte>>)
    returns (solid: seq<int>, water: seq<int>)
    requires BuildInputs(cv, w) && InWorld(pos) && cv == w[ChunkSlot(pos)] && formatSize >= 1
    ensures solid == FullStream(cv, pos, w, false)
    ensures water == FullStream(cv, pos, w, true)
  {
    var solidData, waterData := AllocateBuffers(formatSize);
    var solidIndex, waterIndex := FillBuffers(cv, pos, w, solidData, waterData);
    solid := solidData[..solidIndex];
    water := waterData[..waterIndex];
  }

  /** `numpy.empty(CHUNK_VOL * 18 * format_size)` twice: two fresh buffers of unspecified contents. */
  method AllocateBuffers(formatSize: int) returns (solidData: array<int>, waterData: array<int>)
    requires formatSize >= 1
    ensures fresh(solidData) && fresh(waterData) && solidData != waterData
    ensures solidData.Length == CHUNK_VOL * 18 * formatSize && waterData.Length == CHUNK_VOL * 18 * formatSize
    ensures solidData.Length >= CHUNK_VOL * 18 && waterData.Length >= CHUNK_VOL * 18
  {
    MulAtLeast(formatSize, CHUNK_VOL * 18);
    solidData := new int[CHUNK_VOL * 18 * formatSize];
    waterData := new int[CHUNK_VOL * 18 * formatSize];
  }

  /** The slice as written keeps a word past the stream whenever there is room:
      for an empty chunk the streams are empty, yet each mesh the as-written
      builder returns holds one word. */
  lemma EmptyChunkExtraWord(cv: seq<Byte>, pos: IVec3, w: seq<seq<Byte>>, formatSize: int, water: bool, mesh: seq<int>)
    requires BuildInputs(cv, w) && formatSize >= 1
    requires forall i :: 0 <= i < CHUNK_VOL ==> cv[i] == VOID
    requires SliceOfStream(mesh, FullStream(cv, pos, w, water), CHUNK_VOL * 18 * formatSize)
    ensures FullStream(cv, pos, w, water) == [] && |mesh| == 1
  {
    EmptyChunkEmptyStreams(cv, pos, w, water);
    MulAtLeast(formatSize, CHUNK_VOL * 18);
  }
}
