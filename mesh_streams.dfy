/** What the chunk mesher emits, as functions of the voxel data: the six packed
    words of one visible face, the words of one voxel, and the opaque and water
    streams in the order of the x, y, z loops. Also the capacity argument: no
    stream is longer than the buffer the mesher allocates. */
module MeshStreams {
  import opened Settings
  import opened BlockType
  import opened TerrainGen
  import opened ChunkMeshBuilder

  // ---------------------------------------------------------------------------
  // Face geometry (0 top, 1 bottom, 2 right, 3 left, 4 back, 5 front)

  /** Offset from a voxel to the neighbour across face `face`. */
  function FaceNormal(face: int): IVec3
    requires 0 <= face < 6
  {
    match face
    case 0 => IVec3(0, 1, 0)
    case 1 => IVec3(0, -1, 0)
    case 2 => IVec3(1, 0, 0)
    case 3 => IVec3(-1, 0, 0)
    case 4 => IVec3(0, 0, -1)
    case _ => IVec3(0, 0, 1)
  }

  /** The plane passed to the occlusion sampler for each face. */
  function FacePlane(face: int): Plane
    requires 0 <= face < 6
  {
    if face < 2 then PlaneY else if face < 4 then PlaneX else PlaneZ
  }

  /** Offset from the voxel's own corner to vertex `k` (v0..v3) of face `face`. */
  function Corner(face: int, k: int): (o: IVec3)
    requires 0 <= face < 6 && 0 <= k < 4
    ensures 0 <= o.x <= 1 && 0 <= o.y <= 1 && 0 <= o.z <= 1
  {
    // Two of the coordinates run around the face as (0,0) (0,1) (1,1) (1,0)
    // or (0,0) (1,0) (1,1) (0,1); the third is fixed by the face.
    var lo := if k == 0 || k == 3 then 0 else 1;  // 0 1 1 0
    var hi := if k < 2 then 0 else 1;             // 0 0 1 1
    match face
    case 0 => IVec3(lo, 1, hi)
    case 1 => IVec3(lo, 0, hi)
    case 2 => IVec3(1, lo, hi)
    case 3 => IVec3(0, lo, hi)
    case 4 => IVec3(hi, lo, 0)
    case _ => IVec3(hi, lo, 1)
  }

  /** The vertex order of the two triangles of a face, by face and flip flag. */
  function TriangleOrder(face: int, flip: bool): (order: seq<int>)
    requires 0 <= face < 6
    ensures |order| == 6 && forall j :: 0 <= j < 6 ==> 0 <= order[j] < 4
  {
    match face
    case 0 => if flip then [1, 0, 3, 1, 3, 2] else [0, 3, 2, 0, 2, 1]
    case 1 => if flip then [1, 3, 0, 1, 2, 3] else [0, 2, 3, 0, 1, 2]
    case 2 => if flip then [3, 0, 1, 3, 1, 2] else [0, 1, 2, 0, 2, 3]
    case 3 => if flip then [3, 1, 0, 3, 2, 1] else [0, 2, 1, 0, 3, 2]
    case 4 => if flip then [3, 0, 1, 3, 1, 2] else [0, 1, 2, 0, 2, 3]
    case _ => if flip then [3, 1, 0, 3, 2, 1] else [0, 2, 1, 0, 3, 2]
  }

  /** Each face is split into two proper triangles covering all four corners,
      which share the v1-v3 diagonal when the flip flag is set and the v0-v2
      diagonal otherwise. */
  lemma TriangulationFollowsFlip(face: int, flip: bool)
    requires 0 <= face < 6
    ensures var order := TriangleOrder(face, flip);
      && order[0] != order[1] && order[1] != order[2] && order[0] != order[2]
      && order[3] != order[4] && order[4] != order[5] && order[3] != order[5]
      && (forall k :: 0 <= k < 4 ==> k in order)
      && (forall k :: 0 <= k < 4 ==>
            (k in order[..3] && k in order[3..] <==> (if flip then k % 2 == 1 else k % 2 == 0)))
  {
    var order := TriangleOrder(face, flip);
    forall k | 0 <= k < 4
      ensures k in order
      ensures k in order[..3] && k in order[3..] <==> (if flip then k % 2 == 1 else k % 2 == 0)
    {
      assert order[..3] == [order[0], order[1], order[2]];
      assert order[3..] == [order[3], order[4], order[5]];
      if face == 0 {
      } else if face == 1 {
      } else if face == 2 {
      } else if face == 3 {
      } else if face == 4 {
      } else {
      }
    }
  }

  // ---------------------------------------------------------------------------
  // Words of one face, one voxel, one stream

  /** The chunk-local cell visited at position `p` of the x, y, z loops (z innermost). */
  function Cell(p: int): (l: IVec3)
    requires 0 <= p < CHUNK_VOL
    ensures InChunk(l)
  {
    IVec3(p / CHUNK_AREA, (p / CHUNK_SIZE) % CHUNK_SIZE, p % CHUNK_SIZE)
  }

  /** World position of a local cell of the chunk at chunk coordinate `pos`. */
  function WorldPos(pos: IVec3, l: IVec3): IVec3 {
    IVec3(l.x + pos.x * CHUNK_SIZE, l.y + pos.y * CHUNK_SIZE, l.z + pos.z * CHUNK_SIZE)
  }

  /** The arguments of one build: chunk voxels, chunk position, world voxels. */
  predicate BuildInputs(cv: seq<Byte>, w: seq<seq<Byte>>) {
    |cv| == CHUNK_VOL && WorldShaped(w)
  }

  /** Occlusion levels of one face, as the sampler produces them. */
  predicate AoInRange(ao: Ao) {
    0 <= ao.ao0 <= 3 && 0 <= ao.ao1 <= 3 && 0 <= ao.ao2 <= 3 && 0 <= ao.ao3 <= 3
  }

  function AoOf(ao: Ao, k: int): int
    requires 0 <= k < 4
  {
    [ao.ao0, ao.ao1, ao.ao2, ao.ao3][k]
  }

  /** Vertex v`k` of face `face` of the voxel at local cell `l`, packed. */
  function FaceVertex(l: IVec3, voxelId: Byte, face: int, ao: Ao, flip: int, k: int): int
    requires InChunk(l) && 0 <= face < 6 && AoInRange(ao) && 0 <= flip <= 1 && 0 <= k < 4
  {
    var c := l.Add(Corner(face, k));
    PackData(c.x, c.y, c.z, voxelId, face, AoOf(ao, k), flip)
  }

  /** The vertices `v` listed in the order `order` (what `add_data` receives). */
  function Arrange(v: seq<int>, order: seq<int>): (r: seq<int>)
    requires |v| == 4 && |order| == 6 && forall j :: 0 <= j < 6 ==> 0 <= order[j] < 4
    ensures |r| == 6 && forall j :: 0 <= j < 6 ==> r[j] == v[order[j]]
  {
    [v[order[0]], v[order[1]], v[order[2]], v[order[3]], v[order[4]], v[order[5]]]
  }

  /** The six words of face `face` of the voxel at local cell `l`: the packed
      vertices v0..v3 in the triangle order the flip flag selects. */
  function FaceQuad(w: seq<seq<Byte>>, pos: IVec3, l: IVec3, voxelId: Byte, face: int): (words: seq<int>)
    requires WorldShaped(w) && InChunk(l) && 0 <= face < 6
    ensures |words| == 6
  {
    var n := FaceNormal(face);
    var ao := AmbientOcclusion(l.Add(n), WorldPos(pos, l).Add(n), w, FacePlane(face));
    var flip := FlipId(ao);
    var v := [FaceVertex(l, voxelId, face, ao, flip, 0), FaceVertex(l, voxelId, face, ao, flip, 1),
              FaceVertex(l, voxelId, face, ao, flip, 2), FaceVertex(l, voxelId, face, ao, flip, 3)];
    Arrange(v, TriangleOrder(face, flip == 1))
  }

  /** A voxel of id `a` next to `b` puts a face into the water stream (`water`)
      or the opaque stream (`!water`). Routing follows the voxel's own id. */
  predicate Emit(water: bool, a: int, b: int) {
    a != VOID && (a == WATER) == water && ShouldRenderFace(a, b)
  }

  /** The id of the voxel at loop position `p`. */
  function VoxelAt(cv: seq<Byte>, p: int): Byte
    requires |cv| == CHUNK_VOL && 0 <= p < CHUNK_VOL
  {
    var l := Cell(p);
    cv[GetIndex(l.x, l.y, l.z)]
  }

  /** The id the mesher looks up across face `face` of the voxel at `p`. */
  function Neighbour(pos: IVec3, w: seq<seq<Byte>>, p: int, face: int): Byte
    requires WorldShaped(w) && 0 <= p < CHUNK_VOL && 0 <= face < 6
  {
    var l := Cell(p);
    var n := FaceNormal(face);
    GetVoxelIdAt(l.Add(n), WorldPos(pos, l).Add(n), w)
  }

  /** The voxel at loop position `p` draws face `face` into the given stream. */
  predicate Emits(cv: seq<Byte>, pos: IVec3, w: seq<seq<Byte>>, p: int, face: int, water: bool)
    requires BuildInputs(cv, w) && 0 <= p < CHUNK_VOL && 0 <= face < 6
  {
    Emit(water, VoxelAt(cv, p), Neighbour(pos, w, p, face))
  }

  /** The words face `face` of the voxel at `p` contributes to the stream. */
  function FaceWords(cv: seq<Byte>, pos: IVec3, w: seq<seq<Byte>>, p: int, face: int, water: bool): (words: seq<int>)
    requires BuildInputs(cv, w) && 0 <= p < CHUNK_VOL && 0 <= face < 6
    ensures |words| == if Emits(cv, pos, w, p, face, water) then 6 else 0
  {
    if Emits(cv, pos, w, p, face, water) then FaceQuad(w, pos, Cell(p), VoxelAt(cv, p), face) else []
  }

  /** The words of each face of the voxel at `p`, empty for other face ids. */
  function FaceWordsOf(cv: seq<Byte>, pos: IVec3, w: seq<seq<Byte>>, p: int, water: bool): int -> seq<int>
    requires BuildInputs(cv, w) && 0 <= p < CHUNK_VOL
  {
    face => if 0 <= face < 6 then FaceWords(cv, pos, w, p, face, water) else []
  }

  /** All words the voxel at `p` contributes to the stream, faces in the
      mesher's order: top, bottom, right, left, back, front. */
  function CellWords(cv: seq<Byte>, pos: IVec3, w: seq<seq<Byte>>, p: int, water: bool): seq<int>
    requires BuildInputs(cv, w) && 0 <= p < CHUNK_VOL
  {
    Concat(FaceWordsOf(cv, pos, w, p, water), 6)
  }

  /** The words of every loop position, empty outside the chunk. */
  function CellWordsOf(cv: seq<Byte>, pos: IVec3, w: seq<seq<Byte>>, water: bool): int -> seq<int>
    requires BuildInputs(cv, w)
  {
    p => if 0 <= p < CHUNK_VOL then CellWords(cv, pos, w, p, water) else []
  }

  /** The pieces 0..n-1 of `parts`, concatenated in order. */
  function Concat(parts: int -> seq<int>, n: int): seq<int>
    decreases n
  {
    if n <= 0 then [] else Concat(parts, n - 1) + parts(n - 1)
  }

  lemma ConcatSix(parts: int -> seq<int>)
    ensures Concat(parts, 6) == parts(0) + parts(1) + parts(2) + parts(3) + parts(4) + parts(5)
  {
    assert Concat(parts, 2) == parts(0) + parts(1);
    assert Concat(parts, 4) == parts(0) + parts(1) + parts(2) + parts(3);
  }

  lemma AppendConcatSix(prefix: seq<int>, parts: int -> seq<int>)
    ensures prefix + Concat(parts, 6) == prefix + parts(0) + parts(1) + parts(2) + parts(3) + parts(4) + parts(5)
  {
    ConcatSix(parts);
  }

  /** The stream after the voxels at loop positions 0..n-1. */
  function Stream(cv: seq<Byte>, pos: IVec3, w: seq<seq<Byte>>, n: int, water: bool): seq<int>
    requires BuildInputs(cv, w)
  {
    Concat(CellWordsOf(cv, pos, w, water), n)
  }

  /** The whole opaque (`!water`) or water stream of one chunk. */
  function FullStream(cv: seq<Byte>, pos: IVec3, w: seq<seq<Byte>>, water: bool): seq<int>
    requires BuildInputs(cv, w)
  {
    Stream(cv, pos, w, CHUNK_VOL, water)
  }

  /** The stream grows by the words of one voxel per loop position. */
  lemma StreamStep(cv: seq<Byte>, pos: IVec3, w: seq<seq<Byte>>, n: int, water: bool)
    requires BuildInputs(cv, w) && 0 <= n < CHUNK_VOL
    ensures Stream(cv, pos, w, n + 1, water) == Stream(cv, pos, w, n, water) + CellWords(cv, pos, w, n, water)
  {
  }

  /** A void voxel leaves both streams as they were. */
  lemma VoidStep(cv: seq<Byte>, pos: IVec3, w: seq<seq<Byte>>, p: int, water: bool)
    requires BuildInputs(cv, w) && 0 <= p < CHUNK_VOL && VoxelAt(cv, p) == VOID
    ensures Stream(cv, pos, w, p + 1, water) == Stream(cv, pos, w, p, water)
  {
    StreamStep(cv, pos, w, p, water);
    VoidCellEmitsNothing(cv, pos, w, p, water);
  }

  // ---------------------------------------------------------------------------
  // What a face emits

  /** A packed vertex carries the face id, the voxel's id, the corner's
      coordinates, its occlusion level and the flip flag, each recoverable. */
  lemma FaceVertexFields(l: IVec3, voxelId: Byte, face: int, ao: Ao, flip: int, k: int)
    requires InChunk(l) && 0 <= face < 6 && AoInRange(ao) && 0 <= flip <= 1 && 0 <= k < 4
    ensures var word, c := FaceVertex(l, voxelId, face, ao, flip, k), l.Add(Corner(face, k));
      && Field(word, X_SHIFT, 64) == c.x && Field(word, Y_SHIFT, 64) == c.y && Field(word, Z_SHIFT, 64) == c.z
      && Field(word, ID_SHIFT, 256) == voxelId && Field(word, FACE_SHIFT, 8) == face
      && Field(word, AO_SHIFT, 4) == AoOf(ao, k) && Field(word, 1, 2) == flip
  {
    var c := l.Add(Corner(face, k));
    UnpackPackData(c.x, c.y, c.z, voxelId, face, AoOf(ao, k), flip);
  }

  /** The words of a drawn face all carry the face id, the voxel's id, and
      vertex coordinates in [0, CHUNK_SIZE] at most one step from the voxel's
      own corner; an ambient-occlusion level in [0, 3] completes each word. */
  lemma FaceQuadFields(w: seq<seq<Byte>>, pos: IVec3, l: IVec3, voxelId: Byte, face: int, j: int)
    requires WorldShaped(w) && InChunk(l) && 0 <= face < 6 && 0 <= j < 6
    ensures var word := FaceQuad(w, pos, l, voxelId, face)[j];
      && Field(word, FACE_SHIFT, 8) == face
      && Field(word, ID_SHIFT, 256) == voxelId
      && 0 <= Field(word, X_SHIFT, 64) <= CHUNK_SIZE
      && 0 <= Field(word, Y_SHIFT, 64) <= CHUNK_SIZE
      && 0 <= Field(word, Z_SHIFT, 64) <= CHUNK_SIZE
      && Field(word, X_SHIFT, 64) - l.x in {0, 1}
      && Field(word, Y_SHIFT, 64) - l.y in {0, 1}
      && Field(word, Z_SHIFT, 64) - l.z in {0, 1}
      && 0 <= Field(word, AO_SHIFT, 4) <= 3
  {
    var n := FaceNormal(face);
    var ao := AmbientOcclusion(l.Add(n), WorldPos(pos, l).Add(n), w, FacePlane(face));
    var flip := FlipId(ao);
    var k := TriangleOrder(face, flip == 1)[j];
    assert FaceQuad(w, pos, l, voxelId, face)[j] == FaceVertex(l, voxelId, face, ao, flip, k);
    FaceVertexFields(l, voxelId, face, ao, flip, k);
  }

  /** A void voxel contributes nothing to either stream. */
  lemma VoidCellEmitsNothing(cv: seq<Byte>, pos: IVec3, w: seq<seq<Byte>>, p: int, water: bool)
    requires BuildInputs(cv, w) && 0 <= p < CHUNK_VOL && VoxelAt(cv, p) == VOID
    ensures CellWords(cv, pos, w, p, water) == []
  {
    ConcatOfEmpty(FaceWordsOf(cv, pos, w, p, water), 6);
  }

  /** Words reach the water stream only from water voxels, the opaque stream
      only from non-water voxels, and a drawn face is never shared by both. */
  lemma StreamRouting(cv: seq<Byte>, pos: IVec3, w: seq<seq<Byte>>, p: int, face: int)
    requires BuildInputs(cv, w) && 0 <= p < CHUNK_VOL && 0 <= face < 6
    ensures var id := VoxelAt(cv, p);
      && (FaceWords(cv, pos, w, p, face, true) != [] ==> id == WATER)
      && (FaceWords(cv, pos, w, p, face, false) != [] ==> id != WATER && id != VOID)
      && (FaceWords(cv, pos, w, p, face, true) == [] || FaceWords(cv, pos, w, p, face, false) == [])
  {
  }

  /** Concatenating empty pieces gives the empty sequence. */
  lemma {:induction false} ConcatOfEmpty(parts: int -> seq<int>, n: int)
    requires forall p :: 0 <= p < n ==> parts(p) == []
    ensures Concat(parts, n) == []
    decreases n
  {
    if n > 0 {
      ConcatOfEmpty(parts, n - 1);
    }
  }

  /** A concatenation is a prefix of every longer one. */
  lemma {:induction false} ConcatPrefix(parts: int -> seq<int>, n: int, m: int)
    requires n <= m
    ensures Concat(parts, n) <= Concat(parts, m)
    decreases m - n
  {
    if n < m {
      ConcatPrefix(parts, n, m - 1);
    }
  }

  /** An empty chunk emits empty streams. */
  lemma EmptyChunkEmptyStreams(cv: seq<Byte>, pos: IVec3, w: seq<seq<Byte>>, water: bool)
    requires BuildInputs(cv, w)
    requires forall i :: 0 <= i < CHUNK_VOL ==> cv[i] == VOID
    ensures FullStream(cv, pos, w, water) == []
  {
    var parts := CellWordsOf(cv, pos, w, water);
    forall p | 0 <= p < CHUNK_VOL
      ensures parts(p) == []
    {
      var l := Cell(p);
      assert 0 <= GetIndex(l.x, l.y, l.z) < CHUNK_VOL;
      VoidCellEmitsNothing(cv, pos, w, p, water);
    }
    ConcatOfEmpty(parts, CHUNK_VOL);
  }

  /** A stream is a prefix of every later stream: the mesher only appends. */
  lemma StreamPrefix(cv: seq<Byte>, pos: IVec3, w: seq<seq<Byte>>, n: int, m: int, water: bool)
    requires BuildInputs(cv, w) && n <= m
    ensures Stream(cv, pos, w, n, water) <= Stream(cv, pos, w, m, water)
  {
    ConcatPrefix(CellWordsOf(cv, pos, w, water), n, m);
  }
}
