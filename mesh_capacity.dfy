/** The capacity argument behind the mesher's fixed buffers: a chunk that is
    stored in its own world slot emits at most CHUNK_VOL * 18 words into each
    stream. Along any axis, two neighbouring voxels share one boundary, and of
    the four faces the pair could draw across its two boundaries with the
    outside and the one between them at most two are drawn. */
module MeshCapacity {
  import opened Settings
  import opened BlockType
  import opened TerrainGen
  import opened ChunkMeshBuilder
  import opened MeshStreams

  function Ind(b: bool): nat {
    if b then 1 else 0
  }

  // ---------------------------------------------------------------------------
  // Sums over a range

  function Sum(f: int -> nat, lo: int, hi: int): nat
    decreases hi - lo
  {
    if hi <= lo then 0 else Sum(f, lo, hi - 1) + f(hi - 1)
  }

  lemma {:induction false} SumSplit(f: int -> nat, lo: int, mid: int, hi: int)
    requires lo <= mid <= hi
    ensures Sum(f, lo, hi) == Sum(f, lo, mid) + Sum(f, mid, hi)
    decreases hi - mid
  {
    if hi > mid {
      SumSplit(f, lo, mid, hi - 1);
    }
  }

  lemma {:induction false} SumOfThree(f: int -> nat, g: int -> nat, h: int -> nat, k: int -> nat, lo: int, hi: int)
    requires forall p :: lo <= p < hi ==> k(p) == f(p) + g(p) + h(p)
    ensures Sum(k, lo, hi) == Sum(f, lo, hi) + Sum(g, lo, hi) + Sum(h, lo, hi)
    decreases hi - lo
  {
    if hi > lo {
      SumOfThree(f, g, h, k, lo, hi - 1);
    }
  }

  /** Terms paired at distance `s` add up to at most 2, so the two runs of
      length `j` starting at `b` and `b + s` add up to at most 2 * j. */
  lemma {:induction false} SumOfPairs(f: int -> nat, b: int, s: int, j: int)
    requires 0 <= j <= s
    requires forall i :: b <= i < b + s ==> f(i) + f(i + s) <= 2
    ensures Sum(f, b, b + j) + Sum(f, b + s, b + s + j) <= 2 * j
  {
    if j > 0 {
      SumOfPairs(f, b, s, j - 1);
    }
  }

  /** Over `k` blocks of length m = 2 * s, where each term of a block's first
      half pairs with the term `s` later, the sum is at most the number of terms. */
  lemma {:induction false} SumOfBlocks(f: int -> nat, s: int, m: int, k: nat, hi: int)
    requires s > 0 && m == 2 * s && hi == k * m
    requires forall i :: 0 <= i < hi && i % m < s ==> f(i) + f(i + s) <= 2
    ensures Sum(f, 0, hi) <= hi
  {
    if k > 0 {
      var b := hi - m;
      assert b == (k - 1) * m;
      SumOfBlocks(f, s, m, k - 1, b);
      SumSplit(f, 0, b, hi);
      SumSplit(f, b, b + s, hi);
      forall i | b <= i < b + s
        ensures f(i) + f(i + s) <= 2
      {
        DivMod(i, m, k - 1, i - b);
      }
      SumOfPairs(f, b, s, s);
    }
  }

  // ---------------------------------------------------------------------------
  // Faces per voxel

  /** Number of faces the voxel at `p` draws into the stream. */
  function FaceCount(cv: seq<Byte>, pos: IVec3, w: seq<seq<Byte>>, p: int, water: bool): nat
    requires BuildInputs(cv, w) && 0 <= p < CHUNK_VOL
  {
    Ind(Emits(cv, pos, w, p, 0, water)) + Ind(Emits(cv, pos, w, p, 1, water))
    + Ind(Emits(cv, pos, w, p, 2, water)) + Ind(Emits(cv, pos, w, p, 3, water))
    + Ind(Emits(cv, pos, w, p, 4, water)) + Ind(Emits(cv, pos, w, p, 5, water))
  }

  lemma CellWordsLength(cv: seq<Byte>, pos: IVec3, w: seq<seq<Byte>>, p: int, water: bool)
    requires BuildInputs(cv, w) && 0 <= p < CHUNK_VOL
    ensures |CellWords(cv, pos, w, p, water)| == 6 * FaceCount(cv, pos, w, p, water)
  {
    var count := FaceIndicators(cv, pos, w, p, water);
    FaceWordsLengths(cv, pos, w, p, water);
    ConcatLength(FaceWordsOf(cv, pos, w, p, water), count, 6);
    SumSix(count);
  }

  /** 1 for each face the voxel at `p` draws into the stream, else 0. */
  function FaceIndicators(cv: seq<Byte>, pos: IVec3, w: seq<seq<Byte>>, p: int, water: bool): int -> nat
    requires BuildInputs(cv, w) && 0 <= p < CHUNK_VOL
  {
    face => if 0 <= face < 6 then Ind(Emits(cv, pos, w, p, face, water)) else 0
  }

  lemma FaceWordsLengths(cv: seq<Byte>, pos: IVec3, w: seq<seq<Byte>>, p: int, water: bool)
    requires BuildInputs(cv, w) && 0 <= p < CHUNK_VOL
    ensures forall face :: 0 <= face < 6 ==>
      |FaceWordsOf(cv, pos, w, p, water)(face)| == 6 * FaceIndicators(cv, pos, w, p, water)(face)
  {
  }

  lemma SumSix(f: int -> nat)
    ensures Sum(f, 0, 6) == f(0) + f(1) + f(2) + f(3) + f(4) + f(5)
  {
    assert Sum(f, 0, 2) == f(0) + f(1);
    assert Sum(f, 0, 4) == f(0) + f(1) + f(2) + f(3);
  }

  /** Axes: 0 is y (faces 0 and 1), 1 is x (faces 2 and 3), 2 is z (faces 5 and 4). */
  function PlusFace(axis: int): int
    requires 0 <= axis < 3
  {
    [0, 2, 5][axis]
  }

  function MinusFace(axis: int): int
    requires 0 <= axis < 3
  {
    [1, 3, 4][axis]
  }

  /** The unit step along stride axis `axis` (0 is y, 1 is x, 2 is z, the
      order of Stride). */
  function StrideUnit(axis: int): IVec3
    requires 0 <= axis < 3
  {
    [IVec3(0, 1, 0), IVec3(1, 0, 0), IVec3(0, 0, 1)][axis]
  }

  /** Distance in loop order between a voxel and its neighbour along the axis. */
  function Stride(axis: int): int
    requires 0 <= axis < 3
  {
    [CHUNK_SIZE, CHUNK_AREA, 1][axis]
  }

  /** Faces the voxel at `p` draws across its two boundaries on the axis. */
  function AxisCount(cv: seq<Byte>, pos: IVec3, w: seq<seq<Byte>>, p: int, axis: int, water: bool): nat
    requires BuildInputs(cv, w) && 0 <= p < CHUNK_VOL && 0 <= axis < 3
  {
    Ind(Emits(cv, pos, w, p, PlusFace(axis), water)) + Ind(Emits(cv, pos, w, p, MinusFace(axis), water))
  }

  function AxisCounts(cv: seq<Byte>, pos: IVec3, w: seq<seq<Byte>>, axis: int, water: bool): int -> nat
    requires BuildInputs(cv, w) && 0 <= axis < 3
  {
    p => if 0 <= p < CHUNK_VOL then AxisCount(cv, pos, w, p, axis, water) else 0
  }

  function FaceCounts(cv: seq<Byte>, pos: IVec3, w: seq<seq<Byte>>, water: bool): int -> nat
    requires BuildInputs(cv, w)
  {
    p => if 0 <= p < CHUNK_VOL then FaceCount(cv, pos, w, p, water) else 0
  }

  /** Pieces of six words per counted item concatenate to six words per item. */
  lemma {:induction false} ConcatLength(parts: int -> seq<int>, count: int -> nat, n: int)
    requires forall p :: 0 <= p < n ==> |parts(p)| == 6 * count(p)
    ensures |Concat(parts, n)| == 6 * Sum(count, 0, n)
    decreases n
  {
    if n > 0 {
      ConcatLength(parts, count, n - 1);
    }
  }

  /** The stream holds six words for every drawn face. */
  lemma StreamLength(cv: seq<Byte>, pos: IVec3, w: seq<seq<Byte>>, n: int, water: bool)
    requires BuildInputs(cv, w) && 0 <= n <= CHUNK_VOL
    ensures |Stream(cv, pos, w, n, water)| == 6 * Sum(FaceCounts(cv, pos, w, water), 0, n)
  {
    var parts, count := CellWordsOf(cv, pos, w, water), FaceCounts(cv, pos, w, water);
    forall p | 0 <= p < n
      ensures |parts(p)| == 6 * count(p)
    {
      CellWordsLength(cv, pos, w, p, water);
    }
    ConcatLength(parts, count, n);
  }

  // ---------------------------------------------------------------------------
  // Loop order and neighbours

  lemma CellRoundTrip(l: IVec3)
    requires InChunk(l)
    ensures 0 <= CHUNK_AREA * l.x + CHUNK_SIZE * l.y + l.z < CHUNK_VOL
    ensures Cell(CHUNK_AREA * l.x + CHUNK_SIZE * l.y + l.z) == l
  {
    var p := CHUNK_AREA * l.x + CHUNK_SIZE * l.y + l.z;
    DivMod(p, CHUNK_AREA, l.x, CHUNK_SIZE * l.y + l.z);
    DivMod(p, CHUNK_SIZE, CHUNK_SIZE * l.x + l.y, l.z);
    DivMod(CHUNK_SIZE * l.x + l.y, CHUNK_SIZE, l.x, l.y);
  }

  lemma CellPosition(p: int)
    requires 0 <= p < CHUNK_VOL
    ensures p == CHUNK_AREA * Cell(p).x + CHUNK_SIZE * Cell(p).y + Cell(p).z
  {
    var a := p / CHUNK_SIZE;
    DivMod(p, CHUNK_SIZE, a, p % CHUNK_SIZE);
    DivMod(a, CHUNK_SIZE, a / CHUNK_SIZE, a % CHUNK_SIZE);
    DivMod(p, CHUNK_AREA, a / CHUNK_SIZE, CHUNK_SIZE * (a % CHUNK_SIZE) + p % CHUNK_SIZE);
  }

  /** A voxel in the first half of its block on the axis has its neighbour
      along the axis `Stride(axis)` later in loop order. */
  lemma CellStep(p: int, axis: int)
    requires 0 <= axis < 3 && 0 <= p < CHUNK_VOL && p % (2 * Stride(axis)) < Stride(axis)
    ensures p + Stride(axis) < CHUNK_VOL
    ensures InChunk(Cell(p).Add(StrideUnit(axis))) && Cell(p + Stride(axis)) == Cell(p).Add(StrideUnit(axis))
  {
    var l := Cell(p);
    CellPosition(p);
    assert p == 1024 * l.x + 32 * l.y + l.z;
    if axis == 0 {
      DivMod(p, 64, 16 * l.x + l.y / 2, 32 * (l.y % 2) + l.z);
      assert l.y < 31;
    } else if axis == 1 {
      DivMod(p, 2048, l.x / 2, 1024 * (l.x % 2) + 32 * l.y + l.z);
      assert l.x < 31;
    } else {
      DivMod(p, 2, 512 * l.x + 16 * l.y + l.z / 2, l.z % 2);
      assert l.z < 31;
    }
    CellRoundTrip(l.Add(StrideUnit(axis)));
  }

  /** Inside a chunk stored in its own slot, the world lookup reads the chunk's cell. */
  lemma StoredVoxelInChunk(w: seq<seq<Byte>>, pos: IVec3, l: IVec3)
    requires WorldShaped(w) && InWorld(pos) && InChunk(l)
    ensures Congruent(l, WorldPos(pos, l))
    ensures StoredVoxel(w, WorldPos(pos, l)) == w[ChunkSlot(pos)][GetIndex(l.x, l.y, l.z)]
  {
    var q := WorldPos(pos, l);
    DivMod(q.x, CHUNK_SIZE, pos.x, l.x);
    DivMod(q.y, CHUNK_SIZE, pos.y, l.y);
    DivMod(q.z, CHUNK_SIZE, pos.z, l.z);
    DivMod(l.x, CHUNK_SIZE, 0, l.x);
    DivMod(l.y, CHUNK_SIZE, 0, l.y);
    DivMod(l.z, CHUNK_SIZE, 0, l.z);
    ChunkSlotBijection(pos);
  }

  lemma NeighbourInChunk(cv: seq<Byte>, pos: IVec3, w: seq<seq<Byte>>, l: IVec3, d: IVec3)
    requires BuildInputs(cv, w) && InWorld(pos) && cv == w[ChunkSlot(pos)]
    requires InChunk(l) && InChunk(l.Add(d))
    ensures GetVoxelIdAt(l.Add(d), WorldPos(pos, l).Add(d), w) == cv[GetIndex(l.Add(d).x, l.Add(d).y, l.Add(d).z)]
  {
    assert WorldPos(pos, l).Add(d) == WorldPos(pos, l.Add(d));
    StoredVoxelInChunk(w, pos, l.Add(d));
    GetVoxelIdAtSpec(l.Add(d), WorldPos(pos, l.Add(d)), w);
  }

  /** A drawn face goes from a voxel of the stream's class to one outside it. */
  lemma EmitCrossesClass(water: bool, a: int, b: int)
    requires Emit(water, a, b)
    ensures !(b != VOID && (b == WATER) == water)
  {
  }

  /** Of the faces a pair of neighbours `a`, `b` can draw on one axis (a's outer
      face toward `c`, the two faces between them, b's outer face toward `d`),
      at most two are drawn. */
  lemma PairBound(water: bool, a: int, b: int, c: int, d: int)
    ensures Ind(Emit(water, a, c)) + Ind(Emit(water, a, b)) + Ind(Emit(water, b, a)) + Ind(Emit(water, b, d)) <= 2
  {
    if Emit(water, a, b) {
      EmitCrossesClass(water, a, b);
    }
    if Emit(water, b, a) {
      EmitCrossesClass(water, b, a);
    }
  }

  /** Inside the chunk, the lookup across a face reads the neighbouring cell. */
  lemma NeighbourIsCell(cv: seq<Byte>, pos: IVec3, w: seq<seq<Byte>>, p: int, face: int, q: int)
    requires BuildInputs(cv, w) && InWorld(pos) && cv == w[ChunkSlot(pos)]
    requires 0 <= p < CHUNK_VOL && 0 <= q < CHUNK_VOL && 0 <= face < 6
    requires Cell(q) == Cell(p).Add(FaceNormal(face))
    ensures Neighbour(pos, w, p, face) == VoxelAt(cv, q)
  {
    NeighbourInChunk(cv, pos, w, Cell(p), FaceNormal(face));
  }

  lemma AxisPair(cv: seq<Byte>, pos: IVec3, w: seq<seq<Byte>>, p: int, axis: int, water: bool)
    requires BuildInputs(cv, w) && InWorld(pos) && cv == w[ChunkSlot(pos)]
    requires 0 <= axis < 3 && 0 <= p < CHUNK_VOL && p % (2 * Stride(axis)) < Stride(axis)
    ensures p + Stride(axis) < CHUNK_VOL
    ensures AxisCount(cv, pos, w, p, axis, water) + AxisCount(cv, pos, w, p + Stride(axis), axis, water) <= 2
  {
    CellStep(p, axis);
    var q := p + Stride(axis);
    var plus, minus := PlusFace(axis), MinusFace(axis);
    var u := StrideUnit(axis);
    assert FaceNormal(plus) == u && FaceNormal(minus) == IVec3(-u.x, -u.y, -u.z);
    NeighbourIsCell(cv, pos, w, p, plus, q);
    NeighbourIsCell(cv, pos, w, q, minus, p);
    PairBound(water, VoxelAt(cv, p), VoxelAt(cv, q), Neighbour(pos, w, p, minus), Neighbour(pos, w, q, plus));
  }

  lemma AxisPairCounts(cv: seq<Byte>, pos: IVec3, w: seq<seq<Byte>>, p: int, axis: int, water: bool)
    requires BuildInputs(cv, w) && InWorld(pos) && cv == w[ChunkSlot(pos)]
    requires 0 <= axis < 3 && 0 <= p < CHUNK_VOL && p % (2 * Stride(axis)) < Stride(axis)
    ensures AxisCounts(cv, pos, w, axis, water)(p) + AxisCounts(cv, pos, w, axis, water)(p + Stride(axis)) <= 2
  {
    AxisPair(cv, pos, w, p, axis, water);
  }

  lemma AxisPairs(cv: seq<Byte>, pos: IVec3, w: seq<seq<Byte>>, axis: int, water: bool)
    requires BuildInputs(cv, w) && InWorld(pos) && cv == w[ChunkSlot(pos)] && 0 <= axis < 3
    ensures var f, s := AxisCounts(cv, pos, w, axis, water), Stride(axis);
      forall i :: 0 <= i < CHUNK_VOL && i % (2 * s) < s ==> f(i) + f(i + s) <= 2
  {
    var f, s := AxisCounts(cv, pos, w, axis, water), Stride(axis);
    forall i | 0 <= i < CHUNK_VOL && i % (2 * s) < s
      ensures f(i) + f(i + s) <= 2
    {
      AxisPairCounts(cv, pos, w, i, axis, water);
    }
  }

  /** On each axis, a stream draws at most one face per voxel on average. */
  lemma AxisBound(cv: seq<Byte>, pos: IVec3, w: seq<seq<Byte>>, axis: int, water: bool)
    requires BuildInputs(cv, w) && InWorld(pos) && cv == w[ChunkSlot(pos)] && 0 <= axis < 3
    ensures Sum(AxisCounts(cv, pos, w, axis, water), 0, CHUNK_VOL) <= CHUNK_VOL
  {
    var s := Stride(axis);
    var k := if axis == 0 then 512 else if axis == 1 then 16 else 16384;
    assert k * (2 * s) == CHUNK_VOL;
    AxisPairs(cv, pos, w, axis, water);
    SumOfBlocks(AxisCounts(cv, pos, w, axis, water), s, 2 * s, k, CHUNK_VOL);
  }

  /** Capacity: each stream of a chunk stored in its own world slot has at most
      CHUNK_VOL * 18 words, the size of the buffers the mesher allocates. */
  lemma StreamCapacity(cv: seq<Byte>, pos: IVec3, w: seq<seq<Byte>>, water: bool)
    requires BuildInputs(cv, w) && InWorld(pos) && cv == w[ChunkSlot(pos)]
    ensures |FullStream(cv, pos, w, water)| <= CHUNK_VOL * 18
  {
    var f0, f1, f2 := AxisCounts(cv, pos, w, 0, water), AxisCounts(cv, pos, w, 1, water), AxisCounts(cv, pos, w, 2, water);
    var total := FaceCounts(cv, pos, w, water);
    forall p | 0 <= p < CHUNK_VOL
      ensures total(p) == f0(p) + f1(p) + f2(p)
    {
    }
    SumOfThree(f0, f1, f2, total, 0, CHUNK_VOL);
    AxisBound(cv, pos, w, 0, water);
    AxisBound(cv, pos, w, 1, water);
    AxisBound(cv, pos, w, 2, water);
    StreamLength(cv, pos, w, CHUNK_VOL, water);
  }

  /** Loop position `p` adds its words to a stream, and the grown stream
      still fits the buffer the mesher allocates. */
  lemma CellFits(cv: seq<Byte>, pos: IVec3, w: seq<seq<Byte>>, p: int, water: bool)
    requires BuildInputs(cv, w) && InWorld(pos) && cv == w[ChunkSlot(pos)] && 0 <= p < CHUNK_VOL
    ensures Stream(cv, pos, w, p + 1, water) == Stream(cv, pos, w, p, water) + CellWords(cv, pos, w, p, water)
    ensures |Stream(cv, pos, w, p, water)| + |CellWords(cv, pos, w, p, water)| <= CHUNK_VOL * 18
  {
    StreamStep(cv, pos, w, p, water);
    StreamPrefix(cv, pos, w, p + 1, CHUNK_VOL, water);
    StreamCapacity(cv, pos, w, water);
  }
}
