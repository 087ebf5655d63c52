/** The voxel interaction handler: the grid traversal that finds the voxel the
    player looks at, the hit record it leaves, the remove / place modes, and
    voxel edits written through a chunk's alias of its world row followed by
    the mesh rebuilds they trigger. */
module VoxelHandling {
  import opened Settings
  import opened BlockType
  import opened TerrainGen
  import opened ChunkMeshBuilder
  import opened Chunks
  import opened WorldStore

  /** What `get_voxel_id` returns: voxel id, flat voxel index, local position
      and chunk. Outside the world it is `(0, 0, 0, 0)`, here with a null chunk. */
  datatype VoxelHit = VoxelHit(id: Byte, index: int, local: IVec3, chunk: Chunk?)

  const NO_HIT: VoxelHit := VoxelHit(0, 0, IVec3(0, 0, 0), null)

  // ---------------------------------------------------------------------------
  // Grid traversal (3-D DDA)

  /** Coordinate `axis` (0 = x, 1 = y, 2 = z) of an integer vector. */
  function Comp(v: IVec3, axis: int): int {
    if axis == 0 then v.x else if axis == 1 then v.y else v.z
  }

  /** Coordinate `axis` of a real vector. */
  function RComp(m: Vec3, axis: int): real {
    if axis == 0 then m.x else if axis == 1 then m.y else m.z
  }

  /** All three parametric distances exceed 1.0: the ray has left its segment. */
  predicate AllBeyond(m: Vec3) {
    m.x > 1.0 && m.y > 1.0 && m.z > 1.0
  }

  /** The axis the traversal steps along next, from the parametric distances
      `max_x`, `max_y`, `max_z`. */
  function ChooseAxis(m: Vec3): (axis: int)
    ensures 0 <= axis < 3
    ensures axis == 0 <==> m.x < m.y && m.x < m.z
    ensures axis == 1 <==> m.y <= m.x && m.y < m.z
    ensures forall a :: 0 <= a < 3 ==> RComp(m, axis) <= RComp(m, a)
  {
    if m.x < m.y then
      if m.x < m.z then 0 else 2
    else
      if m.y < m.z then 1 else 2
  }

  /** One traversal step: the cell coordinate on `axis` moves by that axis's sign. */
  function Step(p: IVec3, axis: int, d: IVec3): (q: IVec3)
    ensures 0 <= axis < 3 ==> forall a :: 0 <= a < 3 ==> Comp(q, a) == Comp(p, a) + (if a == axis then Comp(d, a) else 0)
  {
    if axis == 0 then p.(x := p.x + d.x)
    else if axis == 1 then p.(y := p.y + d.y)
    else p.(z := p.z + d.z)
  }

  /** The parametric distance on `axis` grows by that axis's delta. */
  function Advance(m: Vec3, delta: Vec3, axis: int): Vec3 {
    if axis == 0 then m.(x := m.x + delta.x)
    else if axis == 1 then m.(y := m.y + delta.y)
    else m.(z := m.z + delta.z)
  }

  /** The cell reached from `start` after the steps `trace` (axes in order). */
  function Walk(start: IVec3, d: IVec3, trace: seq<int>): IVec3 {
    if |trace| == 0 then start else Step(Walk(start, d, trace[..|trace| - 1]), trace[|trace| - 1], d)
  }

  /** The parametric distances after the steps `trace`. */
  function MaxAfter(m0: Vec3, delta: Vec3, trace: seq<int>): Vec3 {
    if |trace| == 0 then m0 else Advance(MaxAfter(m0, delta, trace[..|trace| - 1]), delta, trace[|trace| - 1])
  }

  /** `trace` is the axis sequence the traversal takes: every step was taken
      while the ray was still inside its segment, along the axis ChooseAxis
      picks at that point. */
  predicate DdaTrace(m0: Vec3, delta: Vec3, trace: seq<int>) {
    forall k :: 0 <= k < |trace| ==>
      !AllBeyond(MaxAfter(m0, delta, trace[..k])) && trace[k] == ChooseAxis(MaxAfter(m0, delta, trace[..k]))
  }

  /** The last axis stepped along (`step_dir`), -1 before the first step. */
  function LastAxis(trace: seq<int>): int {
    if |trace| == 0 then -1 else trace[|trace| - 1]
  }

  /** The hit normal for the last step direction: minus the sign on that
      axis; the starting cell (`step_dir` = -1) falls to the z case. */
  function HitNormal(stepDir: int, d: IVec3): IVec3 {
    if stepDir == 0 then IVec3(-d.x, 0, 0)
    else if stepDir == 1 then IVec3(0, -d.y, 0)
    else IVec3(0, 0, -d.z)
  }

  /** After at least one step, hit + normal is the cell the ray came from. */
  lemma NormalPointsBack(start: IVec3, d: IVec3, trace: seq<int>)
    requires |trace| > 0 && 0 <= LastAxis(trace) < 3
    ensures Walk(start, d, trace).Add(HitNormal(LastAxis(trace), d)) == Walk(start, d, trace[..|trace| - 1])
  {
    var p := Walk(start, d, trace[..|trace| - 1]);
    var a := LastAxis(trace);
    assert Comp(Step(p, a, d), 0) == Comp(p, 0) + (if a == 0 then Comp(d, 0) else 0);
    assert Comp(Step(p, a, d), 1) == Comp(p, 1) + (if a == 1 then Comp(d, 1) else 0);
    assert Comp(Step(p, a, d), 2) == Comp(p, 2) + (if a == 2 then Comp(d, 2) else 0);
  }

  /** Steps the traversal can still take along an axis whose distance is `m`
      and grows by `delta` (the termination measure). */
  function StepsLeft(m: real, delta: real): nat
    requires delta > 0.0
  {
    if m > 1.0 then 0 else ((1.0 - m) / delta).Floor + 1
  }

  /** A product of two positive reals is positive. */
  lemma MulPos(x: real, y: real)
    requires x > 0.0 && y > 0.0
    ensures x * y > 0.0
  {
  }

  /** Dividing `a - b` by `b` gives one less than dividing `a`. */
  lemma DivSubOne(a: real, b: real)
    requires b > 0.0
    ensures (a - b) / b == a / b - 1.0
  {
    var q, q' := a / b, (a - b) / b;
    assert q * b == a && q' * b == a - b;
    var e := q' - q + 1.0;
    assert e * b == q' * b - q * b + b;
    if e > 0.0 {
      MulPos(e, b);
      assert false;
    } else if e < 0.0 {
      MulPos(-e, b);
      assert false;
    }
  }

  /** A quotient of a non-negative real by a larger one lies in [0, 1). */
  lemma DivBelowOne(a: real, b: real)
    requires b > 0.0 && 0.0 <= a < b
    ensures 0.0 <= a / b < 1.0
  {
    var q := a / b;
    assert q * b == a;
    if q < 0.0 {
      MulPos(-q, b);
      assert false;
    } else if q > 1.0 {
      MulPos(q - 1.0, b);
      assert false;
    } else if q == 1.0 {
      assert false;
    }
  }

  /** Stepping along an axis still inside the segment uses up one of its steps. */
  lemma StepsLeftAdvance(m: real, delta: real)
    requires delta > 0.0 && m <= 1.0
    ensures StepsLeft(m + delta, delta) == StepsLeft(m, delta) - 1
  {
    if m + delta > 1.0 {
      DivBelowOne(1.0 - m, delta);
    } else {
      DivSubOne(1.0 - m, delta);
      assert 1.0 - (m + delta) == (1.0 - m) - delta;
    }
  }

  /** The step ChooseAxis picks while the ray is inside its segment shrinks
      the termination measure. */
  lemma ChosenStepDecreases(m: Vec3, delta: Vec3)
    requires delta.x > 0.0 && delta.y > 0.0 && delta.z > 0.0 && !AllBeyond(m)
    ensures var a, n := ChooseAxis(m), Advance(m, delta, ChooseAxis(m));
      StepsLeft(n.x, delta.x) + StepsLeft(n.y, delta.y) + StepsLeft(n.z, delta.z)
      < StepsLeft(m.x, delta.x) + StepsLeft(m.y, delta.y) + StepsLeft(m.z, delta.z)
  {
    var a := ChooseAxis(m);
    assert RComp(m, a) <= 1.0 by {
      assert RComp(m, a) <= RComp(m, 0) && RComp(m, a) <= RComp(m, 1) && RComp(m, a) <= RComp(m, 2);
    }
    if a == 0 {
      StepsLeftAdvance(m.x, delta.x);
    } else if a == 1 {
      StepsLeftAdvance(m.y, delta.y);
    } else {
      StepsLeftAdvance(m.z, delta.z);
    }
  }

  /** The step branch of the traversal loop: advance along the axis with the
      smallest parametric distance (ties go to the later axis), moving the
      cell by that axis's sign and the distance by that axis's delta. */
  method StepRay(current: IVec3, m: Vec3, d: IVec3, delta: Vec3) returns (next: IVec3, m': Vec3, stepDir: int)
    ensures stepDir == ChooseAxis(m)
    ensures next == Step(current, stepDir, d) && m' == Advance(m, delta, stepDir)
  {
    next, m' := current, m;
    if m.x < m.y {
      if m.x < m.z {
        next := next.(x := next.x + d.x);
        m' := m'.(x := m'.x + delta.x);
        stepDir := 0;
      } else {
        next := next.(z := next.z + d.z);
        m' := m'.(z := m'.z + delta.z);
        stepDir := 2;
      }
    } else {
      if m.y < m.z {
        next := next.(y := next.y + d.y);
        m' := m'.(y := m'.y + delta.y);
        stepDir := 1;
      } else {
        next := next.(z := next.z + d.z);
        m' := m'.(z := m'.z + delta.z);
        stepDir := 2;
      }
    }
  }

  /** Every cell the traversal visited before the last one held no voxel. */
  ghost predicate VoidPath(w: seq<seq<Byte>>, start: IVec3, d: IVec3, trace: seq<int>) {
    WorldShaped(w) && forall k :: 0 <= k < |trace| ==> StoredVoxel(w, Walk(start, d, trace[..k])) == VOID
  }

  /** One more step of the traversal, from a void cell along the axis
      ChooseAxis picks, extends a traversal trace. */
  lemma ExtendTrace(m0: Vec3, delta: Vec3, w: seq<seq<Byte>>, start: IVec3, d: IVec3, trace: seq<int>, a: int)
    requires DdaTrace(m0, delta, trace) && VoidPath(w, start, d, trace)
    requires !AllBeyond(MaxAfter(m0, delta, trace)) && a == ChooseAxis(MaxAfter(m0, delta, trace))
    requires WorldShaped(w) && StoredVoxel(w, Walk(start, d, trace)) == VOID
    ensures DdaTrace(m0, delta, trace + [a]) && VoidPath(w, start, d, trace + [a])
    ensures MaxAfter(m0, delta, trace + [a]) == Advance(MaxAfter(m0, delta, trace), delta, a)
    ensures Walk(start, d, trace + [a]) == Step(Walk(start, d, trace), a, d)
    ensures LastAxis(trace + [a]) == a
  {
    var t := trace + [a];
    assert t[..|trace|] == trace;
    forall k | 0 <= k < |trace|
      ensures t[..k] == trace[..k]
    {
    }
  }

  // ---------------------------------------------------------------------------
  // Neighbour rebuilds

  /** The unit vector along `axis`. */
  function Unit(axis: int): IVec3 {
    if axis == 0 then IVec3(1, 0, 0) else if axis == 1 then IVec3(0, 1, 0) else IVec3(0, 0, 1)
  }

  /** The neighbour `rebuild_adjacent_chunks` visits on one axis: across the
      lower face when the local coordinate is 0, across the upper face when it
      is CHUNK_SIZE - 1, none otherwise. */
  function AxisTarget(l: int, p: IVec3, axis: int): seq<IVec3> {
    if l == 0 then [p.Add(Unit(axis).Scale(-1))]
    else if l == CHUNK_SIZE - 1 then [p.Add(Unit(axis))]
    else []
  }

  /** The neighbours whose chunks `rebuild_adjacent_chunks` rebuilds, x then y then z. */
  function AdjacentTargets(l: IVec3, p: IVec3): seq<IVec3> {
    AxisTarget(l.x, p, 0) + AxisTarget(l.y, p, 1) + AxisTarget(l.z, p, 2)
  }

  /** The chunk coordinates of those neighbours. */
  function AdjacentChunks(l: IVec3, p: IVec3): set<IVec3> {
    set t | t in AdjacentTargets(l, p) :: ChunkCoord(t)
  }

  /** Every rebuilt neighbour is a face neighbour of the voxel in another
      chunk, and every face neighbour in another chunk is rebuilt: the chunks
      sharing a face with the voxel are exactly the rebuilt ones. */
  lemma AdjacentTargetsExact(p: IVec3, axis: int, s: int)
    requires 0 <= axis < 3 && (s == 1 || s == -1)
    ensures var l, t := LocalCoord(p), p.Add(Unit(axis).Scale(s));
      t in AdjacentTargets(l, p) <==> ChunkCoord(t) != ChunkCoord(p)
  {
    var l, t := LocalCoord(p), p.Add(Unit(axis).Scale(s));
    var ts := AdjacentTargets(l, p);
    assert ts == AxisTarget(l.x, p, 0) + AxisTarget(l.y, p, 1) + AxisTarget(l.z, p, 2);
    // Which members the three one-axis lists can hold.
    assert forall u :: u in AxisTarget(l.x, p, 0) ==> u.y == p.y && u.z == p.z && u.x != p.x;
    assert forall u :: u in AxisTarget(l.y, p, 1) ==> u.x == p.x && u.z == p.z && u.y != p.y;
    assert forall u :: u in AxisTarget(l.z, p, 2) ==> u.x == p.x && u.y == p.y && u.z != p.z;
    if axis == 0 {
      assert t in ts <==> t in AxisTarget(l.x, p, 0);
    } else if axis == 1 {
      assert t in ts <==> t in AxisTarget(l.y, p, 1);
    } else {
      assert t in ts <==> t in AxisTarget(l.z, p, 2);
    }
  }

  /** The slot `rebuild_adjacent_chunks` rebuilds on one axis:
      `get_chunk_index` of the neighbour across that face, -1 when the voxel
      is on neither face of its chunk or the neighbour lies outside the world. */
  function AxisSlot(l: int, p: IVec3, axis: int): int {
    if l == 0 then GetChunkIndex(p.Add(Unit(axis).Scale(-1)))
    else if l == CHUNK_SIZE - 1 then GetChunkIndex(p.Add(Unit(axis)))
    else -1
  }

  /** The slots rebuilt after a voxel at local position `l`, world position
      `p` is removed. */
  function AdjacentSlots(l: IVec3, p: IVec3): set<int> {
    {AxisSlot(l.x, p, 0), AxisSlot(l.y, p, 1), AxisSlot(l.z, p, 2)}
  }

  /** The slots rebuilt are exactly the in-world slots of the neighbours
      `rebuild_adjacent_chunks` visits. */
  lemma {:induction false} AdjacentSlotsOfTargets(l: IVec3, p: IVec3, j: int)
    requires j != -1
    ensures j in AdjacentSlots(l, p) <==> exists t :: t in AdjacentTargets(l, p) && GetChunkIndex(t) == j
  {
    var tx, ty, tz := AxisTarget(l.x, p, 0), AxisTarget(l.y, p, 1), AxisTarget(l.z, p, 2);
    assert AdjacentTargets(l, p) == tx + ty + tz;
    assert AxisSlot(l.x, p, 0) == if tx == [] then -1 else GetChunkIndex(tx[0]);
    assert AxisSlot(l.y, p, 1) == if ty == [] then -1 else GetChunkIndex(ty[0]);
    assert AxisSlot(l.z, p, 2) == if tz == [] then -1 else GetChunkIndex(tz[0]);
    if j in AdjacentSlots(l, p) {
      if j == AxisSlot(l.x, p, 0) {
        assert tx[0] in AdjacentTargets(l, p);
      } else if j == AxisSlot(l.y, p, 1) {
        assert ty[0] in AdjacentTargets(l, p);
      } else {
        assert tz[0] in AdjacentTargets(l, p);
      }
    }
  }

  // ---------------------------------------------------------------------------
  // Voxel edits

  /** The voxel id a placement writes: the explicit id, or the handler's
      default `new_voxel_id` when none is given. */
  function PlacedId(playerNewVoxelId: Option<Byte>, newVoxelId: Byte): Byte {
    if playerNewVoxelId.None? then newVoxelId else playerNewVoxelId.value
  }

  /** `add_voxel` writes: there is a hit, and the cell it faces, `t`, lies in
      the world and holds no voxel. */
  predicate Places(w: seq<seq<Byte>>, hitId: Byte, t: IVec3)
    requires WorldShaped(w)
  {
    hitId != 0 && InWorld(ChunkCoord(t)) && StoredVoxel(w, t) == VOID
  }

  /** What `add_voxel` does with the lookup `r` of the faced cell, as
      written: it writes into `r`'s chunk whenever there is a hit and `r`
      holds no voxel, and never asks whether `r` found a chunk at all. */
  datatype AddOutcome = Skip | Write(chunk: Chunk?, index: int)

  function AddVoxelAsWritten(hitId: Byte, r: VoxelHit): (o: AddOutcome)
    ensures o.Write? <==> hitId != 0 && r.id == VOID
    ensures o.Write? ==> o.chunk == r.chunk && o.index == r.index
  {
    if hitId != 0 && r.id == 0 then Write(r.chunk, r.index) else Skip
  }

  /** The world's voxels after `add_voxel` places `v` at `t`. */
  function AfterAdd(w: seq<seq<Byte>>, hitId: Byte, t: IVec3, v: Byte): (r: seq<seq<Byte>>)
    requires WorldShaped(w)
    ensures WorldShaped(r)
  {
    if Places(w, hitId, t) then WriteVoxel(w, t, v) else w
  }

  /** The world's voxels after the remove mode of `set_voxel` clears the
      hit voxel at `p`. */
  function AfterRemove(w: seq<seq<Byte>>, hitId: Byte, p: IVec3): (r: seq<seq<Byte>>)
    requires WorldShaped(w) && (hitId != 0 ==> InWorld(ChunkCoord(p)))
    ensures WorldShaped(r)
  {
    if hitId != 0 then WriteVoxel(w, p, VOID) else w
  }

  /** A placement fills the faced cell and nothing else: in particular it
      never overwrites a voxel. */
  lemma AddReads(w: seq<seq<Byte>>, hitId: Byte, t: IVec3, v: Byte, q: IVec3)
    requires WorldShaped(w)
    ensures StoredVoxel(AfterAdd(w, hitId, t, v), q) == if q == t && Places(w, hitId, t) then v else StoredVoxel(w, q)
  {
    if Places(w, hitId, t) {
      ReadAfterWrite(w, t, v, q);
    }
  }

  /** A removal clears the hit cell and nothing else. */
  lemma RemoveReads(w: seq<seq<Byte>>, hitId: Byte, p: IVec3, q: IVec3)
    requires WorldShaped(w) && (hitId != 0 ==> InWorld(ChunkCoord(p)))
    ensures StoredVoxel(AfterRemove(w, hitId, p), q) == if q == p && hitId != 0 then VOID else StoredVoxel(w, q)
  {
    if hitId != 0 {
      ReadAfterWrite(w, p, VOID, q);
    }
  }

  /** Placing a non-void id twice at the same cell is placing it once: the
      second placement finds the cell filled. */
  lemma AddIdempotent(w: seq<seq<Byte>>, hitId: Byte, t: IVec3, v: Byte)
    requires WorldShaped(w) && v != VOID
    ensures AfterAdd(AfterAdd(w, hitId, t, v), hitId, t, v) == AfterAdd(w, hitId, t, v)
  {
    if Places(w, hitId, t) {
      ReadAfterWrite(w, t, v, t);
    }
  }

  /** Removing a voxel and placing its id back into the same cell restores
      the world. */
  lemma RemoveThenPlaceRestores(w: seq<seq<Byte>>, hitId: Byte, p: IVec3)
    requires WorldShaped(w) && hitId != 0 && InWorld(ChunkCoord(p))
    ensures AfterAdd(AfterRemove(w, hitId, p), hitId, p, StoredVoxel(w, p)) == w
  {
    var w1 := AfterRemove(w, hitId, p);
    ReadAfterWrite(w, p, VOID, p);
    assert Places(w1, hitId, p);
    var c := ChunkCoord(p);
    ChunkSlotBijection(c);
    var l := LocalCoord(p);
    var s, k := ChunkSlot(c), GetIndex(l.x, l.y, l.z);
    assert w1[s][k := w[s][k]] == w[s];
    assert w1[s := w[s]] == w;
  }

  class VoxelHandler {
    /** The world whose chunk list the handler shares (`world.chunks`). */
    const world: World
    /** The hit record of the last ray cast: voxel id (0 = no hit), flat
        index, local and world positions, chunk, and face normal. */
    var chunk: Chunk?
    var voxelId: Byte
    var voxelIndex: int
    var voxelLocal: IVec3
    var voxelWorld: IVec3
    var voxelNormal: IVec3
    /** 0: remove voxels; 1: place voxels. */
    var interactionMode: int
    /** Default id for placement. */
    var newVoxelId: Byte

    /** A recorded hit names an in-world voxel: its chunk, local position and index. */
    ghost predicate HitRecorded()
      reads this, world
    {
      voxelId != 0 ==>
        && InWorld(ChunkCoord(voxelWorld)) && |world.chunks| == WORLD_VOL
        && chunk == world.chunks[ChunkSlot(ChunkCoord(voxelWorld))]
        && voxelLocal == LocalCoord(voxelWorld)
        && voxelIndex == GetIndex(voxelLocal.x, voxelLocal.y, voxelLocal.z)
    }

    ghost predicate Valid()
      reads this, world, world.chunks, world.rows
    {
      world.Valid() && (interactionMode == 0 || interactionMode == 1) && HitRecorded()
    }

    /** Where a placement goes: the hit voxel plus its normal. */
    function Target(): IVec3
      reads this
    {
      voxelWorld.Add(voxelNormal)
    }

    /** `__init__`: no hit, remove mode, default id 1. */
    constructor (world: World)
      requires world.Valid()
      ensures Valid() && this.world == world
      ensures voxelId == 0 && chunk == null && interactionMode == 0 && newVoxelId == 1
    {
      this.world := world;
      chunk := null;
      voxelId := 0;
      voxelIndex := 0;
      voxelLocal := IVec3(0, 0, 0);
      voxelWorld := IVec3(0, 0, 0);
      voxelNormal := IVec3(0, 0, 0);
      interactionMode := 0;
      newVoxelId := 1;
    }

    /** `get_voxel_id`: outside the world `(0, 0, 0, 0)`; inside, the chunk in
        the position's slot, the local position, its flat index and the voxel
        there, which is what the world's own lookup reads. */
    function GetVoxelId(p: IVec3): (r: VoxelHit)
      requires world.Valid()
      reads world, world.chunks, world.rows
      ensures !InWorld(ChunkCoord(p)) ==> r == NO_HIT
      ensures InWorld(ChunkCoord(p)) ==>
        && r.chunk == world.chunks[ChunkSlot(ChunkCoord(p))]
        && r.local == LocalCoord(p) && r.index == GetIndex(r.local.x, r.local.y, r.local.z)
        && r.id == world.GetVoxelId(p)
    {
      var cx, cy, cz := p.x / CHUNK_SIZE, p.y / CHUNK_SIZE, p.z / CHUNK_SIZE;
      if 0 <= cx < WORLD_WIDTH && 0 <= cy < WORLD_HEIGHT && 0 <= cz < WORLD_DEPTH then
        var chunkIndex := cx + WORLD_WIDTH * cz + WORLD_AREA * cy;
        var chunk := world.chunks[chunkIndex];
        ChunkSlotBijection(IVec3(cx, cy, cz));
        assert Holds(ChunkAt(chunkIndex), chunk, world.rows[chunkIndex]);
        var local := IVec3(p.x - cx * CHUNK_SIZE, p.y - cy * CHUNK_SIZE, p.z - cz * CHUNK_SIZE);
        assert local == LocalCoord(p);
        var voxelIndex := local.x + CHUNK_SIZE * local.z + CHUNK_AREA * local.y;
        assert voxelIndex == GetIndex(local.x, local.y, local.z);
        VoxelHit(chunk.voxels[voxelIndex], voxelIndex, local, chunk)
      else
        NO_HIT
    }

    /** The hit branch of the traversal: record the lookup of cell `p` and
        set the normal's component on the last step axis (`step_dir`). */
    method RecordHit(p: IVec3, result: VoxelHit, stepDir: int, d: IVec3)
      requires Valid() && result == GetVoxelId(p) && result.id != 0
      modifies this
      ensures Valid() && interactionMode == old(interactionMode) && newVoxelId == old(newVoxelId)
      ensures voxelWorld == p && voxelId == world.GetVoxelId(p) && voxelNormal == HitNormal(stepDir, d)
    {
      voxelNormal := IVec3(0, 0, 0);
      voxelId, voxelIndex, voxelLocal, chunk := result.id, result.index, result.local, result.chunk;
      voxelWorld := p;
      if stepDir == 0 {
        voxelNormal := voxelNormal.(x := -d.x);
      } else if stepDir == 1 {
        voxelNormal := voxelNormal.(y := -d.y);
      } else {
        voxelNormal := voxelNormal.(z := -d.z);
      }
    }

    /** The miss outcome of the traversal: no voxel id and a zero normal; the
        rest of the hit record stays as it was. */
    method ClearHit()
      requires Valid()
      modifies this
      ensures Valid() && interactionMode == old(interactionMode) && newVoxelId == old(newVoxelId)
      ensures voxelId == 0 && voxelNormal == IVec3(0, 0, 0)
      ensures voxelWorld == old(voxelWorld) && chunk == old(chunk) && voxelIndex == old(voxelIndex) && voxelLocal == old(voxelLocal)
    {
      voxelId := 0;
      voxelNormal := IVec3(0, 0, 0);
    }

    /** The traversal loop of `raycast`: walk the cells from `start` with
        step signs `d`, per-axis deltas `delta` and initial distances `max0`
        until a cell holds a voxel or the ray leaves its segment. The steps
        follow ChooseAxis, every cell passed over was void, and `result` is
        the lookup of the last cell reached. */
    method Traverse(start: IVec3, d: IVec3, delta: Vec3, max0: Vec3)
      returns (result: VoxelHit, current: IVec3, stepDir: int, ghost trace: seq<int>)
      requires world.Valid()
      requires delta.x > 0.0 && delta.y > 0.0 && delta.z > 0.0
      ensures DdaTrace(max0, delta, trace) && VoidPath(world.Voxels(), start, d, trace)
      ensures current == Walk(start, d, trace) && stepDir == LastAxis(trace)
      ensures result.id != 0 ==> result == GetVoxelId(current) && !AllBeyond(MaxAfter(max0, delta, trace))
      ensures result.id == 0 ==> AllBeyond(MaxAfter(max0, delta, trace))
    {
      ghost var w := world.Voxels();
      current := start;
      stepDir := -1;
      var maxDist := max0;
      trace := [];
      result := NO_HIT;
      while !AllBeyond(maxDist)
        invariant result.id == 0
        invariant maxDist == MaxAfter(max0, delta, trace) && current == Walk(start, d, trace)
        invariant stepDir == LastAxis(trace) && DdaTrace(max0, delta, trace) && VoidPath(w, start, d, trace)
        decreases StepsLeft(maxDist.x, delta.x) + StepsLeft(maxDist.y, delta.y) + StepsLeft(maxDist.z, delta.z)
      {
        result := GetVoxelId(current);
        if result.id != 0 {
          return;
        }
        ChosenStepDecreases(maxDist, delta);
        ExtendTrace(max0, delta, w, start, d, trace, ChooseAxis(maxDist));
        current, maxDist, stepDir := StepRay(current, maxDist, d, delta);
        trace := trace + [stepDir];
      }
    }

    /** `raycast`: the traversal, then the hit record: on a hit the cell, its
        lookup and the normal pointing back along the last step; on a miss
        no voxel id and a zero normal. */
    method Raycast(start: IVec3, d: IVec3, delta: Vec3, max0: Vec3) returns (found: bool, ghost trace: seq<int>)
      requires Valid()
      requires delta.x > 0.0 && delta.y > 0.0 && delta.z > 0.0
      modifies this
      ensures Valid() && interactionMode == old(interactionMode) && newVoxelId == old(newVoxelId)
      ensures DdaTrace(max0, delta, trace) && VoidPath(old(world.Voxels()), start, d, trace)
      ensures found <==> voxelId != 0
      ensures found ==>
        && !AllBeyond(MaxAfter(max0, delta, trace))
        && voxelWorld == Walk(start, d, trace) && voxelId == world.GetVoxelId(voxelWorld)
        && voxelNormal == HitNormal(LastAxis(trace), d)
      ensures !found ==> AllBeyond(MaxAfter(max0, delta, trace)) && voxelNormal == IVec3(0, 0, 0)
    {
      var result, current, stepDir;
      result, current, stepDir, trace := Traverse(start, d, delta, max0);
      if result.id != 0 {
        RecordHit(current, result, stepDir, d);
        return true, trace;
      }
      ClearHit();
      return false, trace;
    }

    /** `get_voxel_by_raycast`: the same traversal, leaving the same hit
        record, and returning the lookup of the hit cell, or None when the ray
        leaves its segment. */
    method GetVoxelByRaycast(start: IVec3, d: IVec3, delta: Vec3, max0: Vec3) returns (r: Option<VoxelHit>, ghost trace: seq<int>)
      requires Valid()
      requires delta.x > 0.0 && delta.y > 0.0 && delta.z > 0.0
      modifies this
      ensures Valid() && interactionMode == old(interactionMode) && newVoxelId == old(newVoxelId)
      ensures DdaTrace(max0, delta, trace) && VoidPath(old(world.Voxels()), start, d, trace)
      ensures r.Some? <==> voxelId != 0
      ensures r.Some? ==>
        && !AllBeyond(MaxAfter(max0, delta, trace))
        && voxelWorld == Walk(start, d, trace) && voxelNormal == HitNormal(LastAxis(trace), d)
        && r.value == GetVoxelId(voxelWorld) && r.value.id != VOID
      ensures r.None? ==> AllBeyond(MaxAfter(max0, delta, trace)) && voxelNormal == IVec3(0, 0, 0)
    {
      var found;
      found, trace := Raycast(start, d, delta, max0);
      if found {
        r := Some(VoxelHit(voxelId, voxelIndex, voxelLocal, chunk));
      } else {
        r := None;
      }
    }

    /** `switch_mode`: remove and place modes swap; nothing else changes. */
    method SwitchMode()
      requires Valid()
      modifies this
      ensures Valid() && interactionMode == 1 - old(interactionMode)
      ensures voxelId == old(voxelId) && voxelWorld == old(voxelWorld) && voxelNormal == old(voxelNormal)
      ensures chunk == old(chunk) && voxelIndex == old(voxelIndex) && voxelLocal == old(voxelLocal)
      ensures newVoxelId == old(newVoxelId)
    {
      interactionMode := if interactionMode == 0 then 1 else 0;
    }

    /** `add_voxel`: when there is a hit and the cell it faces is in the
        world and holds no voxel, write the placed id there, rebuild that
        chunk's mesh and mark the chunk non-empty. No other chunk changes;
        the handler's own state is kept. */
    method AddVoxel(playerNewVoxelId: Option<Byte>)
      requires Valid()
      modifies world.chunks, world.rows
      ensures Valid() && unchanged(this)
      ensures world.Voxels() == AfterAdd(old(world.Voxels()), voxelId, Target(), PlacedId(playerNewVoxelId, newVoxelId))
      ensures Places(old(world.Voxels()), voxelId, Target()) ==>
        SlotMeshed(GetChunkIndex(Target()), world.Voxels()) && !world.chunks[GetChunkIndex(Target())].isEmpty
      ensures forall j :: 0 <= j < WORLD_VOL && (j != GetChunkIndex(Target()) || !Places(old(world.Voxels()), voxelId, Target())) ==>
        unchanged(world.chunks[j])
    {
      if voxelId != 0 {
        var result := GetVoxelId(Target());
        if result.id == 0 && result.chunk != null {
          var c := result.chunk;
          ghost var t := Target();
          ghost var i := ChunkSlot(ChunkCoord(t));
          GetChunkIndexSpec(t);
          if playerNewVoxelId.None? {
            world.WriteThrough(c, result.index, t, newVoxelId);
          } else {
            world.WriteThrough(c, result.index, t, playerNewVoxelId.value);
          }
          world.RebuildMesh(c, i, world.Voxels());
          MarkNonEmpty(c, i);
        }
      }
    }

    /** The remove branch of `set_voxel`: clear the hit voxel, rebuild its
        chunk's mesh, then the neighbours across the faces the voxel lies
        on. `is_empty` is left as it was. */
    method RemoveVoxel()
      requires Valid() && voxelId != 0
      modifies world.chunks, world.rows
      ensures Valid() && unchanged(this)
      ensures world.Voxels() == WriteVoxel(old(world.Voxels()), voxelWorld, VOID)
      ensures SlotMeshed(GetChunkIndex(voxelWorld), world.Voxels())
      ensures forall j :: 0 <= j < WORLD_VOL && j in AdjacentSlots(voxelLocal, voxelWorld) ==> SlotMeshed(j, world.Voxels())
      ensures forall j :: 0 <= j < WORLD_VOL && j != GetChunkIndex(voxelWorld) && j !in AdjacentSlots(voxelLocal, voxelWorld) ==>
        unchanged(world.chunks[j])
      ensures forall j :: 0 <= j < WORLD_VOL ==> world.chunks[j].isEmpty == old(world.chunks[j].isEmpty)
    {
      ghost var i := ChunkSlot(ChunkCoord(voxelWorld));
      GetChunkIndexSpec(voxelWorld);
      world.WriteThrough(chunk, voxelIndex, voxelWorld, VOID);
      world.RebuildMesh(chunk, i, world.Voxels());
      RebuildAdjacentChunks();
    }

    /** `set_voxel`: in place mode, `add_voxel` with the given id; in remove
        mode with a hit, clear the hit voxel and rebuild its chunk and the
        neighbours across its faces; otherwise nothing changes. */
    method SetVoxel(playerNewVoxelId: Option<Byte>)
      requires Valid()
      modifies world.chunks, world.rows
      ensures Valid() && unchanged(this)
      ensures interactionMode == 1 ==>
        world.Voxels() == AfterAdd(old(world.Voxels()), voxelId, Target(), PlacedId(playerNewVoxelId, newVoxelId))
      ensures interactionMode == 1 && Places(old(world.Voxels()), voxelId, Target()) ==>
        SlotMeshed(GetChunkIndex(Target()), world.Voxels()) && !world.chunks[GetChunkIndex(Target())].isEmpty
      ensures interactionMode == 1 ==>
        forall j :: 0 <= j < WORLD_VOL && (j != GetChunkIndex(Target()) || !Places(old(world.Voxels()), voxelId, Target())) ==>
          unchanged(world.chunks[j])
      ensures interactionMode == 0 ==> world.Voxels() == AfterRemove(old(world.Voxels()), voxelId, voxelWorld)
      ensures interactionMode == 0 && voxelId != 0 ==>
        && SlotMeshed(GetChunkIndex(voxelWorld), world.Voxels())
        && forall j :: 0 <= j < WORLD_VOL && j in AdjacentSlots(voxelLocal, voxelWorld) ==> SlotMeshed(j, world.Voxels())
      ensures interactionMode == 0 && voxelId != 0 ==>
        forall j :: 0 <= j < WORLD_VOL && j != GetChunkIndex(voxelWorld) && j !in AdjacentSlots(voxelLocal, voxelWorld) ==>
          unchanged(world.chunks[j])
      ensures interactionMode == 0 ==> forall j :: 0 <= j < WORLD_VOL ==> world.chunks[j].isEmpty == old(world.chunks[j].isEmpty)
      ensures interactionMode == 0 && voxelId == 0 ==> forall j :: 0 <= j < WORLD_VOL ==> unchanged(world.chunks[j])
    {
      if interactionMode == 1 {
        AddVoxel(playerNewVoxelId);
      } else if voxelId != 0 {
        RemoveVoxel();
      }
    }

    /** A hit on the top layer of the world seen from above (a ray whose
        last step went down along y leaves the normal (0, 1, 0)) faces a
        cell above the world. Its lookup is `(0, 0, 0, 0)`, so `add_voxel`
        as written goes on to write into a chunk that does not exist, while
        the guarded placement writes nothing. */
    lemma TopFacePlacement()
      requires Valid() && voxelId != 0
      requires voxelWorld.y == WORLD_HEIGHT * CHUNK_SIZE - 1 && voxelNormal == HitNormal(1, IVec3(0, -1, 0))
      ensures AddVoxelAsWritten(voxelId, GetVoxelId(Target())) == Write(null, 0)
      ensures !Places(world.Voxels(), voxelId, Target())
      ensures AfterAdd(world.Voxels(), voxelId, Target(), newVoxelId) == world.Voxels()
    {
      assert Target().y / CHUNK_SIZE == WORLD_HEIGHT;
    }

    /** Clear the `is_empty` flag of the chunk in slot `i`, keeping its mesh. */
    method MarkNonEmpty(c: Chunk, ghost i: int)
      requires Valid() && 0 <= i < WORLD_VOL && c == world.chunks[i] && SlotMeshed(i, world.Voxels())
      modifies c
      ensures Valid() && world.Voxels() == old(world.Voxels())
      ensures SlotMeshed(i, world.Voxels()) && !c.isEmpty
    {
      if c.isEmpty {
        c.isEmpty := false;
      }
    }

    /** The chunk in slot `j` carries the mesh of its voxels in `w`. */
    ghost predicate SlotMeshed(j: int, w: seq<seq<Byte>>)
      requires 0 <= j < WORLD_VOL && |world.chunks| == WORLD_VOL && WorldShaped(w)
      reads world, world.chunks
    {
      Meshed(ChunkAt(j), world.chunks[j], w)
    }

    /** `rebuild_adj_chunk`: rebuild the mesh of the chunk holding `p`, if
        that chunk is in the world; voxels and every other chunk stay as
        they were. */
    method RebuildAdjChunk(p: IVec3)
      requires world.Valid()
      modifies world.chunks
      ensures world.Valid() && world.Voxels() == old(world.Voxels())
      ensures GetChunkIndex(p) != -1 ==> SlotMeshed(GetChunkIndex(p), world.Voxels())
      ensures forall j :: 0 <= j < WORLD_VOL && j != GetChunkIndex(p) ==> unchanged(world.chunks[j])
      ensures forall j :: 0 <= j < WORLD_VOL ==>
        world.chunks[j].voxels == old(world.chunks[j].voxels) && world.chunks[j].isEmpty == old(world.chunks[j].isEmpty)
    {
      var index := GetChunkIndex(p);
      if index != -1 {
        world.RebuildMesh(world.chunks[index], index, world.Voxels());
      }
    }

    /** `rebuild_adjacent_chunks`: on each axis where the hit voxel lies on
        its chunk's lower or upper face, rebuild the chunk across that face.
        Those chunks end up meshed for the current voxels; every other chunk
        stays as it was. */
    method RebuildAdjacentChunks()
      requires Valid()
      modifies world.chunks
      ensures Valid() && world.Voxels() == old(world.Voxels())
      ensures forall j :: 0 <= j < WORLD_VOL && j in AdjacentSlots(voxelLocal, voxelWorld) ==> SlotMeshed(j, world.Voxels())
      ensures forall j :: 0 <= j < WORLD_VOL && old(SlotMeshed(j, world.Voxels())) ==> SlotMeshed(j, world.Voxels())
      ensures forall j :: 0 <= j < WORLD_VOL && j !in AdjacentSlots(voxelLocal, voxelWorld) ==> unchanged(world.chunks[j])
      ensures forall j :: 0 <= j < WORLD_VOL ==>
        world.chunks[j].voxels == old(world.chunks[j].voxels) && world.chunks[j].isEmpty == old(world.chunks[j].isEmpty)
    {
      var l, p := voxelLocal, voxelWorld;
      RebuildAxis(l.x, p, 0);
      RebuildAxis(l.y, p, 1);
      RebuildAxis(l.z, p, 2);
    }

    /** One axis of `rebuild_adjacent_chunks`: the neighbour across the lower
        face when the local coordinate is 0, across the upper face when it is
        CHUNK_SIZE - 1. Slots meshed before stay meshed. */
    method RebuildAxis(l: int, p: IVec3, axis: int)
      requires world.Valid()
      modifies world.chunks
      ensures world.Valid() && world.Voxels() == old(world.Voxels())
      ensures AxisSlot(l, p, axis) != -1 ==> SlotMeshed(AxisSlot(l, p, axis), world.Voxels())
      ensures forall j :: 0 <= j < WORLD_VOL && old(SlotMeshed(j, world.Voxels())) ==> SlotMeshed(j, world.Voxels())
      ensures forall j :: 0 <= j < WORLD_VOL && j != AxisSlot(l, p, axis) ==> unchanged(world.chunks[j])
      ensures forall j :: 0 <= j < WORLD_VOL ==>
        world.chunks[j].voxels == old(world.chunks[j].voxels) && world.chunks[j].isEmpty == old(world.chunks[j].isEmpty)
    {
      if l == 0 {
        RebuildAdjChunk(p.Add(Unit(axis).Scale(-1)));
      } else if l == CHUNK_SIZE - 1 {
        RebuildAdjChunk(p.Add(Unit(axis)));
      }
    }
  }
}
