/** Terrain filling of one chunk: the flat voxel index, the choice of a block
    type for one voxel, and tree stamping. Noise values, the terrain height and
    the draws of the global random stream are inputs. */
module TerrainGen {
  import opened Settings
  import opened BlockType

  /** A local voxel coordinate inside a chunk. */
  predicate InChunk(l: IVec3) {
    0 <= l.x < CHUNK_SIZE && 0 <= l.y < CHUNK_SIZE && 0 <= l.z < CHUNK_SIZE
  }

  /** An array of `length` voxels is a chunk and has local cell `l`. */
  predicate CellOf(length: int, l: IVec3) {
    length == CHUNK_VOL && InChunk(l)
  }

  /** Flat index of a local voxel: row-major with z before y. */
  function GetIndex(x: int, y: int, z: int): (i: int)
    ensures InChunk(IVec3(x, y, z)) ==> 0 <= i < CHUNK_VOL
  {
    x + CHUNK_SIZE * z + CHUNK_AREA * y
  }

  /** The local coordinate stored at flat index `i` (inverse of GetIndex). */
  function LocalPos(i: int): (l: IVec3)
    requires 0 <= i < CHUNK_VOL
    ensures InChunk(l) && GetIndex(l.x, l.y, l.z) == i
  {
    IVec3(i % CHUNK_SIZE, i / CHUNK_AREA, (i / CHUNK_SIZE) % CHUNK_SIZE)
  }

  /** Decoding the index of a local coordinate gives that coordinate back. */
  lemma LocalPosOfIndex(l: IVec3)
    requires InChunk(l)
    ensures LocalPos(GetIndex(l.x, l.y, l.z)) == l
  {
    var i := GetIndex(l.x, l.y, l.z);
    DivMod(i, 32, l.z + 32 * l.y, l.x);
    DivMod(i, 1024, l.y, l.x + 32 * l.z);
    DivMod(l.z + 32 * l.y, 32, l.y, l.z);
  }

  /** GetIndex is injective on local coordinates. */
  lemma GetIndexInjective(a: IVec3, b: IVec3)
    requires InChunk(a) && InChunk(b)
    requires GetIndex(a.x, a.y, a.z) == GetIndex(b.x, b.y, b.z)
    ensures a == b
  {
    LocalPosOfIndex(a);
    LocalPosOfIndex(b);
  }

  // ---------------------------------------------------------------------------
  // Block choice for one voxel

  /** The draws of the global random stream that one `set_voxel_id` call (and
      the tree it may plant) consumes, keyed by the voxel's world position. */
  datatype VoxelDraws = VoxelDraws(
    coal1: Draw, coal2: Draw, tin1: Draw, tin2: Draw, copper1: Draw, copper2: Draw,
    band: Draw, tree: Draw, leaf0: Draw, leaf1: Draw, leaf2: Draw)

  /** What terrain generation reads besides the chunk: the height of each
      column, the 3-D cave noise and the 2-D cave-floor noise at each position,
      and the random draws per voxel. */
  datatype TerrainInputs = TerrainInputs(
    height: (int, int) -> int,
    cave: (int, int, int) -> real,
    floor: (int, int) -> real,
    draws: (int, int, int) -> VoxelDraws)
  {
    // Lookups as member functions: their values do not depend on the heap.
    function Height(x: int, z: int): int { height(x, z) }
    function Cave(x: int, y: int, z: int): real { cave(x, y, z) }
    function Floor(x: int, z: int): real { floor(x, z) }
    function Draws(x: int, y: int, z: int): VoxelDraws { draws(x, y, z) }
  }

  /** `int(k * random.random())` for a positive `k`. */
  function Scaled(k: int, d: Draw): (r: int)
    requires k > 0
    ensures 0 <= r < k
  {
    assert k as real * d < k as real by {
      assert k as real * (1.0 - d) > 0.0;
    }
    (k as real * d).Floor
  }

  /** The cave test: positive cave noise, and `wy` strictly between the cave
      floor `floor * 3 + 3` and ten below the column top. */
  predicate IsCave(cave: real, floor: real, wy: int, worldHeight: int) {
    cave > 0.0 && floor * 3.0 + 3.0 < wy as real && wy < worldHeight - 10
  }

  /** The id `set_voxel_id` chooses for world height `wy` in a column of
      height `worldHeight`: caves and ores below the top voxel of the column,
      elevation bands (shifted down by up to six) from the top voxel up. */
  function ChooseBlock(wy: int, worldHeight: int, cave: real, floor: real, d: VoxelDraws): Byte {
    if wy < worldHeight - 1 then
      if IsCave(cave, floor, wy, worldHeight) then VOID
      else if d.coal1 > 0.027 && d.coal2 < 0.03 && wy < worldHeight - 1 && wy > worldHeight - 25 then COAL_ORE
      else if d.tin1 > 0.0090 && d.tin2 < 0.0091 && wy < worldHeight - 10 && wy > worldHeight - 20 then TIN_ORE
      else if d.copper1 > 0.0091 && d.copper2 < 0.01 && wy < worldHeight - 10 && wy > worldHeight - 20 then COPPER_ORE
      else STONE
    else
      var ry := wy - Scaled(7, d.band);
      if SNOW_LVL <= ry < worldHeight then SNOW
      else if STONE_LVL <= ry < SNOW_LVL then STONE
      else if DIRT_LVL <= ry < STONE_LVL then DIRT
      else if GRASS_LVL <= ry < DIRT_LVL then GRASS
      else SAND
  }

  /** Below the column top only void, ores and stone occur; void exactly in
      caves, coal only within 24 of the top, tin and copper only in the band
      from 19 to 11 below it. */
  lemma ChooseBlockUnderground(wy: int, worldHeight: int, cave: real, floor: real, d: VoxelDraws)
    requires wy < worldHeight - 1
    ensures var id := ChooseBlock(wy, worldHeight, cave, floor, d);
      && id in {VOID, COAL_ORE, TIN_ORE, COPPER_ORE, STONE}
      && (id == VOID <==> IsCave(cave, floor, wy, worldHeight))
      && (id == COAL_ORE ==> worldHeight - 25 < wy)
      && (id == TIN_ORE || id == COPPER_ORE ==> worldHeight - 20 < wy < worldHeight - 10)
  {
  }

  /** From the column top up the id follows the elevation bands: it is one of
      snow, stone, dirt, grass and sand; high enough voxels are snow and low
      ones sand whatever the draw, since the draw shifts the height by 0..6. */
  lemma ChooseBlockSurface(wy: int, worldHeight: int, cave: real, floor: real, d: VoxelDraws)
    requires wy >= worldHeight - 1
    ensures var id := ChooseBlock(wy, worldHeight, cave, floor, d);
      && id in {SNOW, STONE, DIRT, GRASS, SAND}
      && (SNOW_LVL + 6 <= wy < worldHeight ==> id == SNOW)
      && (wy < GRASS_LVL ==> id == SAND)
      && (id == SNOW ==> SNOW_LVL <= wy && wy - 6 < worldHeight)
      && (id == GRASS ==> GRASS_LVL <= wy < DIRT_LVL + 6)
  {
    var r := Scaled(7, d.band);
    assert 0 <= r <= 6;
  }

  // ---------------------------------------------------------------------------
  // Writing into a chunk

  /** The chunk `s` with cell `c` set to `id`; a cell outside the chunk
      leaves it as it was. */
  function Put(s: seq<Byte>, c: IVec3, id: Byte): (r: seq<Byte>)
    ensures |r| == |s|
  {
    if InChunk(c) && |s| == CHUNK_VOL then s[GetIndex(c.x, c.y, c.z) := id] else s
  }

  /** After a Put, the written cell holds the new id and every other cell of
      the chunk its old value. */
  lemma PutAt(s: seq<Byte>, c: IVec3, id: Byte, q: IVec3)
    requires |s| == CHUNK_VOL && InChunk(q)
    ensures Put(s, c, id)[GetIndex(q.x, q.y, q.z)] == if q == c then id else s[GetIndex(q.x, q.y, q.z)]
  {
    if q != c && InChunk(c) && GetIndex(q.x, q.y, q.z) == GetIndex(c.x, c.y, c.z) {
      GetIndexInjective(q, c);
    }
  }

  // ---------------------------------------------------------------------------
  // Trees

  /** The position guards of `place_tree`: the tree's top stays below the
      chunk's ceiling and its crown two cells clear of every side wall. */
  predicate TreeFits(t: IVec3) {
    t.y + TREE_HEIGHT < CHUNK_SIZE
    && 0 <= t.x - TREE_H_WIDTH && t.x + TREE_H_WIDTH < CHUNK_SIZE
    && 0 <= t.z - TREE_H_WIDTH && t.z + TREE_H_WIDTH < CHUNK_SIZE
  }

  /** `place_tree` plants a tree: a grass voxel, a draw at most
      TREE_PROBABILITY, and a position that fits. */
  predicate Planted(t: IVec3, voxelId: int, d: VoxelDraws) {
    voxelId == GRASS && d.tree <= TREE_PROBABILITY && TreeFits(t)
  }

  /** A tree base inside the chunk that passes the position guards. */
  predicate Site(t: IVec3) {
    InChunk(t) && TreeFits(t)
  }

  /** The counter `m` while crown layer `n` (height `TREE_H_HEIGHT + n`) is
      written: it starts at 0 and grows by `1 if n > 0 else 3 if n > 1 else 0`
      after each layer, so the `3` branch is never taken. */
  function Shrink(n: int): int {
    if n <= 1 then 0 else n - 1
  }

  /** The diagonal shift `k` of crown layer `n`: odd heights move one cell along x and z. */
  function Shift(n: int): int {
    (TREE_H_HEIGHT + n) % 2
  }

  /** The product `m * rng` of the counter of crown layer `n` and the layer's
      draw `r`, which is 0 or 1: the counter when the draw is 1, else 0. */
  function Cut(n: int, r: int): int {
    if r == 0 then 0 else Shrink(n)
  }

  /** The offset ranges `ix` in [IxLo, IxHi) and `iz` in [IzLo, IzHi) of crown
      layer `n` with the layer's draw `r`. */
  function IxLo(n: int): int { -TREE_H_WIDTH + Shrink(n) }
  function IxHi(n: int, r: int): int { TREE_H_WIDTH - Cut(n, r) }
  function IzLo(n: int, r: int): int { -TREE_H_WIDTH + Cut(n, r) }
  function IzHi(n: int): int { TREE_H_WIDTH - Shrink(n) }

  /** The arguments of one crown layer: a tree site, layer `n` of three, the
      counter `m` of that layer and a draw `r` of 0 or 1. */
  predicate LayerArgs(t: IVec3, n: int, m: int, r: int) {
    Site(t) && 0 <= n < 3 && m == Shrink(n) && 0 <= r <= 1
  }

  /** The cell crown layer `n` writes for offsets (ix, iz). */
  function LeafCell(t: IVec3, n: int, ix: int, iz: int): IVec3 {
    IVec3(t.x + ix + Shift(n), t.y + TREE_H_HEIGHT + n, t.z + iz + Shift(n))
  }

  /** Every leaf cell of a tree that fits lies inside the chunk, so the crown
      loops never index outside the voxel array. */
  lemma LeafCellInChunk(t: IVec3, n: int, r: int, ix: int, iz: int)
    requires InChunk(t) && TreeFits(t) && 0 <= n < 3 && 0 <= r <= 1
    requires IxLo(n) <= ix < IxHi(n, r) && IzLo(n, r) <= iz < IzHi(n)
    ensures InChunk(LeafCell(t, n, ix, iz))
  {
  }

  /** Row `ix` of crown layer `n` after the `iz` loop has run from IzLo up to
      `iz`: a leaf wherever `(ix + iz) % 4 != 0`. */
  function RowState(s: seq<Byte>, t: IVec3, n: int, r: int, ix: int, iz: int): (p: seq<Byte>)
    ensures |p| == |s|
    decreases iz - IzLo(n, r)
  {
    if iz <= IzLo(n, r) then s
    else
      var p := RowState(s, t, n, r, ix, iz - 1);
      if (ix + iz - 1) % 4 != 0 then Put(p, LeafCell(t, n, ix, iz - 1), LEAVES) else p
  }

  /** Crown layer `n` after rows IxLo up to `ix`. */
  function LayerState(s: seq<Byte>, t: IVec3, n: int, r: int, ix: int): (p: seq<Byte>)
    ensures |p| == |s|
    decreases ix - IxLo(n)
  {
    if ix <= IxLo(n) then s
    else RowState(LayerState(s, t, n, r, ix - 1), t, n, r, ix - 1, IzHi(n))
  }

  /** The first `n` crown layers, with the layer draws `rs`. */
  function CrownState(s: seq<Byte>, t: IVec3, rs: seq<int>, n: int): (p: seq<Byte>)
    requires 0 <= n <= |rs|
    ensures |p| == |s|
  {
    if n == 0 then s
    else LayerState(CrownState(s, t, rs, n - 1), t, n - 1, rs[n - 1], IxHi(n - 1, rs[n - 1]))
  }

  /** The trunk after heights 1 up to `iy`. */
  function TrunkState(s: seq<Byte>, t: IVec3, top: int): (p: seq<Byte>)
    ensures |p| == |s|
    decreases top - t.y
  {
    if top <= t.y + 1 then s else Put(TrunkState(s, t, top - 1), IVec3(t.x, top - 1, t.z), WOOD)
  }

  /** A whole planted tree in program order: dirt below, the crown, the
      trunk, and the leaf on top. */
  function TreeState(s: seq<Byte>, t: IVec3, rs: seq<int>): (p: seq<Byte>)
    requires |rs| == 3
    ensures |p| == |s|
  {
    var crowned := CrownState(Put(s, t, DIRT), t, rs, |rs|);
    Put(TrunkState(crowned, t, t.y + TREE_HEIGHT - 2), IVec3(t.x, t.y + TREE_HEIGHT - 2, t.z), LEAVES)
  }

  /** The layer draws `int(random.random() * 2)` of the three crown layers. */
  function LeafDraws(d: VoxelDraws): (rs: seq<int>)
    ensures |rs| == 3 && forall i :: 0 <= i < 3 ==> 0 <= rs[i] <= 1
  {
    [Scaled(2, d.leaf0), Scaled(2, d.leaf1), Scaled(2, d.leaf2)]
  }

  /** The chunk after `place_tree`: unchanged unless the tree is planted. */
  function TreeEffect(s: seq<Byte>, t: IVec3, voxelId: int, d: VoxelDraws): (r: seq<Byte>)
    ensures |r| == |s|
  {
    if Planted(t, voxelId, d) then TreeState(s, t, LeafDraws(d)) else s
  }

  /** Cell `c` is a leaf position of crown layer `n`: at the layer's height,
      with offsets (ix, iz) from the shifted trunk such that `(ix + iz) % 4 != 0`. */
  predicate IsLeaf(t: IVec3, n: int, c: IVec3) {
    c.y == t.y + TREE_H_HEIGHT + n && (c.x - t.x - Shift(n) + c.z - t.z - Shift(n)) % 4 != 0
  }

  /** Cell `c` gets a leaf from crown layer `n` with layer draw `r`. */
  predicate InLayer(t: IVec3, n: int, r: int, c: IVec3) {
    IsLeaf(t, n, c)
    && IxLo(n) <= c.x - t.x - Shift(n) < IxHi(n, r)
    && IzLo(n, r) <= c.z - t.z - Shift(n) < IzHi(n)
  }

  /** Cell `c` gets a leaf from one of the first `n` crown layers. */
  predicate InCrown(t: IVec3, rs: seq<int>, n: int, c: IVec3)
    requires 0 <= n <= |rs|
  {
    var j := c.y - t.y - TREE_H_HEIGHT;
    0 <= j < n && InLayer(t, j, rs[j], c)
  }

  lemma {:induction false} RowAt(s: seq<Byte>, t: IVec3, n: int, r: int, ix: int, iz: int, q: IVec3)
    requires |s| == CHUNK_VOL && InChunk(q)
    ensures RowState(s, t, n, r, ix, iz)[GetIndex(q.x, q.y, q.z)]
      == if IsLeaf(t, n, q) && q.x - t.x - Shift(n) == ix && IzLo(n, r) <= q.z - t.z - Shift(n) < iz
         then LEAVES else s[GetIndex(q.x, q.y, q.z)]
    decreases iz - IzLo(n, r)
  {
    if iz > IzLo(n, r) {
      RowAt(s, t, n, r, ix, iz - 1, q);
      PutAt(RowState(s, t, n, r, ix, iz - 1), LeafCell(t, n, ix, iz - 1), LEAVES, q);
    }
  }

  lemma {:induction false} LayerAt(s: seq<Byte>, t: IVec3, n: int, r: int, ix: int, q: IVec3)
    requires |s| == CHUNK_VOL && InChunk(q)
    ensures LayerState(s, t, n, r, ix)[GetIndex(q.x, q.y, q.z)]
      == if IsLeaf(t, n, q) && IxLo(n) <= q.x - t.x - Shift(n) < ix && IzLo(n, r) <= q.z - t.z - Shift(n) < IzHi(n)
         then LEAVES else s[GetIndex(q.x, q.y, q.z)]
    decreases ix - IxLo(n)
  {
    if ix > IxLo(n) {
      LayerAt(s, t, n, r, ix - 1, q);
      RowAt(LayerState(s, t, n, r, ix - 1), t, n, r, ix - 1, IzHi(n), q);
    }
  }

  lemma {:induction false} CrownAt(s: seq<Byte>, t: IVec3, rs: seq<int>, n: int, q: IVec3)
    requires |s| == CHUNK_VOL && InChunk(q) && 0 <= n <= |rs|
    ensures CrownState(s, t, rs, n)[GetIndex(q.x, q.y, q.z)]
      == if InCrown(t, rs, n, q) then LEAVES else s[GetIndex(q.x, q.y, q.z)]
  {
    if n > 0 {
      CrownAt(s, t, rs, n - 1, q);
      LayerAt(CrownState(s, t, rs, n - 1), t, n - 1, rs[n - 1], IxHi(n - 1, rs[n - 1]), q);
      if q.y - t.y - TREE_H_HEIGHT == n - 1 {
        assert !InCrown(t, rs, n - 1, q);
        assert InCrown(t, rs, n, q) == InLayer(t, n - 1, rs[n - 1], q);
      } else {
        assert !IsLeaf(t, n - 1, q);
        assert InCrown(t, rs, n, q) == InCrown(t, rs, n - 1, q);
      }
    }
  }

  lemma {:induction false} TrunkAt(s: seq<Byte>, t: IVec3, top: int, q: IVec3)
    requires |s| == CHUNK_VOL && InChunk(q)
    ensures TrunkState(s, t, top)[GetIndex(q.x, q.y, q.z)]
      == if q.x == t.x && q.z == t.z && t.y < q.y < top then WOOD else s[GetIndex(q.x, q.y, q.z)]
    decreases top - t.y
  {
    if top > t.y + 1 {
      TrunkAt(s, t, top - 1, q);
      PutAt(TrunkState(s, t, top - 1), IVec3(t.x, top - 1, t.z), WOOD, q);
    }
  }

  /** The chunk after a planted tree, cell by cell: the top leaf at height 6
      above the base, wood at heights 1 to 5 (the trunk is written after the
      crown and wins over it), leaves on the crown pattern, dirt at the base,
      and every other cell as it was. */
  lemma TreeShape(s: seq<Byte>, t: IVec3, voxelId: int, d: VoxelDraws, q: IVec3)
    requires |s| == CHUNK_VOL && InChunk(t) && InChunk(q) && Planted(t, voxelId, d)
    ensures TreeEffect(s, t, voxelId, d)[GetIndex(q.x, q.y, q.z)]
      == if q == IVec3(t.x, t.y + TREE_HEIGHT - 2, t.z) then LEAVES
         else if q.x == t.x && q.z == t.z && t.y < q.y < t.y + TREE_HEIGHT - 2 then WOOD
         else if InCrown(t, LeafDraws(d), 3, q) then LEAVES
         else if q == t then DIRT
         else s[GetIndex(q.x, q.y, q.z)]
  {
    var rs := LeafDraws(d);
    var based := Put(s, t, DIRT);
    var crowned := CrownState(based, t, rs, |rs|);
    var trunked := TrunkState(crowned, t, t.y + TREE_HEIGHT - 2);
    PutAt(trunked, IVec3(t.x, t.y + TREE_HEIGHT - 2, t.z), LEAVES, q);
    TrunkAt(crowned, t, t.y + TREE_HEIGHT - 2, q);
    CrownAt(based, t, rs, |rs|, q);
    PutAt(s, t, DIRT, q);
  }

  /** One more step of the `iz` loop: a leaf at (ix, iz) unless `(ix + iz) % 4 == 0`. */
  lemma RowNext(s: seq<Byte>, t: IVec3, n: int, r: int, ix: int, iz: int)
    requires IzLo(n, r) <= iz
    ensures RowState(s, t, n, r, ix, iz + 1)
      == if (ix + iz) % 4 != 0 then Put(RowState(s, t, n, r, ix, iz), LeafCell(t, n, ix, iz), LEAVES)
         else RowState(s, t, n, r, ix, iz)
  {
  }

  /** Row `ix` of crown layer `n`: the `iz` loop of `place_tree`, which
      writes a leaf wherever `(ix + iz) % 4 != 0`. */
  method PlaceLeafRow(voxels: array<Byte>, x: int, y: int, z: int, n: int, m: int, rng: int, ix: int)
    requires voxels.Length == CHUNK_VOL && LayerArgs(IVec3(x, y, z), n, m, rng) && IxLo(n) <= ix < IxHi(n, rng)
    modifies voxels
    ensures voxels[..] == RowState(old(voxels[..]), IVec3(x, y, z), n, rng, ix, IzHi(n))
  {
    ghost var t := IVec3(x, y, z);
    var iy := TREE_H_HEIGHT + n;
    var k := iy % 2;
    var iz := -TREE_H_WIDTH + Cut(n, rng);
    var hi := TREE_H_WIDTH - m;
    while iz < hi
      invariant IzLo(n, rng) <= iz <= IzHi(n) == hi
      invariant voxels[..] == RowState(old(voxels[..]), t, n, rng, ix, iz)
    {
      ghost var before := voxels[..];
      RowNext(old(voxels[..]), t, n, rng, ix, iz);
      if (ix + iz) % 4 != 0 {
        LeafCellInChunk(t, n, rng, ix, iz);
        var c := IVec3(x + ix + k, y + iy, z + iz + k);
        assert c == LeafCell(t, n, ix, iz);
        voxels[GetIndex(c.x, c.y, c.z)] := LEAVES;
        assert voxels[..] == Put(before, c, LEAVES);
      }
      iz := iz + 1;
    }
    assert iz == IzHi(n);
  }

  /** Crown layer `n` (height `TREE_H_HEIGHT + n`) of `place_tree`: the `ix`
      loop, with the counter `m` and the layer's draw `rng`. */
  method PlaceCrownLayer(voxels: array<Byte>, x: int, y: int, z: int, n: int, m: int, rng: int)
    requires voxels.Length == CHUNK_VOL && LayerArgs(IVec3(x, y, z), n, m, rng)
    modifies voxels
    ensures voxels[..] == LayerState(old(voxels[..]), IVec3(x, y, z), n, rng, IxHi(n, rng))
  {
    ghost var t := IVec3(x, y, z);
    var ix := -TREE_H_WIDTH + m;
    var hi := TREE_H_WIDTH - Cut(n, rng);
    while ix < hi
      invariant IxLo(n) <= ix <= IxHi(n, rng) == hi
      invariant voxels[..] == LayerState(old(voxels[..]), t, n, rng, ix)
    {
      PlaceLeafRow(voxels, x, y, z, n, m, rng, ix);
      ix := ix + 1;
    }
    assert ix == IxHi(n, rng);
  }

  /** The crown loop of `place_tree`: three layers, the counter `m` and one
      draw `int(random() * 2)` per layer. */
  method PlaceCrown(voxels: array<Byte>, x: int, y: int, z: int, d: VoxelDraws)
    requires voxels.Length == CHUNK_VOL && Site(IVec3(x, y, z))
    modifies voxels
    ensures voxels[..] == CrownState(old(voxels[..]), IVec3(x, y, z), LeafDraws(d), |LeafDraws(d)|)
  {
    ghost var t := IVec3(x, y, z);
    ghost var rs := LeafDraws(d);
    var layerDraws := [d.leaf0, d.leaf1, d.leaf2];
    var m := 0;
    var n := 0;
    while n < TREE_HEIGHT - 1 - TREE_H_HEIGHT
      invariant 0 <= n <= 3 && m == Shrink(n)
      invariant voxels[..] == CrownState(old(voxels[..]), t, rs, n)
    {
      var rng := Scaled(2, layerDraws[n]);
      assert rng == rs[n];
      PlaceCrownLayer(voxels, x, y, z, n, m, rng);
      m := m + (if n > 0 then 1 else if n > 1 then 3 else 0);
      n := n + 1;
    }
  }

  /** The trunk loop of `place_tree`: wood at heights 1 to TREE_HEIGHT - 3. */
  method PlaceTrunk(voxels: array<Byte>, x: int, y: int, z: int)
    requires voxels.Length == CHUNK_VOL && Site(IVec3(x, y, z))
    modifies voxels
    ensures voxels[..] == TrunkState(old(voxels[..]), IVec3(x, y, z), y + TREE_HEIGHT - 2)
  {
    ghost var t := IVec3(x, y, z);
    var iy := 1;
    while iy < TREE_HEIGHT - 2
      invariant 1 <= iy <= TREE_HEIGHT - 2
      invariant voxels[..] == TrunkState(old(voxels[..]), t, y + iy)
    {
      voxels[GetIndex(x, y + iy, z)] := WOOD;
      iy := iy + 1;
    }
    assert iy == TREE_HEIGHT - 2;
  }

  /** The writes of `place_tree` once its guards have passed: dirt at the
      base, the crown layer by layer, the trunk and the top leaf. */
  method PlantTree(voxels: array<Byte>, x: int, y: int, z: int, d: VoxelDraws)
    requires voxels.Length == CHUNK_VOL && Site(IVec3(x, y, z))
    modifies voxels
    ensures voxels[..] == TreeState(old(voxels[..]), IVec3(x, y, z), LeafDraws(d))
  {
    ghost var t := IVec3(x, y, z);
    ghost var rs := LeafDraws(d);

    // Dirt under the tree
    voxels[GetIndex(x, y, z)] := DIRT;
    ghost var based := voxels[..];
    assert based == Put(old(voxels[..]), t, DIRT);

    // Leaves
    PlaceCrown(voxels, x, y, z, d);
    ghost var crowned := voxels[..];
    assert crowned == CrownState(based, t, rs, |rs|);

    // Tree trunk
    PlaceTrunk(voxels, x, y, z);
    ghost var trunked := voxels[..];
    assert trunked == TrunkState(crowned, t, y + TREE_HEIGHT - 2);

    // Top
    voxels[GetIndex(x, y + TREE_HEIGHT - 2, z)] := LEAVES;
    assert voxels[..] == Put(trunked, IVec3(x, y + TREE_HEIGHT - 2, z), LEAVES);
  }

  /** `place_tree`: a tree is planted on grass with probability
      TREE_PROBABILITY where it fits in the chunk; otherwise nothing changes. */
  method PlaceTree(voxels: array<Byte>, x: int, y: int, z: int, voxelId: Byte, d: VoxelDraws)
    requires CellOf(voxels.Length, IVec3(x, y, z))
    modifies voxels
    ensures voxels[..] == TreeEffect(old(voxels[..]), IVec3(x, y, z), voxelId, d)
  {
    var rnd := d.tree;
    if voxelId != GRASS || rnd > TREE_PROBABILITY {
      return;
    }
    if y + TREE_HEIGHT >= CHUNK_SIZE {
      return;
    }
    if x - TREE_H_WIDTH < 0 || x + TREE_H_WIDTH >= CHUNK_SIZE {
      return;
    }
    if z - TREE_H_WIDTH < 0 || z + TREE_H_WIDTH >= CHUNK_SIZE {
      return;
    }
    PlantTree(voxels, x, y, z, d);
  }

  // ---------------------------------------------------------------------------
  // One voxel of terrain

  /** The chunk after `set_voxel_id` at local cell `l` with world height `wy`:
      the chosen id is written at `l`, then a tree is attempted there when `wy`
      is below DIRT_LVL. */
  function SetVoxelIdEffect(s: seq<Byte>, l: IVec3, wy: int, worldHeight: int, cave: real, floor: real, d: VoxelDraws): (r: seq<Byte>)
    ensures |r| == |s|
  {
    var id := ChooseBlock(wy, worldHeight, cave, floor, d);
    var placed := Put(s, l, id);
    if wy < DIRT_LVL then TreeEffect(placed, l, id, d) else placed
  }

  /** A tree grows out of a `set_voxel_id` call only on surface grass below DIRT_LVL. */
  predicate TreeGrows(l: IVec3, wy: int, worldHeight: int, cave: real, floor: real, d: VoxelDraws) {
    wy < DIRT_LVL && Planted(l, ChooseBlock(wy, worldHeight, cave, floor, d), d)
  }

  /** Without a tree `set_voxel_id` writes exactly cell `l`, with the chosen id;
      with one, cell `l` ends up dirt under the trunk, and the tree occupies
      the cells TreeShape describes. */
  lemma SetVoxelIdAt(s: seq<Byte>, l: IVec3, wy: int, worldHeight: int, cave: real, floor: real, d: VoxelDraws, q: IVec3)
    requires |s| == CHUNK_VOL && InChunk(l) && InChunk(q)
    ensures var r := SetVoxelIdEffect(s, l, wy, worldHeight, cave, floor, d);
      && (!TreeGrows(l, wy, worldHeight, cave, floor, d) ==>
            r[GetIndex(q.x, q.y, q.z)] == if q == l then ChooseBlock(wy, worldHeight, cave, floor, d) else s[GetIndex(q.x, q.y, q.z)])
      && (TreeGrows(l, wy, worldHeight, cave, floor, d) ==>
            r[GetIndex(q.x, q.y, q.z)]
            == if q == IVec3(l.x, l.y + TREE_HEIGHT - 2, l.z) then LEAVES
               else if q.x == l.x && q.z == l.z && l.y < q.y < l.y + TREE_HEIGHT - 2 then WOOD
               else if InCrown(l, LeafDraws(d), 3, q) then LEAVES
               else if q == l then DIRT
               else s[GetIndex(q.x, q.y, q.z)])
  {
    var id := ChooseBlock(wy, worldHeight, cave, floor, d);
    PutAt(s, l, id, q);
    if TreeGrows(l, wy, worldHeight, cave, floor, d) {
      TreeShape(Put(s, l, id), l, id, d, q);
    }
  }

  /** Trees are planted only on the column's top voxel or above it, in the
      grass band below DIRT_LVL, and never under a cave or ore. */
  lemma TreeOnlyOnSurface(l: IVec3, wy: int, worldHeight: int, cave: real, floor: real, d: VoxelDraws)
    requires TreeGrows(l, wy, worldHeight, cave, floor, d)
    ensures worldHeight - 1 <= wy && GRASS_LVL <= wy < DIRT_LVL
    ensures d.tree <= TREE_PROBABILITY && TreeFits(l)
  {
    if wy < worldHeight - 1 {
      ChooseBlockUnderground(wy, worldHeight, cave, floor, d);
    } else {
      ChooseBlockSurface(wy, worldHeight, cave, floor, d);
    }
  }

  /** `set_voxel_id`: picks the block for local cell (x, y, z) at world
      position (wx, wy, wz) in a column of height `worldHeight`, writes it,
      and attempts a tree there when `wy` is below DIRT_LVL. */
  method SetVoxelId(voxels: array<Byte>, x: int, y: int, z: int, wx: int, wy: int, wz: int, worldHeight: int, inp: TerrainInputs)
    requires CellOf(voxels.Length, IVec3(x, y, z))
    modifies voxels
    ensures voxels[..] == SetVoxelIdEffect(old(voxels[..]), IVec3(x, y, z), wy, worldHeight,
                                           inp.Cave(wx, wy, wz), inp.Floor(wx, wz), inp.Draws(wx, wy, wz))
  {
    var d := inp.Draws(wx, wy, wz);
    var voxelId := ChooseBlock(wy, worldHeight, inp.Cave(wx, wy, wz), inp.Floor(wx, wz), d);

    // Setting ID
    voxels[GetIndex(x, y, z)] := voxelId;
    assert voxels[..] == Put(old(voxels[..]), IVec3(x, y, z), voxelId);

    // Place tree
    if wy < DIRT_LVL {
      PlaceTree(voxels, x, y, z, voxelId, d);
    }
  }
}
