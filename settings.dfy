/** Engine-wide constants and the small value types shared by every module. */
module Settings {

  // Chunk geometry
  const CHUNK_SIZE: int := 32
  const H_CHUNK_SIZE: int := CHUNK_SIZE / 2
  const CHUNK_AREA: int := CHUNK_SIZE * CHUNK_SIZE
  const CHUNK_VOL: int := CHUNK_AREA * CHUNK_SIZE

  // World extent, in chunks
  const WORLD_WIDTH: int := 30
  const WORLD_HEIGHT: int := 3
  const WORLD_DEPTH: int := WORLD_WIDTH
  const WORLD_AREA: int := WORLD_WIDTH * WORLD_DEPTH
  const WORLD_VOL: int := WORLD_AREA * WORLD_HEIGHT

  // Terrain levels
  const SNOW_LVL: int := 55
  const STONE_LVL: int := 48
  const DIRT_LVL: int := 41
  const GRASS_LVL: int := 10
  const SAND_LVL: int := 6

  // Trees
  const TREE_PROBABILITY: real := 0.018
  const TREE_WIDTH: int := 4
  const TREE_HEIGHT: int := 8
  const TREE_H_WIDTH: int := TREE_WIDTH / 2
  const TREE_H_HEIGHT: int := TREE_HEIGHT / 2

  /** One entry of a `uint8` voxel array. */
  type Byte = x: int | 0 <= x < 256

  /** A draw of `random.random()`: a real in [0, 1). */
  type Draw = r: real | 0.0 <= r < 1.0

  /** An integer 3-vector (`glm.ivec3` or a tuple of ints). */
  datatype IVec3 = IVec3(x: int, y: int, z: int)
  {
    function Add(o: IVec3): IVec3 { IVec3(x + o.x, y + o.y, z + o.z) }
    function Scale(k: int): IVec3 { IVec3(k * x, k * y, k * z) }
  }

  /** A value that may be absent (Python's `None`). */
  datatype Option<T> = None | Some(value: T)

  /** A real 3-vector (`glm.vec3`). */
  datatype Vec3 = Vec3(x: real, y: real, z: real)

  /** Arithmetic helper: a positive multiple of a positive number is at least that number. */
  lemma MulAtLeast(k: int, d: int)
    requires k >= 1 && d > 0
    ensures k * d >= d
  {
  }

  /** Arithmetic helper: floor division and remainder are determined by any
      decomposition `n == q * d + r` with `0 <= r < d`. */
  lemma DivMod(n: int, d: int, q: int, r: int)
    requires d > 0 && n == q * d + r && 0 <= r < d
    ensures n / d == q && n % d == r
  {
    var q', r' := n / d, n % d;
    assert n == q' * d + r';
    assert (q - q') * d == r' - r;
    if q > q' {
      MulAtLeast(q - q', d);
    } else if q < q' {
      MulAtLeast(q' - q, d);
    }
  }
}
