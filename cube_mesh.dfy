/** The voxel marker's cube: vertex tables indexed by triangles and the
    expansion of a triangle list into one row per corner. */
module CubeMeshes {

  /** One row of a vertex table: a position (x, y, z) or a texture
      coordinate (u, v). */
  type Row = seq<int>

  /** `indices` is a list of triangles: triples of indices into a table of
      `n` vertices. */
  predicate Triangles(indices: seq<seq<int>>, n: int) {
    forall t :: 0 <= t < |indices| ==>
      |indices[t]| == 3 && 0 <= indices[t][0] < n && 0 <= indices[t][1] < n && 0 <= indices[t][2] < n
  }

  /** The three corners of triangle `tri`, looked up in `vertices`. */
  function Corners<T>(vertices: seq<T>, tri: seq<int>): seq<T>
    requires |tri| == 3 && 0 <= tri[0] < |vertices| && 0 <= tri[1] < |vertices| && 0 <= tri[2] < |vertices|
  {
    [vertices[tri[0]], vertices[tri[1]], vertices[tri[2]]]
  }

  /** `get_data`: the vertices of every triangle, corner by corner, in
      order: the corners of triangle t fill positions 3t to 3t + 2, and
      every entry is a vertex of the table. */
  function GetData<T>(vertices: seq<T>, indices: seq<seq<int>>): (r: seq<T>)
    requires Triangles(indices, |vertices|)
    ensures |r| == 3 * |indices|
    ensures forall t :: 0 <= t < |indices| ==> r[3 * t..3 * t + 3] == Corners(vertices, indices[t])
    ensures forall i :: 0 <= i < |r| ==> r[i] in vertices
  {
    var r := seq(3 * |indices|, i requires 0 <= i < 3 * |indices| => vertices[indices[i / 3][i % 3]]);
    assert forall t :: 0 <= t < |indices| ==> (3 * t) / 3 == t && (3 * t + 1) / 3 == t && (3 * t + 2) / 3 == t;
    r
  }

  /** Expanding two triangle lists one after the other gives the two
      expansions one after the other. */
  lemma {:induction false} GetDataAppend<T>(vertices: seq<T>, a: seq<seq<int>>, b: seq<seq<int>>)
    requires Triangles(a, |vertices|) && Triangles(b, |vertices|)
    ensures Triangles(a + b, |vertices|)
    ensures GetData(vertices, a + b) == GetData(vertices, a) + GetData(vertices, b)
  {
    assert forall t :: 0 <= t < |a + b| ==> (a + b)[t] == if t < |a| then a[t] else b[t - |a|];
    if a != [] {
      assert (a + b)[1..] == a[1..] + b;
      GetDataAppend(vertices, a[1..], b);
    } else {
      assert a + b == b;
    }
  }

  /** The cube's eight corners. */
  const CUBE_VERTICES: seq<Row> := [
    [0, 0, 1], [1, 0, 1], [1, 1, 1], [0, 1, 1],
    [0, 1, 0], [0, 0, 0], [1, 0, 0], [1, 1, 0]
  ]

  /** Two triangles per face, six faces. */
  const CUBE_INDICES: seq<seq<int>> := [
    [0, 2, 3], [0, 1, 2],
    [1, 7, 2], [1, 6, 7],
    [6, 5, 4], [4, 7, 6],
    [3, 4, 5], [3, 5, 0],
    [3, 7, 4], [3, 2, 7],
    [0, 6, 1], [0, 5, 6]
  ]

  /** The corners of the unit texture square. */
  const TEX_VERTICES: seq<Row> := [[0, 0], [1, 0], [1, 1], [0, 1]]

  /** The texture triangle for each of the twelve cube triangles. */
  const TEX_INDICES: seq<seq<int>> := [
    [0, 2, 3], [0, 1, 2],
    [0, 2, 3], [0, 1, 2],
    [0, 1, 2], [2, 3, 0],
    [2, 3, 0], [2, 0, 1],
    [0, 2, 3], [0, 1, 2],
    [3, 1, 2], [3, 0, 1]
  ]

  /** Every table index is in range and both lists have twelve triangles. */
  lemma TablesInRange()
    ensures Triangles(CUBE_INDICES, |CUBE_VERTICES|) && Triangles(TEX_INDICES, |TEX_VERTICES|)
    ensures |CUBE_INDICES| == |TEX_INDICES| == 12
  {
    assert |CUBE_VERTICES| == 8 && |TEX_VERTICES| == 4;
    forall t | 0 <= t < 12
      ensures |CUBE_INDICES[t]| == 3 && forall k :: 0 <= k < 3 ==> 0 <= CUBE_INDICES[t][k] < 8
      ensures |TEX_INDICES[t]| == 3 && forall k :: 0 <= k < 3 ==> 0 <= TEX_INDICES[t][k] < 4
    {
    }
  }

  /** Every entry of `row` is 0 or 1. */
  predicate UnitRow(row: Row) {
    forall c :: 0 <= c < |row| ==> row[c] == 0 || row[c] == 1
  }

  /** Both tables hold corners of the unit cube and the unit square. */
  lemma UnitTables()
    ensures forall v :: v in CUBE_VERTICES ==> |v| == 3 && UnitRow(v)
    ensures forall v :: v in TEX_VERTICES ==> |v| == 2 && UnitRow(v)
  {
  }

  /** The positions of the marker's 36 corners: each a corner of the unit cube. */
  function PositionData(): (r: seq<Row>)
    ensures |r| == 36 && forall i :: 0 <= i < |r| ==> r[i] in CUBE_VERTICES && |r[i]| == 3 && UnitRow(r[i])
  {
    TablesInRange();
    UnitTables();
    GetData(CUBE_VERTICES, CUBE_INDICES)
  }

  /** The texture coordinates of the marker's 36 corners: each a corner of
      the unit square. */
  function TexCoordData(): (r: seq<Row>)
    ensures |r| == 36 && forall i :: 0 <= i < |r| ==> r[i] in TEX_VERTICES && |r[i]| == 2 && UnitRow(r[i])
  {
    TablesInRange();
    UnitTables();
    GetData(TEX_VERTICES, TEX_INDICES)
  }

  /** `get_vertex_data`: row i is the texture coordinate of corner i
      followed by its position (`hstack` joins the two arrays row by row). */
  function VertexData(): (r: seq<Row>)
    ensures |r| == 36
    ensures forall i :: 0 <= i < 36 ==> |r[i]| == 5 && r[i][..2] == TexCoordData()[i] && r[i][2..] == PositionData()[i]
  {
    var tex, pos := TexCoordData(), PositionData();
    seq(36, i requires 0 <= i < 36 => tex[i] + pos[i])
  }

  /** The marker is the unit cube with the unit texture square: every entry
      of every row is 0 or 1. */
  lemma {:induction false} UnitCube()
    ensures forall i :: 0 <= i < 36 ==> UnitRow(VertexData()[i])
  {
    var r, tex, pos := VertexData(), TexCoordData(), PositionData();
    forall i | 0 <= i < 36
      ensures UnitRow(r[i])
    {
      assert r[i] == tex[i] + pos[i];
      assert UnitRow(tex[i]) && UnitRow(pos[i]);
    }
  }
}
