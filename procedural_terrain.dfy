/**
 * Index construction of the procedural terrain mesh: a (r+1) x (r+1) grid
 * of vertices in row-major order (x inner, z outer) and two triangles per
 * grid cell. Heights, vertex colours and UVs are left out; a vertex is
 * recorded by its grid coordinates (its local position is the grid
 * coordinate times the step `chunkSize / r`).
 */
module Terrain {
  import opened Numerics
  import opened WorldCoordinates
  import opened Engine

  /** Resolutions whose vertex and index counts fit in a 32-bit `int`. */
  type Resolution = r: int | 0 <= r <= 18918

  datatype GridPoint = GridPoint(x: int, z: int)

  function VertexCount(r: Resolution): nat {
    (r + 1) * (r + 1)
  }

  function TriangleIndexCount(r: Resolution): nat {
    r * r * 6
  }

  /** The grid points of row z, x running from 0 to r. */
  function Row(r: Resolution, z: int): (s: seq<GridPoint>)
    ensures |s| == r + 1
    ensures forall x :: 0 <= x <= r ==> s[x] == GridPoint(x, z)
  {
    seq(r + 1, x => GridPoint(x, z))
  }

  /** The first `rows` rows of the vertex grid, one after the other. */
  function Grid(r: Resolution, rows: nat): seq<GridPoint> {
    if rows == 0 then [] else Grid(r, rows - 1) + Row(r, rows - 1)
  }

  /** The vertex buffer of a mesh of resolution r. */
  function VertexGrid(r: Resolution): seq<GridPoint> {
    Grid(r, r + 1)
  }

  /** The six indices of cell (x, z): triangles (tl, bl, tr) and (tr, bl, br). */
  function CellCorners(r: Resolution, x: int, z: int): (s: seq<int>)
    ensures |s| == 6
  {
    var topLeft := z * (r + 1) + x;
    var topRight := topLeft + 1;
    var bottomLeft := (z + 1) * (r + 1) + x;
    var bottomRight := bottomLeft + 1;
    [topLeft, bottomLeft, topRight, topRight, bottomLeft, bottomRight]
  }

  /** The indices of the first `cells` cells of row z. */
  function CellRow(r: Resolution, z: int, cells: nat): (s: seq<int>)
    ensures |s| == 6 * cells
  {
    if cells == 0 then [] else CellRow(r, z, cells - 1) + CellCorners(r, cells - 1, z)
  }

  /** The indices of the first `rows` rows of cells. */
  function CellRows(r: Resolution, rows: nat): seq<int> {
    if rows == 0 then [] else CellRows(r, rows - 1) + CellRow(r, rows - 1, r)
  }

  /** The triangle index buffer of a mesh of resolution r. */
  function TriangleIndices(r: Resolution): seq<int> {
    CellRows(r, r)
  }

  lemma {:induction false} GridLength(r: Resolution, rows: nat)
    ensures |Grid(r, rows)| == rows * (r + 1)
  {
    if rows > 0 {
      GridLength(r, rows - 1);
      assert rows * (r + 1) == (rows - 1) * (r + 1) + r + 1;
    }
  }

  lemma {:induction false} GridGrows(r: Resolution, a: nat, b: nat)
    requires a <= b
    ensures |Grid(r, a)| <= |Grid(r, b)|
  {
    if a < b {
      GridGrows(r, a, b - 1);
    }
  }

  lemma {:induction false} CellRowsLength(r: Resolution, rows: nat)
    ensures |CellRows(r, rows)| == 6 * (rows * r)
  {
    if rows > 0 {
      CellRowsLength(r, rows - 1);
      assert rows * r == (rows - 1) * r + r;
    }
  }

  lemma {:induction false} CellRowsGrow(r: Resolution, a: nat, b: nat)
    requires a <= b
    ensures |CellRows(r, a)| <= |CellRows(r, b)|
  {
    if a < b {
      CellRowsGrow(r, a, b - 1);
    }
  }

  lemma VerticesLength(r: Resolution)
    ensures |VertexGrid(r)| == VertexCount(r)
  {
    GridLength(r, r + 1);
  }

  lemma TrianglesLength(r: Resolution)
    ensures |TriangleIndices(r)| == TriangleIndexCount(r)
  {
    CellRowsLength(r, r);
  }

  lemma RowMajorBound(r: Resolution, x: int, z: int)
    requires 0 <= x <= r && 0 <= z <= r
    ensures 0 <= z * (r + 1) + x < VertexCount(r)
  {
    MulLeq(z, r, r + 1);
    MulLeq(0, z, r + 1);
    assert (r + 1) * (r + 1) == r * (r + 1) + r + 1;
  }

  /** Grid point (x, z) is stored at slot z * (r + 1) + x: row-major, x inner. */
  lemma {:induction false} GridRowMajor(r: Resolution, rows: nat, x: int, z: int)
    requires 0 <= x <= r && 0 <= z < rows
    ensures 0 <= z * (r + 1) + x < |Grid(r, rows)|
    ensures Grid(r, rows)[z * (r + 1) + x] == GridPoint(x, z)
  {
    var rowStart := z * (r + 1);
    MulLeq(0, z, r + 1);
    GridLength(r, rows - 1);
    if z == rows - 1 {
      assert rowStart == |Grid(r, rows - 1)|;
    } else {
      MulLeq(z + 1, rows - 1, r + 1);
      assert (z + 1) * (r + 1) == rowStart + r + 1;
      GridRowMajor(r, rows - 1, x, z);
    }
  }

  /** The vertex buffer holds every point of the (r+1) x (r+1) grid at its row-major slot. */
  lemma VertexGridLayout(r: Resolution, x: int, z: int)
    requires 0 <= x <= r && 0 <= z <= r
    ensures |VertexGrid(r)| == VertexCount(r)
    ensures 0 <= z * (r + 1) + x < VertexCount(r)
    ensures VertexGrid(r)[z * (r + 1) + x] == GridPoint(x, z)
  {
    VerticesLength(r);
    GridRowMajor(r, r + 1, x, z);
  }

  /** Row z of cells follows the cells of the rows before it. */
  lemma {:induction false} CellRowsLayout(r: Resolution, rows: nat, z: nat, j: int)
    requires z < rows && 0 <= j < 6 * r
    ensures |CellRows(r, z)| + j < |CellRows(r, rows)|
    ensures CellRows(r, rows)[|CellRows(r, z)| + j] == CellRow(r, z, r)[j]
  {
    if z < rows - 1 {
      CellRowsLayout(r, rows - 1, z, j);
    }
  }

  /** The triangle buffer holds corner k of cell (x, z) at slot 6 * (z * r + x) + k. */
  lemma TriangleLayout(r: Resolution, x: int, z: int, k: int)
    requires 0 <= x < r && 0 <= z < r && 0 <= k < 6
    ensures 0 <= 6 * (z * r + x) + k < |TriangleIndices(r)|
    ensures TriangleIndices(r)[6 * (z * r + x) + k] == CellCorners(r, x, z)[k]
  {
    CellSlot(r, x, z, k);
    CellRowsLayout(r, r, z, 6 * x + k);
    CellRowLayout(r, z, r, x, k);
  }

  /** Rows 0 .. z-1 hold z * r cells of six indices each. */
  lemma CellSlot(r: Resolution, x: int, z: nat, k: int)
    requires 0 <= x < r && 0 <= k < 6
    ensures |CellRows(r, z)| + 6 * x + k == 6 * (z * r + x) + k
    ensures 0 <= 6 * (z * r + x) + k
  {
    MulLeq(0, z, r);
    CellRowsLength(r, z);
  }

  lemma {:induction false} CellRowLayout(r: Resolution, z: int, cells: nat, x: int, k: int)
    requires 0 <= x < cells && 0 <= k < 6
    ensures CellRow(r, z, cells)[6 * x + k] == CellCorners(r, x, z)[k]
  {
    if x < cells - 1 {
      CellRowLayout(r, z, cells - 1, x, k);
    }
  }

  /** Every index is below `bound`. */
  predicate AllBelow(s: seq<int>, bound: int) {
    forall j :: 0 <= j < |s| ==> 0 <= s[j] < bound
  }

  lemma {:induction false} CellRowInRange(r: Resolution, z: int, cells: nat)
    requires 0 <= z < r && cells <= r
    ensures AllBelow(CellRow(r, z, cells), VertexCount(r))
  {
    if cells > 0 {
      CellRowInRange(r, z, cells - 1);
      var x := cells - 1;
      RowMajorBound(r, x, z);
      RowMajorBound(r, x + 1, z);
      RowMajorBound(r, x, z + 1);
      RowMajorBound(r, x + 1, z + 1);
      assert (z + 1) * (r + 1) + x + 1 == (z + 1) * (r + 1) + (x + 1);
    }
  }

  lemma {:induction false} CellRowsInRange(r: Resolution, rows: nat)
    requires rows <= r
    ensures AllBelow(CellRows(r, rows), VertexCount(r))
  {
    if rows > 0 {
      CellRowsInRange(r, rows - 1);
      CellRowInRange(r, rows - 1, r);
    }
  }

  /** Every triangle index addresses one of the (r+1)^2 vertices. */
  lemma TriangleIndicesInRange(r: Resolution)
    ensures |TriangleIndices(r)| == TriangleIndexCount(r)
    ensures AllBelow(TriangleIndices(r), VertexCount(r))
  {
    TrianglesLength(r);
    CellRowsInRange(r, r);
  }

  /** The fixed quad of the flat terrain, in grid units of one chunk. */
  function FlatTerrainVertices(): seq<GridPoint> {
    [GridPoint(0, 0), GridPoint(1, 0), GridPoint(0, 1), GridPoint(1, 1)]
  }

  function FlatTerrainTriangles(): seq<int> {
    [0, 2, 1, 2, 3, 1]
  }

  /** `(a, b, c)` and `(p, q, s)` are the same triangle with the same winding. */
  predicate SameTriangle(a: int, b: int, c: int, p: int, q: int, s: int) {
    (a, b, c) == (p, q, s) || (a, b, c) == (q, s, p) || (a, b, c) == (s, p, q)
  }

  /**
   * The flat terrain is the procedural mesh at resolution 1: the same four
   * vertices in the same slots, and the same two triangles with the same
   * orientation; all six indices are below 4.
   */
  lemma FlatTerrainIsResolutionOne()
    ensures FlatTerrainVertices() == VertexGrid(1)
    ensures |FlatTerrainTriangles()| == TriangleIndexCount(1) == 6
    ensures AllBelow(FlatTerrainTriangles(), VertexCount(1))
    ensures var f, m := FlatTerrainTriangles(), TriangleIndices(1);
      SameTriangle(f[0], f[1], f[2], m[0], m[1], m[2]) &&
      SameTriangle(f[3], f[4], f[5], m[3], m[4], m[5])
  {
    ResolutionOneMesh();
  }

  /** The mesh at resolution 1 written out: one cell over a 2 x 2 grid. */
  lemma ResolutionOneMesh()
    ensures VertexGrid(1) == [GridPoint(0, 0), GridPoint(1, 0), GridPoint(0, 1), GridPoint(1, 1)]
    ensures TriangleIndices(1) == [0, 2, 1, 1, 2, 3]
  {
    assert Row(1, 0) == [GridPoint(0, 0), GridPoint(1, 0)];
    assert Row(1, 1) == [GridPoint(0, 1), GridPoint(1, 1)];
    assert Grid(1, 1) == Row(1, 0);
    assert CellRow(1, 0, 1) == CellCorners(1, 0, 0) == [0, 2, 1, 1, 2, 3];
  }

  /**
   * The vertex loop: z outer, x inner, one running counter that ends at
   * (r+1)^2, so every slot is written exactly once.
   */
  method FillVertexGrid(r: Resolution) returns (vertices: array<GridPoint>)
    ensures vertices[..] == VertexGrid(r)
  {
    vertices := new GridPoint[VertexCount(r)];
    VerticesLength(r);
    var index := 0;
    var z := 0;
    while z <= r
      invariant 0 <= z <= r + 1
      invariant index == |Grid(r, z)| <= vertices.Length
      invariant vertices[..index] == Grid(r, z)
    {
      GridGrows(r, z + 1, r + 1);
      FillVertexRow(vertices, index, r, z);
      index := index + r + 1;
      z := z + 1;
    }
    assert vertices[..] == vertices[..index];
  }

  /** The inner loop of the vertex pass: the r + 1 points of row z, left to right, from `base`. */
  method FillVertexRow(vertices: array<GridPoint>, base: nat, r: Resolution, z: int)
    requires base + r + 1 <= vertices.Length
    modifies vertices
    ensures vertices[..base + r + 1] == old(vertices[..base]) + Row(r, z)
  {
    var index := base;
    var x := 0;
    while x <= r
      invariant 0 <= x <= r + 1
      invariant index == base + x
      invariant vertices[..index] == old(vertices[..base]) + Row(r, z)[..x]
    {
      vertices[index] := GridPoint(x, z);
      assert Row(r, z)[..x + 1] == Row(r, z)[..x] + [GridPoint(x, z)];
      index := index + 1;
      x := x + 1;
    }
    assert Row(r, z)[..r + 1] == Row(r, z);
  }

  /**
   * The triangle loop: cell (x, z) writes its six corners at the running
   * counter, which ends exactly at r * r * 6.
   */
  method FillTriangleIndices(r: Resolution) returns (triangles: array<int>)
    ensures triangles[..] == TriangleIndices(r)
  {
    triangles := new int[TriangleIndexCount(r)];
    TrianglesLength(r);
    var triIndex := 0;
    var z := 0;
    while z < r
      invariant 0 <= z <= r
      invariant triIndex == |CellRows(r, z)| <= triangles.Length
      invariant triangles[..triIndex] == CellRows(r, z)
    {
      CellRowsGrow(r, z + 1, r);
      FillCellRow(triangles, triIndex, r, z);
      assert CellRows(r, z + 1) == CellRows(r, z) + CellRow(r, z, r);
      triIndex := triIndex + 6 * r;
      z := z + 1;
    }
    assert triangles[..] == triangles[..triIndex];
  }

  /** The inner loop of the triangle pass: the r cells of row z, left to right, from `base`. */
  method FillCellRow(triangles: array<int>, base: nat, r: Resolution, z: int)
    requires base + 6 * r <= triangles.Length
    modifies triangles
    ensures triangles[..base + 6 * r] == old(triangles[..base]) + CellRow(r, z, r)
  {
    var triIndex := base;
    var x := 0;
    while x < r
      invariant 0 <= x <= r
      invariant triIndex == base + 6 * x
      invariant triangles[..triIndex] == old(triangles[..base]) + CellRow(r, z, x)
    {
      WriteCell(triangles, triIndex, r, x, z);
      triIndex := triIndex + 6;
      x := x + 1;
    }
  }

  /** The six writes of cell (x, z) at `base`: tl, bl, tr, tr, bl, br. */
  method WriteCell(triangles: array<int>, base: nat, r: Resolution, x: int, z: int)
    requires base + 6 <= triangles.Length
    modifies triangles
    ensures triangles[..base] == old(triangles[..base])
    ensures triangles[..base + 6] == old(triangles[..base]) + CellCorners(r, x, z)
  {
    var topLeft := z * (r + 1) + x;
    var topRight := topLeft + 1;
    var bottomLeft := (z + 1) * (r + 1) + x;
    var bottomRight := bottomLeft + 1;
    triangles[base] := topLeft;
    triangles[base + 1] := bottomLeft;
    triangles[base + 2] := topRight;
    triangles[base + 3] := topRight;
    triangles[base + 4] := bottomLeft;
    triangles[base + 5] := bottomRight;
  }

  class ProceduralTerrainGenerator {
    const terrainResolution: Resolution
    var worldSeed: int

    constructor (terrainResolution: Resolution)
      ensures this.terrainResolution == terrainResolution && worldSeed == 0
    {
      this.terrainResolution := terrainResolution;
      worldSeed := 0;
    }

    method Initialize(seed: int)
      modifies this
      ensures worldSeed == seed
    {
      worldSeed := seed;
    }

    /**
     * Builds the mesh index data of one chunk: the vertex grid and the
     * triangle index buffer (heights, UVs and colours are left out).
     */
    method GenerateTerrainMesh(chunkIndex: ChunkIndex, chunkSize: real)
      returns (vertices: array<GridPoint>, triangles: array<int>)
      ensures vertices[..] == VertexGrid(terrainResolution)
      ensures triangles[..] == TriangleIndices(terrainResolution)
    {
      vertices := FillVertexGrid(terrainResolution);
      triangles := FillTriangleIndices(terrainResolution);
    }

    /** Creates the chunk's terrain object from its mesh. The modelled mesh data depend only on the resolution; the created record names the index, the seed and the resolution. */
    method GenerateTerrainChunk(chunkIndex: ChunkIndex, chunkSize: real, host: Host) returns (terrainObj: Handle)
      modifies host
      ensures host.created == old(host.created) + [ProceduralTerrain(chunkIndex, worldSeed, terrainResolution)]
      ensures host.destroyed == old(host.destroyed)
      ensures terrainObj == |old(host.created)|
    {
      var vertices, triangles := GenerateTerrainMesh(chunkIndex, chunkSize);
      terrainObj := host.Create(ProceduralTerrain(chunkIndex, worldSeed, terrainResolution));
    }
  }
}
