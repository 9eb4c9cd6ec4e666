/**
 * What the terrain triangle stream promises its renderer: every attribute in
 * range, positions tied to texture coordinates, every grid point drawn, and
 * every triangle wound the same way.
 */
module MeshProperties {
  import opened Vectors
  import opened Heightmap

  /** Every float of the stream lies in the range of the attribute it holds. */
  lemma StreamFloatBounds(img: seq<byte>, h: int, w: int, k: int)
    requires ValidImage(img, h, w) && 0 <= k < FloatCount(h, w)
    ensures k % FloatsPerVertex == 0 ==> -1.0 <= StreamFloat(img, h, w, k) <= 1.0
    ensures k % FloatsPerVertex == 1 ==> -1.0 <= StreamFloat(img, h, w, k) <= -0.5
    ensures k % FloatsPerVertex == 2 ==> -1.0 <= StreamFloat(img, h, w, k) <= 1.0
    ensures k % FloatsPerVertex == 3 ==> 0.0 <= StreamFloat(img, h, w, k) <= 1.0
    ensures k % FloatsPerVertex == 4 ==> 0.0 <= StreamFloat(img, h, w, k) <= 1.0
  {
  }

  /** The five floats of vertex n sit at 5 * n .. 5 * n + 4. */
  lemma VertexFloats(h: int, w: int, n: int, c: int)
    requires 2 <= h && 2 <= w && 0 <= n < VertexCount(h, w) && 0 <= c < FloatsPerVertex
    ensures 0 <= FloatsPerVertex * n + c < FloatCount(h, w)
    ensures (FloatsPerVertex * n + c) / FloatsPerVertex == n
    ensures (FloatsPerVertex * n + c) % FloatsPerVertex == c
  {
    DivModUnique(FloatsPerVertex * n + c, FloatsPerVertex, n, c);
  }

  /**
   * Within every vertex, x is 2u - 1 and z is 2v - 1: the texture is laid
   * over the terrain exactly once, without offset.
   */
  lemma StreamPositionMatchesTexCoord(img: seq<byte>, h: int, w: int, n: int)
    requires ValidImage(img, h, w) && 0 <= n < VertexCount(h, w)
    ensures FloatsPerVertex * n + 4 < FloatCount(h, w)
    ensures StreamFloat(img, h, w, FloatsPerVertex * n) == 2.0 * StreamFloat(img, h, w, FloatsPerVertex * n + 3) - 1.0
    ensures StreamFloat(img, h, w, FloatsPerVertex * n + 2) == 2.0 * StreamFloat(img, h, w, FloatsPerVertex * n + 4) - 1.0
  {
    VertexFloats(h, w, n, 0);
    VertexFloats(h, w, n, 2);
    VertexFloats(h, w, n, 3);
    VertexFloats(h, w, n, 4);
    StreamPointInGrid(h, w, n);
  }

  /** Every point of the grid is a vertex of some triangle of the stream. */
  lemma EveryPointInStream(h: int, w: int, g: GridPoint)
    requires 2 <= h && 2 <= w && InGrid(h, w, g)
    ensures exists n :: 0 <= n < VertexCount(h, w) && StreamPoint(w, n) == g
  {
    var i := if g.row < h - 1 then g.row else h - 2;
    var j := if g.col < w - 1 then g.col else w - 2;
    var v :=
      if g.row == i && g.col == j then 0
      else if g.row == i + 1 && g.col == j then 1
      else if g.row == i + 1 then 2
      else 4;
    StreamPointOfCell(h, w, i, j, v);
    var n := VerticesPerCell * ((w - 1) * i + j) + v;
    assert StreamPoint(w, n) == g;
  }

  /** Twice the signed area of triangle a, b, c seen from above (projected on the XZ plane). */
  function SignedAreaXZ(ax: real, az: real, bx: real, bz: real, cx: real, cz: real): real {
    (bx - ax) * (cz - az) - (bz - az) * (cx - ax)
  }

  /** The XZ extent of one cell: its width times its depth, never zero. */
  function CellArea(h: int, w: int): (a: real)
    requires 2 <= h && 2 <= w
    ensures a > 0.0
  {
    (2.0 / (w - 1) as real) * (2.0 / (h - 1) as real)
  }

  /**
   * Both triangles of cell (i, j) have the same orientation and a full half
   * cell of area: neither is degenerate and neither is flipped.
   */
  lemma CellWinding(img: seq<byte>, h: int, w: int, i: int, j: int)
    requires ValidImage(img, h, w) && 0 <= i < h - 1 && 0 <= j < w - 1
    ensures var a, b, c, d := GridPosition(img, h, w, i, j), GridPosition(img, h, w, i + 1, j),
                              GridPosition(img, h, w, i + 1, j + 1), GridPosition(img, h, w, i, j + 1);
      SignedAreaXZ(a.x, a.z, b.x, b.z, c.x, c.z) == -CellArea(h, w) &&
      SignedAreaXZ(c.x, c.z, d.x, d.z, a.x, a.z) == -CellArea(h, w)
  {
    ColumnStep(img, h, w, i, i + 1, j);
    RowStep(img, h, w, i, j, j + 1);
    BoxWinding(GridPosition(img, h, w, i, j), GridPosition(img, h, w, i + 1, j),
               GridPosition(img, h, w, i + 1, j + 1), GridPosition(img, h, w, i, j + 1),
               2.0 / (w - 1) as real, 2.0 / (h - 1) as real);
  }

  /** One column further on, in any row, x is 2 / (w - 1) larger; in the same column it is the same. */
  lemma ColumnStep(img: seq<byte>, h: int, w: int, i: int, i': int, j: int)
    requires ValidImage(img, h, w) && 0 <= i < h && 0 <= i' < h && 0 <= j < w - 1
    ensures GridPosition(img, h, w, i', j).x == GridPosition(img, h, w, i, j).x
    ensures GridPosition(img, h, w, i', j + 1).x == GridPosition(img, h, w, i, j).x + 2.0 / (w - 1) as real
  {
    ScaleStep(j, w);
  }

  /** One row further on, in any column, z is 2 / (h - 1) larger; in the same row it is the same. */
  lemma RowStep(img: seq<byte>, h: int, w: int, i: int, j: int, j': int)
    requires ValidImage(img, h, w) && 0 <= i < h - 1 && 0 <= j < w && 0 <= j' < w
    ensures GridPosition(img, h, w, i, j').z == GridPosition(img, h, w, i, j).z
    ensures GridPosition(img, h, w, i + 1, j').z == GridPosition(img, h, w, i, j).z + 2.0 / (h - 1) as real
  {
    ScaleStep(i, h);
  }

  /**
   * Corners a, b, c, d of a dx-by-dz box, b one row on from a, c diagonally
   * opposite, d one column on: both halves a-b-c and c-d-a have area -dx * dz.
   */
  lemma BoxWinding(a: Vec3, b: Vec3, c: Vec3, d: Vec3, dx: real, dz: real)
    requires b.x == a.x && c.x == a.x + dx && d.x == a.x + dx
    requires b.z == a.z + dz && c.z == a.z + dz && d.z == a.z
    ensures SignedAreaXZ(a.x, a.z, b.x, b.z, c.x, c.z) == -(dx * dz)
    ensures SignedAreaXZ(c.x, c.z, d.x, d.z, a.x, a.z) == -(dx * dz)
  {
  }

  /**
   * Triangle s (0 or 1) of cell (i, j), whose floats start at base, has
   * negative signed area -CellArea in (x, z), which is counter-clockwise
   * seen from above (+y): every triangle of the terrain faces the same way.
   */
  lemma HalfCellWinding(img: seq<byte>, h: int, w: int, i: int, j: int, s: int, base: int)
    requires ValidImage(img, h, w) && 0 <= i < h - 1 && 0 <= j < w - 1 && 0 <= s < 2
    requires base == FloatsPerVertex * VerticesPerCell * ((w - 1) * i + j) + 15 * s
    ensures 0 <= base && base + 12 < FloatCount(h, w)
    ensures SignedAreaXZ(StreamFloat(img, h, w, base), StreamFloat(img, h, w, base + 2),
                         StreamFloat(img, h, w, base + 5), StreamFloat(img, h, w, base + 7),
                         StreamFloat(img, h, w, base + 10), StreamFloat(img, h, w, base + 12))
            == -CellArea(h, w)
  {
    CellWinding(img, h, w, i, j);
    if s == 0 {
      StreamVertexXZ(img, h, w, i, j, 0, base, i, j);
      StreamVertexXZ(img, h, w, i, j, 1, base + 5, i + 1, j);
      StreamVertexXZ(img, h, w, i, j, 2, base + 10, i + 1, j + 1);
    } else {
      StreamVertexXZ(img, h, w, i, j, 3, base, i + 1, j + 1);
      StreamVertexXZ(img, h, w, i, j, 4, base + 5, i, j + 1);
      StreamVertexXZ(img, h, w, i, j, 5, base + 10, i, j);
    }
  }

  /** The x and z floats of vertex v of cell (i, j) are those of the grid position of that corner. */
  lemma StreamVertexXZ(img: seq<byte>, h: int, w: int, i: int, j: int, v: int, k: int, r: int, c: int)
    requires ValidImage(img, h, w) && 0 <= i < h - 1 && 0 <= j < w - 1 && 0 <= v < VerticesPerCell
    requires k == FloatsPerVertex * VerticesPerCell * ((w - 1) * i + j) + FloatsPerVertex * v
    requires CellCorners(i, j)[v] == GridPoint(r, c)
    ensures 0 <= k && k + 2 < FloatCount(h, w) && 0 <= r < h && 0 <= c < w
    ensures StreamFloat(img, h, w, k) == GridPosition(img, h, w, r, c).x
    ensures StreamFloat(img, h, w, k + 2) == GridPosition(img, h, w, r, c).z
  {
    DivModUnique(FloatsPerVertex * v, FloatsPerVertex, v, 0);
    DivModUnique(FloatsPerVertex * v + 2, FloatsPerVertex, v, 2);
    StreamFloatInCell(img, h, w, i, j, FloatsPerVertex * v);
    StreamFloatInCell(img, h, w, i, j, FloatsPerVertex * v + 2);
  }

  /**
   * The smallest terrain, a 2 x 2 image: one cell, 30 floats, and its first
   * triangle runs from the near-left corner (0, 0) down to (1, 0) and across
   * to (1, 1), with the heights of those samples.
   */
  lemma TwoByTwoFirstTriangle(img: seq<byte>)
    requires ValidImage(img, 2, 2)
    ensures FloatCount(2, 2) == 30
    ensures [StreamFloat(img, 2, 2, 0), StreamFloat(img, 2, 2, 2), StreamFloat(img, 2, 2, 3), StreamFloat(img, 2, 2, 4)]
         == [-1.0, -1.0, 0.0, 0.0]
    ensures [StreamFloat(img, 2, 2, 5), StreamFloat(img, 2, 2, 7), StreamFloat(img, 2, 2, 8), StreamFloat(img, 2, 2, 9)]
         == [-1.0, 1.0, 0.0, 1.0]
    ensures [StreamFloat(img, 2, 2, 10), StreamFloat(img, 2, 2, 12), StreamFloat(img, 2, 2, 13), StreamFloat(img, 2, 2, 14)]
         == [1.0, 1.0, 1.0, 1.0]
    ensures StreamFloat(img, 2, 2, 1) == -(img[0] as real / 255.0) / 2.0 - 0.5
    ensures StreamFloat(img, 2, 2, 6) == -(img[2] as real / 255.0) / 2.0 - 0.5
    ensures StreamFloat(img, 2, 2, 11) == -(img[3] as real / 255.0) / 2.0 - 0.5
  {
  }

  // ---------------------------------------------------------------------
  // The terrain draw call (main.cpp:894)
  // ---------------------------------------------------------------------

  /**
   * The vertex count the render loop passes to glDrawArrays for the terrain:
   * 5 * 3 * 2 * (h - 1) * (w - 1), the number of floats in the buffer rather
   * than the number of vertices.
   */
  function DrawCountAsWritten(h: int, w: int): int {
    5 * 3 * 2 * (h - 1) * (w - 1)
  }

  /**
   * The draw asks for five times as many vertices as the buffer holds, so
   * GL reads 5 * FloatCount floats from a buffer of FloatCount.
   */
  lemma DrawCountOverruns(h: int, w: int)
    requires 2 <= h && 2 <= w
    ensures DrawCountAsWritten(h, w) == FloatsPerVertex * VertexCount(h, w)
    ensures DrawCountAsWritten(h, w) > VertexCount(h, w)
    ensures FloatsPerVertex * DrawCountAsWritten(h, w) > FloatCount(h, w)
  {
    MulMonotone(h - 1, 1, w - 1);
  }

  /**
   * The count the draw should use: the vertex count BuildMesh returns, which
   * covers the buffer exactly.
   */
  method DrawCount(img: seq<byte>, h: int, w: int) returns (count: int)
    requires ValidImage(img, h, w)
    ensures count == VertexCount(h, w)
    ensures count < DrawCountAsWritten(h, w)
  {
    var htTriangles, vertexCount := BuildMesh(img, h, w);
    count := vertexCount;
    DrawCountOverruns(h, w);
  }
}
