/**
 * The terrain mesh built at start-up from an 8-bit greyscale heightmap: first a
 * per-point table of positions and texture coordinates (vVertexData,
 * vCoordsData), then a flat triangle stream (htTriangles) of five floats per
 * vertex, two triangles per grid cell, cells in row-major order.
 */
module Heightmap {
  import opened Vectors

  /** One sample of the intensity image (SOIL_LOAD_L: one channel, 0..255). */
  newtype byte = b: int | 0 <= b < 256

  /** Largest intensity; a sample is divided by it to get a height in [0, 1]. */
  const MaxIntensity: real := 255.0

  /** x, y, z, u, v */
  const FloatsPerVertex := 5

  /** Two triangles of three vertices per cell. */
  const VerticesPerCell := 6

  /** A grid point: row i (the image row, mapped to Z) and column j (mapped to X). */
  datatype GridPoint = GridPoint(row: int, col: int)

  /**
   * A heightmap of h rows and w columns, stored row-major with one byte per
   * sample, so that a row is w bytes long (row_step = ptr_inc * width with
   * ptr_inc = 1). The mapping divides by w - 1 and h - 1, so both must be
   * at least 2.
   */
  predicate ValidImage(img: seq<byte>, h: int, w: int) {
    2 <= h && 2 <= w && |img| == h * w
  }

  predicate InGrid(h: int, w: int, p: GridPoint) {
    0 <= p.row < h && 0 <= p.col < w
  }

  /** Number of quads between grid points. */
  function CellCount(h: int, w: int): int {
    (h - 1) * (w - 1)
  }

  /** Number of vertices in the triangle stream. */
  function VertexCount(h: int, w: int): int {
    VerticesPerCell * CellCount(h, w)
  }

  /** Number of floats in the triangle stream. */
  function FloatCount(h: int, w: int): int {
    FloatsPerVertex * VertexCount(h, w)
  }

  // ---------------------------------------------------------------------
  // Index arithmetic
  // ---------------------------------------------------------------------

  lemma MulMonotone(a: int, x: int, y: int)
    requires 0 <= a && x <= y
    ensures a * x <= a * y
  {
    assert a * y - a * x == a * (y - x);
  }

  lemma MulSucc(a: int, b: int)
    ensures a * (b + 1) == a * b + a
  {
  }

  /** Quotient and remainder are determined by any decomposition a == d * q + r with 0 <= r < d. */
  lemma DivModUnique(a: int, d: int, q: int, r: int)
    requires 0 < d && 0 <= r < d && a == d * q + r
    ensures a / d == q && a % d == r
  {
    var q', r' := a / d, a % d;
    assert a == d * q' + r';
    if q' < q {
      MulMonotone(d, q' + 1, q);
    } else if q < q' {
      MulMonotone(d, q + 1, q');
    }
  }

  /** A nonnegative a below d * b has quotient below b. */
  lemma DivBelow(a: int, d: int, b: int)
    requires 0 < d && 0 <= a < d * b
    ensures 0 <= a / d < b
  {
    if a / d >= b {
      MulMonotone(d, b, a / d);
    }
  }

  /** The row-major offset of (i, j) lies inside an h-by-w image. */
  lemma RowMajorInBounds(h: int, w: int, i: int, j: int)
    requires 0 <= i < h && 0 <= j < w
    ensures 0 <= w * i + j < h * w
  {
    MulMonotone(w, i + 1, h);
    assert w * (i + 1) == w * i + w;
    assert 0 <= w * i by { MulMonotone(w, 0, i); }
  }

  /** Cell (i, j) of the row-major cell order is cell number (w - 1) * i + j, below CellCount. */
  lemma CellIndexInBounds(h: int, w: int, i: int, j: int)
    requires 2 <= h && 2 <= w && 0 <= i < h - 1 && 0 <= j < w - 1
    ensures 0 <= (w - 1) * i + j < CellCount(h, w)
  {
    RowMajorInBounds(h - 1, w - 1, i, j);
  }

  // ---------------------------------------------------------------------
  // The per-point mapping (main.cpp:126-136)
  // ---------------------------------------------------------------------

  /**
   * fScaleC / fScaleR: grid index k of n, spread linearly over [0, 1] so that
   * the first index gives 0 and the last gives 1.
   */
  function Scale(k: int, n: int): (s: real)
    requires 2 <= n && 0 <= k < n
    ensures 0.0 <= s <= 1.0
    ensures s == 0.0 <==> k == 0
    ensures s == 1.0 <==> k == n - 1
  {
    k as real / (n - 1) as real
  }

  /** Consecutive indices are 1 / (n - 1) apart. */
  lemma ScaleStep(k: int, n: int)
    requires 2 <= n && 0 <= k < n - 1
    ensures Scale(k + 1, n) - Scale(k, n) == 1.0 / (n - 1) as real
  {
    var d := (n - 1) as real;
    assert (k + 1) as real / d == k as real / d + 1.0 / d;
  }

  /** The intensity byte of grid point (i, j): offset row_step * i + j * ptr_inc. */
  function Sample(img: seq<byte>, h: int, w: int, i: int, j: int): byte
    requires ValidImage(img, h, w) && 0 <= i < h && 0 <= j < w
  {
    RowMajorInBounds(h, w, i, j);
    img[w * i + j]
  }

  /** vCoordsData[i][j]: the texture coordinate (fScaleC, fScaleR). */
  function GridTexCoord(h: int, w: int, i: int, j: int): (t: Vec2)
    requires 2 <= h && 2 <= w && 0 <= i < h && 0 <= j < w
    ensures 0.0 <= t.x <= 1.0 && 0.0 <= t.y <= 1.0
    ensures i == 0 && j == 0 ==> t == Vec2(0.0, 0.0)
    ensures i == h - 1 && j == w - 1 ==> t == Vec2(1.0, 1.0)
  {
    Vec2(Scale(j, w), Scale(i, h))
  }

  /**
   * vVertexData[i][j]: column j goes to X in [-1, 1], row i to Z in [-1, 1],
   * and the height b / 255 to Y as -height / 2 - 0.5, so a brighter sample
   * sits lower, between -1 (b = 255) and -0.5 (b = 0).
   */
  function GridPosition(img: seq<byte>, h: int, w: int, i: int, j: int): (p: Vec3)
    requires ValidImage(img, h, w) && 0 <= i < h && 0 <= j < w
    ensures -1.0 <= p.x <= 1.0 && -1.0 <= p.z <= 1.0 && -1.0 <= p.y <= -0.5
    ensures p.x == 2.0 * GridTexCoord(h, w, i, j).x - 1.0
    ensures p.z == 2.0 * GridTexCoord(h, w, i, j).y - 1.0
    ensures p.x == -1.0 <==> j == 0
    ensures p.x == 1.0 <==> j == w - 1
    ensures p.z == -1.0 <==> i == 0
    ensures p.z == 1.0 <==> i == h - 1
    ensures p.y == -0.5 <==> Sample(img, h, w, i, j) == 0
    ensures p.y == -1.0 <==> Sample(img, h, w, i, j) == 255
  {
    var fScaleC := Scale(j, w);
    var fScaleR := Scale(i, h);
    var fVertexHeight := Sample(img, h, w, i, j) as real / MaxIntensity;
    Vec3(fScaleC * 2.0 - 1.0, -fVertexHeight / 2.0 - 0.5, fScaleR * 2.0 - 1.0)
  }

  /** A brighter sample never sits higher than a darker one. */
  lemma BrighterIsLower(img: seq<byte>, h: int, w: int, p: GridPoint, q: GridPoint)
    requires ValidImage(img, h, w) && InGrid(h, w, p) && InGrid(h, w, q)
    requires Sample(img, h, w, p.row, p.col) <= Sample(img, h, w, q.row, q.col)
    ensures GridPosition(img, h, w, q.row, q.col).y <= GridPosition(img, h, w, p.row, p.col).y
  {
  }

  /** The five floats pushed for one vertex: position then texture coordinate. */
  function Interleaved(p: Vec3, t: Vec2): seq<real> {
    [p.x, p.y, p.z, t.x, t.y]
  }

  /** Attribute c (0: x, 1: y, 2: z, 3: u, 4: v) of grid point g. */
  function VertexAttribute(img: seq<byte>, h: int, w: int, g: GridPoint, c: int): real
    requires ValidImage(img, h, w) && InGrid(h, w, g) && 0 <= c < FloatsPerVertex
  {
    Interleaved(GridPosition(img, h, w, g.row, g.col), GridTexCoord(h, w, g.row, g.col))[c]
  }

  // ---------------------------------------------------------------------
  // The triangle stream (main.cpp:149-191), specified index by index
  // ---------------------------------------------------------------------

  /**
   * The six vertices emitted for cell (i, j): triangle (i,j), (i+1,j),
   * (i+1,j+1), then triangle (i+1,j+1), (i,j+1), (i,j).
   */
  function CellCorners(i: int, j: int): (cs: seq<GridPoint>)
    ensures |cs| == VerticesPerCell
    ensures forall v :: 0 <= v < |cs| ==> i <= cs[v].row <= i + 1 && j <= cs[v].col <= j + 1
    // the second triangle starts where the first ended and ends where the first started
    ensures cs[3] == cs[2] && cs[5] == cs[0]
    // both triangles contain the diagonal (i,j)-(i+1,j+1) and one off-diagonal corner each
    ensures cs[0] == GridPoint(i, j) && cs[2] == GridPoint(i + 1, j + 1)
    ensures cs[1] == GridPoint(i + 1, j) && cs[4] == GridPoint(i, j + 1)
  {
    [GridPoint(i, j), GridPoint(i + 1, j), GridPoint(i + 1, j + 1),
     GridPoint(i + 1, j + 1), GridPoint(i, j + 1), GridPoint(i, j)]
  }

  /**
   * The grid point behind vertex n of the stream: cells in row-major order
   * over a (w - 1)-wide row of cells, six vertices per cell.
   */
  function StreamPoint(w: int, n: int): GridPoint
    requires 2 <= w && 0 <= n
  {
    var cell := n / VerticesPerCell;
    CellCorners(cell / (w - 1), cell % (w - 1))[n % VerticesPerCell]
  }

  /** Every vertex of the stream is a point of the grid. */
  lemma StreamPointInGrid(h: int, w: int, n: int)
    requires 2 <= h && 2 <= w && 0 <= n < VertexCount(h, w)
    ensures InGrid(h, w, StreamPoint(w, n))
  {
    var cell := n / VerticesPerCell;
    DivBelow(n, VerticesPerCell, CellCount(h, w));
    DivBelow(cell, w - 1, h - 1);
  }

  /** Float k of the stream: attribute k % 5 of vertex k / 5. */
  function StreamFloat(img: seq<byte>, h: int, w: int, k: int): real
    requires ValidImage(img, h, w) && 0 <= k < FloatCount(h, w)
  {
    DivBelow(k, FloatsPerVertex, VertexCount(h, w));
    StreamPointInGrid(h, w, k / FloatsPerVertex);
    VertexAttribute(img, h, w, StreamPoint(w, k / FloatsPerVertex), k % FloatsPerVertex)
  }

  /** Vertex v of cell (i, j) is vertex 6 * ((w - 1) * i + j) + v of the stream. */
  lemma StreamPointOfCell(h: int, w: int, i: int, j: int, v: int)
    requires 2 <= h && 2 <= w && 0 <= i < h - 1 && 0 <= j < w - 1 && 0 <= v < VerticesPerCell
    ensures 0 <= VerticesPerCell * ((w - 1) * i + j) + v < VertexCount(h, w)
    ensures StreamPoint(w, VerticesPerCell * ((w - 1) * i + j) + v) == CellCorners(i, j)[v]
  {
    var cell := (w - 1) * i + j;
    CellIndexInBounds(h, w, i, j);
    DivModUnique(VerticesPerCell * cell + v, VerticesPerCell, cell, v);
    DivModUnique(cell, w - 1, i, j);
  }

  /** Float m of cell (i, j) belongs to corner m / 5 of that cell and is its attribute m % 5. */
  lemma CellFloatIndex(h: int, w: int, i: int, j: int, m: int)
    requires 2 <= h && 2 <= w && 0 <= i < h - 1 && 0 <= j < w - 1
    requires 0 <= m < FloatsPerVertex * VerticesPerCell
    ensures var k := FloatsPerVertex * VerticesPerCell * ((w - 1) * i + j) + m;
      && 0 <= k < FloatCount(h, w)
      && k / FloatsPerVertex == VerticesPerCell * ((w - 1) * i + j) + m / FloatsPerVertex
      && k % FloatsPerVertex == m % FloatsPerVertex
      && StreamPoint(w, k / FloatsPerVertex) == CellCorners(i, j)[m / FloatsPerVertex]
  {
    var cell := (w - 1) * i + j;
    var v := m / FloatsPerVertex;
    StreamPointOfCell(h, w, i, j, v);
    DivModUnique(FloatsPerVertex * VerticesPerCell * cell + m, FloatsPerVertex, VerticesPerCell * cell + v, m % FloatsPerVertex);
  }

  /**
   * The 30 floats of cell (i, j) start at 30 * ((w - 1) * i + j); float m of
   * them is attribute m % 5 of corner m / 5 of the cell.
   */
  lemma StreamFloatInCell(img: seq<byte>, h: int, w: int, i: int, j: int, m: int)
    requires ValidImage(img, h, w) && 0 <= i < h - 1 && 0 <= j < w - 1
    requires 0 <= m < FloatsPerVertex * VerticesPerCell
    ensures 0 <= FloatsPerVertex * VerticesPerCell * ((w - 1) * i + j) + m < FloatCount(h, w)
    ensures InGrid(h, w, CellCorners(i, j)[m / FloatsPerVertex])
    ensures StreamFloat(img, h, w, FloatsPerVertex * VerticesPerCell * ((w - 1) * i + j) + m)
         == VertexAttribute(img, h, w, CellCorners(i, j)[m / FloatsPerVertex], m % FloatsPerVertex)
  {
    CellFloatIndex(h, w, i, j, m);
    StreamPointOfCell(h, w, i, j, m / FloatsPerVertex);
  }

  // ---------------------------------------------------------------------
  // Construction (main.cpp:116-191)
  // ---------------------------------------------------------------------

  /** The tables hold, at every grid point, its position and its texture coordinate. */
  ghost predicate GridFilled(img: seq<byte>, h: int, w: int, vVertexData: array2<Vec3>, vCoordsData: array2<Vec2>)
    requires ValidImage(img, h, w)
    reads vVertexData, vCoordsData
  {
    vVertexData.Length0 == h && vVertexData.Length1 == w &&
    vCoordsData.Length0 == h && vCoordsData.Length1 == w &&
    forall i, j :: 0 <= i < h && 0 <= j < w ==>
      vVertexData[i, j] == GridPosition(img, h, w, i, j) && vCoordsData[i, j] == GridTexCoord(h, w, i, j)
  }

  /** The first pair of nested loops: fill vVertexData and vCoordsData point by point. */
  method BuildGrid(img: seq<byte>, h: int, w: int) returns (vVertexData: array2<Vec3>, vCoordsData: array2<Vec2>)
    requires ValidImage(img, h, w)
    ensures fresh(vVertexData) && fresh(vCoordsData)
    ensures GridFilled(img, h, w, vVertexData, vCoordsData)
  {
    vVertexData := new Vec3[h, w];
    vCoordsData := new Vec2[h, w];
    for i := 0 to h
      invariant forall r, c :: 0 <= r < i && 0 <= c < w ==>
        vVertexData[r, c] == GridPosition(img, h, w, r, c) && vCoordsData[r, c] == GridTexCoord(h, w, r, c)
    {
      for j := 0 to w
        invariant forall r, c :: 0 <= r < i && 0 <= c < w ==>
          vVertexData[r, c] == GridPosition(img, h, w, r, c) && vCoordsData[r, c] == GridTexCoord(h, w, r, c)
        invariant forall c :: 0 <= c < j ==>
          vVertexData[i, c] == GridPosition(img, h, w, i, c) && vCoordsData[i, c] == GridTexCoord(h, w, i, c)
      {
        vVertexData[i, j] := GridPosition(img, h, w, i, j);
        vCoordsData[i, j] := GridTexCoord(h, w, i, j);
      }
    }
  }

  // The emission loops only read the tables, so they are specified against
  // the tables; BuildMesh then puts the tables' contents in.

  predicate TablesShaped(h: int, w: int, vVertexData: array2<Vec3>, vCoordsData: array2<Vec2>) {
    2 <= h && 2 <= w &&
    vVertexData.Length0 == h && vVertexData.Length1 == w &&
    vCoordsData.Length0 == h && vCoordsData.Length1 == w
  }

  /** The five floats the tables hold for grid point g. */
  ghost function TableFloats(vVertexData: array2<Vec3>, vCoordsData: array2<Vec2>, g: GridPoint): seq<real>
    requires 0 <= g.row < vVertexData.Length0 && 0 <= g.col < vVertexData.Length1
    requires 0 <= g.row < vCoordsData.Length0 && 0 <= g.col < vCoordsData.Length1
    reads vVertexData, vCoordsData
  {
    Interleaved(vVertexData[g.row, g.col], vCoordsData[g.row, g.col])
  }

  /** Float k of the stream read from the tables: attribute k % 5 of the table entry of vertex k / 5. */
  ghost function TableStreamFloat(h: int, w: int, vVertexData: array2<Vec3>, vCoordsData: array2<Vec2>, k: int): real
    requires TablesShaped(h, w, vVertexData, vCoordsData) && 0 <= k < FloatCount(h, w)
    reads vVertexData, vCoordsData
  {
    DivBelow(k, FloatsPerVertex, VertexCount(h, w));
    StreamPointInGrid(h, w, k / FloatsPerVertex);
    TableFloats(vVertexData, vCoordsData, StreamPoint(w, k / FloatsPerVertex))[k % FloatsPerVertex]
  }

  /** The six table entries of the corners of cell (i, j), in emission order. */
  ghost function CellTableFloats(vVertexData: array2<Vec3>, vCoordsData: array2<Vec2>, i: int, j: int): (cells: seq<real>)
    requires 0 <= i && i + 1 < vVertexData.Length0 && 0 <= j && j + 1 < vVertexData.Length1
    requires vCoordsData.Length0 == vVertexData.Length0 && vCoordsData.Length1 == vVertexData.Length1
    reads vVertexData, vCoordsData
    ensures |cells| == FloatsPerVertex * VerticesPerCell
  {
    var cs := CellCorners(i, j);
    TableFloats(vVertexData, vCoordsData, cs[0]) + TableFloats(vVertexData, vCoordsData, cs[1])
      + TableFloats(vVertexData, vCoordsData, cs[2]) + TableFloats(vVertexData, vCoordsData, cs[3])
      + TableFloats(vVertexData, vCoordsData, cs[4]) + TableFloats(vVertexData, vCoordsData, cs[5])
  }

  /** Float m of cell (i, j) is float 30 * ((w - 1) * i + j) + m of the table stream. */
  lemma CellTableFloatAt(h: int, w: int, vVertexData: array2<Vec3>, vCoordsData: array2<Vec2>, i: int, j: int, m: int)
    requires TablesShaped(h, w, vVertexData, vCoordsData)
    requires 0 <= i < h - 1 && 0 <= j < w - 1 && 0 <= m < FloatsPerVertex * VerticesPerCell
    ensures |CellTableFloats(vVertexData, vCoordsData, i, j)| == FloatsPerVertex * VerticesPerCell
    ensures 0 <= FloatsPerVertex * VerticesPerCell * ((w - 1) * i + j) + m < FloatCount(h, w)
    ensures CellTableFloats(vVertexData, vCoordsData, i, j)[m]
         == TableStreamFloat(h, w, vVertexData, vCoordsData, FloatsPerVertex * VerticesPerCell * ((w - 1) * i + j) + m)
  {
    CellFloatIndex(h, w, i, j, m);
    assert CellTableFloats(vVertexData, vCoordsData, i, j)[m]
        == TableFloats(vVertexData, vCoordsData, CellCorners(i, j)[m / FloatsPerVertex])[m % FloatsPerVertex];
  }

  /** A float pushed by the iteration for cell (i, j) is the table stream's float at the same place. */
  lemma AppendedCellAt(h: int, w: int, vVertexData: array2<Vec3>, vCoordsData: array2<Vec2>, i: int, j: int,
                       before: seq<real>, k: int)
    requires TablesShaped(h, w, vVertexData, vCoordsData)
    requires 0 <= i < h - 1 && 0 <= j < w - 1
    requires |before| == FloatsPerVertex * VerticesPerCell * ((w - 1) * i + j)
    requires |before| <= k < |before| + FloatsPerVertex * VerticesPerCell
    ensures k < FloatCount(h, w)
    ensures (before + CellTableFloats(vVertexData, vCoordsData, i, j))[k] == TableStreamFloat(h, w, vVertexData, vCoordsData, k)
  {
    CellTableFloatAt(h, w, vVertexData, vCoordsData, i, j, k - |before|);
  }

  /**
   * The emission loops after the first i rows of cells and the first j cells
   * of row i: each cell appends the table entries of its six corners.
   */
  ghost function Emitted(h: int, w: int, vVertexData: array2<Vec3>, vCoordsData: array2<Vec2>, i: int, j: int): seq<real>
    requires TablesShaped(h, w, vVertexData, vCoordsData)
    requires 0 <= i <= h - 1 && 0 <= j <= w - 1 && (i == h - 1 ==> j == 0)
    reads vVertexData, vCoordsData
    decreases i, j
  {
    if j > 0 then
      Emitted(h, w, vVertexData, vCoordsData, i, j - 1) + CellTableFloats(vVertexData, vCoordsData, i, j - 1)
    else if i > 0 then
      Emitted(h, w, vVertexData, vCoordsData, i - 1, w - 1)
    else
      []
  }

  /** The loops never push more than the whole stream. */
  lemma EmittedBound(h: int, w: int, i: int, j: int)
    requires 2 <= h && 2 <= w && 0 <= i <= h - 1 && 0 <= j <= w - 1 && (i == h - 1 ==> j == 0)
    ensures 0 <= (w - 1) * i + j <= CellCount(h, w)
  {
    MulMonotone(w - 1, 0, i);
    if i < h - 1 {
      MulMonotone(w - 1, i + 1, h - 1);
      MulSucc(w - 1, i);
    }
  }

  /** What the loops have pushed is the table stream up to the next cell. */
  lemma {:induction false} EmittedLength(h: int, w: int, vVertexData: array2<Vec3>, vCoordsData: array2<Vec2>, i: int, j: int)
    requires TablesShaped(h, w, vVertexData, vCoordsData)
    requires 0 <= i <= h - 1 && 0 <= j <= w - 1 && (i == h - 1 ==> j == 0)
    ensures |Emitted(h, w, vVertexData, vCoordsData, i, j)| == FloatsPerVertex * VerticesPerCell * ((w - 1) * i + j)
    decreases i, j
  {
    if j > 0 {
      EmittedLength(h, w, vVertexData, vCoordsData, i, j - 1);
    } else if i > 0 {
      EmittedLength(h, w, vVertexData, vCoordsData, i - 1, w - 1);
      MulSucc(w - 1, i - 1);
    }
  }

  lemma {:induction false} EmittedAt(h: int, w: int, vVertexData: array2<Vec3>, vCoordsData: array2<Vec2>, i: int, j: int, k: int)
    requires TablesShaped(h, w, vVertexData, vCoordsData)
    requires 0 <= i <= h - 1 && 0 <= j <= w - 1 && (i == h - 1 ==> j == 0)
    requires 0 <= k < |Emitted(h, w, vVertexData, vCoordsData, i, j)|
    ensures k < FloatCount(h, w)
    ensures Emitted(h, w, vVertexData, vCoordsData, i, j)[k] == TableStreamFloat(h, w, vVertexData, vCoordsData, k)
    decreases i, j
  {
    EmittedLength(h, w, vVertexData, vCoordsData, i, j);
    EmittedBound(h, w, i, j);
    if j > 0 {
      var before := Emitted(h, w, vVertexData, vCoordsData, i, j - 1);
      EmittedLength(h, w, vVertexData, vCoordsData, i, j - 1);
      if k < |before| {
        EmittedAt(h, w, vVertexData, vCoordsData, i, j - 1, k);
      } else {
        AppendedCellAt(h, w, vVertexData, vCoordsData, i, j - 1, before, k);
      }
    } else if i > 0 {
      EmittedAt(h, w, vVertexData, vCoordsData, i - 1, w - 1, k);
    }
  }

  /** The six pushes of one loop iteration append the cell's table floats. */
  lemma CellEmission(s: seq<real>, vVertexData: array2<Vec3>, vCoordsData: array2<Vec2>, i: int, j: int)
    requires 0 <= i && i + 1 < vVertexData.Length0 && 0 <= j && j + 1 < vVertexData.Length1
    requires vCoordsData.Length0 == vVertexData.Length0 && vCoordsData.Length1 == vVertexData.Length1
    ensures s + Interleaved(vVertexData[i, j], vCoordsData[i, j])
              + Interleaved(vVertexData[i + 1, j], vCoordsData[i + 1, j])
              + Interleaved(vVertexData[i + 1, j + 1], vCoordsData[i + 1, j + 1])
              + Interleaved(vVertexData[i + 1, j + 1], vCoordsData[i + 1, j + 1])
              + Interleaved(vVertexData[i, j + 1], vCoordsData[i, j + 1])
              + Interleaved(vVertexData[i, j], vCoordsData[i, j])
            == s + CellTableFloats(vVertexData, vCoordsData, i, j)
  {
  }

  /** Once every row is done, the pushed floats are exactly the table stream. */
  lemma EmittedIsStream(h: int, w: int, vVertexData: array2<Vec3>, vCoordsData: array2<Vec2>)
    requires TablesShaped(h, w, vVertexData, vCoordsData)
    ensures |Emitted(h, w, vVertexData, vCoordsData, h - 1, 0)| == FloatCount(h, w)
    ensures forall k :: 0 <= k < FloatCount(h, w) ==>
      Emitted(h, w, vVertexData, vCoordsData, h - 1, 0)[k] == TableStreamFloat(h, w, vVertexData, vCoordsData, k)
  {
    EmittedLength(h, w, vVertexData, vCoordsData, h - 1, 0);
    assert (w - 1) * (h - 1) == CellCount(h, w);
    forall k | 0 <= k < FloatCount(h, w)
      ensures Emitted(h, w, vVertexData, vCoordsData, h - 1, 0)[k] == TableStreamFloat(h, w, vVertexData, vCoordsData, k)
    {
      EmittedAt(h, w, vVertexData, vCoordsData, h - 1, 0, k);
    }
  }

  /**
   * The second pair of nested loops: for every cell, push the five floats of
   * each of its six corners onto htTriangles. The result holds 30 floats per
   * cell, and float k is attribute k % 5 of the table entry of vertex k / 5.
   */
  method EmitTriangles(h: int, w: int, vVertexData: array2<Vec3>, vCoordsData: array2<Vec2>)
    returns (htTriangles: seq<real>)
    requires TablesShaped(h, w, vVertexData, vCoordsData)
    ensures |htTriangles| == FloatCount(h, w)
    ensures forall k :: 0 <= k < |htTriangles| ==>
      htTriangles[k] == TableStreamFloat(h, w, vVertexData, vCoordsData, k)
  {
    htTriangles := [];
    for i := 0 to h - 1
      invariant htTriangles == Emitted(h, w, vVertexData, vCoordsData, i, 0)
    {
      for j := 0 to w - 1
        invariant htTriangles == Emitted(h, w, vVertexData, vCoordsData, i, j)
      {
        CellEmission(htTriangles, vVertexData, vCoordsData, i, j);
        // Triangle 1
        htTriangles := htTriangles + Interleaved(vVertexData[i, j], vCoordsData[i, j]);
        htTriangles := htTriangles + Interleaved(vVertexData[i + 1, j], vCoordsData[i + 1, j]);
        htTriangles := htTriangles + Interleaved(vVertexData[i + 1, j + 1], vCoordsData[i + 1, j + 1]);
        // Triangle 2
        htTriangles := htTriangles + Interleaved(vVertexData[i + 1, j + 1], vCoordsData[i + 1, j + 1]);
        htTriangles := htTriangles + Interleaved(vVertexData[i, j + 1], vCoordsData[i, j + 1]);
        htTriangles := htTriangles + Interleaved(vVertexData[i, j], vCoordsData[i, j]);
      }
    }
    EmittedIsStream(h, w, vVertexData, vCoordsData);
  }

  /**
   * The whole of the mesh construction: the grid tables, then the triangle
   * stream, with the number of vertices that the stream holds.
   */
  method BuildMesh(img: seq<byte>, h: int, w: int) returns (htTriangles: seq<real>, vertexCount: int)
    requires ValidImage(img, h, w)
    ensures vertexCount == VerticesPerCell * (h - 1) * (w - 1) && vertexCount > 0
    ensures |htTriangles| == FloatsPerVertex * vertexCount
    ensures forall k :: 0 <= k < |htTriangles| ==> htTriangles[k] == StreamFloat(img, h, w, k)
  {
    var vVertexData, vCoordsData := BuildGrid(img, h, w);
    htTriangles := EmitTriangles(h, w, vVertexData, vCoordsData);
    vertexCount := |htTriangles| / FloatsPerVertex;
    assert VerticesPerCell * (h - 1) * (w - 1) == VertexCount(h, w);
    assert (h - 1) * (w - 1) > 0 by { MulMonotone(h - 1, 1, w - 1); }
    forall k | 0 <= k < |htTriangles|
      ensures htTriangles[k] == StreamFloat(img, h, w, k)
    {
      DivBelow(k, FloatsPerVertex, VertexCount(h, w));
      StreamPointInGrid(h, w, k / FloatsPerVertex);
    }
  }
}
