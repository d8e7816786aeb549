/** The index buffers of the two hand-built meshes in
    components/tree/tree-model.tsx. `createLeafGeometry` lays a grid of
    (14 + 1) x (8 + 1) vertices row by row and splits each grid cell into two
    triangles; `createGrassBladeGeometry` lays 5 + 1 rows of two vertices and
    does the same for each strip cell. Vertex positions (sines, powers) are
    not modelled, only how many vertices there are and how the triangles
    index them. */
module MeshIndices {

  const LeafSegmentsL: nat := 14   // cells along the leaf
  const LeafSegmentsW: nat := 8    // cells across the leaf
  const LeafRow: nat := LeafSegmentsW + 1
  const LeafVertices: nat := (LeafSegmentsL + 1) * LeafRow
  const LeafCellCount: nat := LeafSegmentsL * LeafSegmentsW
  const LeafIndexCount: nat := LeafCellCount * 6

  /** The six indices `a, b, d, b, c, d` pushed for cell (i, j). */
  function LeafCell(i: nat, j: nat): seq<int>
  {
    var a := i * 9 + j;
    [a, a + 9, a + 1, a + 9, a + 9 + 1, a + 1]
  }

  /** Position of cell (i, j)'s first index in the buffer. */
  function LeafCellStart(i: nat, j: nat): nat
  {
    (i * 8 + j) * 6
  }

  /** Counts the vertices the two nested `<=` loops push. */
  method LeafVertexCount() returns (count: nat)
    ensures count == LeafVertices
  {
    count := 0;
    var i := 0;
    while i <= LeafSegmentsL
      invariant 0 <= i <= LeafSegmentsL + 1
      invariant count == i * LeafRow
    {
      var j := 0;
      while j <= LeafSegmentsW
        invariant 0 <= j <= LeafSegmentsW + 1
        invariant count == i * LeafRow + j
      {
        count := count + 1;
        j := j + 1;
      }
      i := i + 1;
    }
  }

  /** The first `n` cells' indices, cells taken row by row. */
  function LeafCells(n: nat): seq<int>
  {
    if n == 0 then [] else LeafCells(n - 1) + LeafCell((n - 1) / 8, (n - 1) % 8)
  }

  lemma {:induction false} LeafCellsLength(n: nat)
    ensures |LeafCells(n)| == 6 * n
  {
    if n > 0 {
      LeafCellsLength(n - 1);
    }
  }

  /** While the cells stay inside the grid, every index names one of its
      135 vertices. */
  lemma {:induction false} LeafCellsInRange(n: nat)
    requires n <= LeafCellCount
    ensures forall k :: 0 <= k < |LeafCells(n)| ==> 0 <= LeafCells(n)[k] < LeafVertices
  {
    if n > 0 {
      LeafCellsInRange(n - 1);
      var i, j := (n - 1) / 8, (n - 1) % 8;
      assert i <= 13 && j <= 7;
      var prev, cell := LeafCells(n - 1), LeafCell(i, j);
      assert LeafCells(n) == prev + cell;
      forall k | 0 <= k < |prev + cell|
        ensures 0 <= (prev + cell)[k] < LeafVertices
      {
        if k >= |prev| {
          assert (prev + cell)[k] == cell[k - |prev|];
        }
      }
    }
  }

  /** Cell (i, j) occupies positions `6 * (8 * i + j)` to `+ 6`. */
  lemma {:induction false} LeafCellsLayout(n: nat, i: nat, j: nat, r: nat)
    requires j < 8 && i * 8 + j < n && r < 6
    ensures |LeafCells(n)| == 6 * n
    ensures LeafCells(n)[LeafCellStart(i, j) + r] == LeafCell(i, j)[r]
  {
    LeafCellsLength(n);
    LeafCellsLength(n - 1);
    if i * 8 + j < n - 1 {
      LeafCellsLayout(n - 1, i, j, r);
    } else {
      assert (n - 1) / 8 == i && (n - 1) % 8 == j;
    }
  }

  /** Appending cell (i, j), the indices `a, b, d, b, c, d` the loop body
      pushes, extends the buffer by one cell. */
  lemma LeafCellsStep(n: nat, i: nat, j: nat, a: int, b: int, c: int, d: int)
    requires j < 8 && n == i * 8 + j
    requires a == i * LeafRow + j && b == a + LeafRow && c == b + 1 && d == a + 1
    ensures LeafCells(n + 1) == LeafCells(n) + [a, b, d, b, c, d]
  {
    RowAndColumn(n, i, j);
    assert LeafCell(i, j) == [a, b, d, b, c, d];
  }

  /** Cell number `8 * i + j` lies in row `i`, column `j`. */
  lemma RowAndColumn(n: nat, i: nat, j: nat)
    requires j < 8 && n == i * 8 + j
    ensures n / 8 == i && n % 8 == j
  {
  }

  /** One pass of the inner loop of `createLeafGeometry`: the eight cells
      of row `i` appended to the buffer built so far. */
  method AppendLeafRow(prefix: seq<int>, i: nat) returns (indices: seq<int>)
    requires prefix == LeafCells(i * 8)
    ensures indices == LeafCells(i * 8 + 8)
  {
    var start := i * 8;
    indices := prefix;
    var j := 0;
    while j < 8
      invariant 0 <= j <= 8
      invariant indices == LeafCells(start + j)
    {
      var a := i * LeafRow + j;
      var b := a + LeafRow;
      var c := b + 1;
      var d := a + 1;
      LeafCellsStep(start + j, i, j, a, b, c, d);
      indices := indices + [a, b, d, b, c, d];
      j := j + 1;
    }
  }

  /** The index buffer of `createLeafGeometry`, filled row by row. */
  method BuildLeafIndices() returns (indices: seq<int>)
    ensures indices == LeafCells(LeafCellCount)
    ensures |indices| == LeafIndexCount
    ensures forall k :: 0 <= k < |indices| ==> 0 <= indices[k] < LeafVertices
  {
    indices := [];
    var i := 0;
    while i < LeafSegmentsL
      invariant 0 <= i <= LeafSegmentsL
      invariant indices == LeafCells(i * 8)
    {
      indices := AppendLeafRow(indices, i);
      assert i * 8 + 8 == (i + 1) * 8;
      i := i + 1;
    }
    LeafCellsLength(i * 8);
    LeafCellsInRange(i * 8);
  }

  /** Every grid vertex is a corner of some triangle: vertex (i, j) is the
      `a`, `b`, `d` or `c` corner of the cell below and left of it. */
  lemma EveryLeafVertexUsed(i: nat, j: nat)
    requires i <= 14 && j <= 8
    ensures exists k :: 0 <= k < |LeafCells(LeafCellCount)| && LeafCells(LeafCellCount)[k] == i * LeafRow + j
  {
    var ci := if i == 14 then 13 else i;
    var cj := if j == 8 then 7 else j;
    var corner := if i < 14 && j < 8 then 0 else if j < 8 then 1 else if i < 14 then 2 else 4;
    LeafCellsLayout(LeafCellCount, ci, cj, corner);
    assert LeafCells(LeafCellCount)[LeafCellStart(ci, cj) + corner] == i * LeafRow + j;
  }

  /** The two triangles of a cell have three distinct corners each, so no
      triangle is degenerate. */
  lemma LeafTrianglesProper(i: nat, j: nat)
    ensures var q := LeafCell(i, j);
            q[0] != q[1] && q[1] != q[2] && q[0] != q[2]
            && q[3] != q[4] && q[4] != q[5] && q[3] != q[5]
  {
  }

  const GrassSegments: nat := 5
  const GrassVertices: nat := (GrassSegments + 1) * 2
  const GrassIndexCount: nat := GrassSegments * 6

  /** The six indices `a, b, d, b, c, d` pushed for strip cell `i`. */
  function GrassCell(i: nat): seq<int>
  {
    var a := i * 2;
    [a, a + 2, a + 1, a + 2, a + 3, a + 1]
  }

  /** Counts the vertices the row loop pushes, two per row. */
  method GrassVertexCount() returns (count: nat)
    ensures count == GrassVertices
  {
    count := 0;
    var i := 0;
    while i <= GrassSegments
      invariant 0 <= i <= GrassSegments + 1
      invariant count == i * 2
    {
      count := count + 2;
      i := i + 1;
    }
  }

  /** The first `n` strip cells' indices. */
  function GrassCells(n: nat): seq<int>
  {
    if n == 0 then [] else GrassCells(n - 1) + GrassCell(n - 1)
  }

  lemma {:induction false} GrassCellsInRange(n: nat)
    requires n <= GrassSegments
    ensures |GrassCells(n)| == 6 * n
    ensures forall k :: 0 <= k < |GrassCells(n)| ==> 0 <= GrassCells(n)[k] < GrassVertices
  {
    if n > 0 {
      GrassCellsInRange(n - 1);
      var prev, cell := GrassCells(n - 1), GrassCell(n - 1);
      forall k | 0 <= k < |prev + cell|
        ensures 0 <= (prev + cell)[k] < GrassVertices
      {
        if k >= |prev| {
          assert (prev + cell)[k] == cell[k - |prev|];
        }
      }
    }
  }

  /** The index buffer of `createGrassBladeGeometry`. */
  method BuildGrassIndices() returns (indices: seq<int>)
    ensures indices == GrassCells(GrassSegments)
    ensures |indices| == GrassIndexCount
    ensures forall k :: 0 <= k < |indices| ==> 0 <= indices[k] < GrassVertices
  {
    indices := [];
    var i := 0;
    while i < GrassSegments
      invariant 0 <= i <= GrassSegments
      invariant indices == GrassCells(i)
    {
      var a := i * 2;
      var b := a + 2;
      var c := a + 3;
      var d := a + 1;
      indices := indices + [a, b, d, b, c, d];
      i := i + 1;
    }
    GrassCellsInRange(GrassSegments);
  }
}
