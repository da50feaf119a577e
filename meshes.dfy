/** Tutorial 2: procedural meshes drawn in four viewports. The generators only
    lay out vertices and indices; the model keeps their counts, their order and
    their index values. A vertex is kept as the loop indices that produced it
    rather than as its floating-point coordinates. */
module Meshes {

  /** Index values are stored as GLushort: the int pushed is taken modulo 2^16. */
  const UshortRange: nat := 65536

  function Ushort(n: nat): (r: nat)
    ensures r < UshortRange
    ensures n < UshortRange ==> r == n
  {
    n % UshortRange
  }

  datatype Primitive = Points | Lines | TriangleFan | TriangleStrip

  /** A vertex of a grid, named by the outer and inner loop counters that
      pushed it. points_model puts it at (2i/slices - 1, 2j/stacks - 1) with
      j = outer, i = inner; tristrip_model at (2i/stacks - 1, 2j/slices - 1)
      with i = outer, j = inner. */
  datatype GridVertex = GridVertex(outer: nat, inner: nat)

  /** The end points written by lines_model: the bottom and top of vertical
      line `col`, the right and left end of horizontal line `row`, and the
      value-initialised (0, 0) of a slot never written. */
  datatype LineVertex = Unwritten | ColumnBottom(col: nat) | ColumnTop(col: nat)
                      | RowRight(row: nat) | RowLeft(row: nat)

  /** The centre of a fan, and rim point k at angle k * (2 * 3.14) / slices
      (the source uses 3.14 for pi; the fan closes on rim point 0). */
  datatype FanVertex = Centre | Rim(k: nat)

  datatype Vertices = GridVertices(grid: seq<GridVertex>)
                    | LineVertices(ends: seq<LineVertex>)
                    | FanVertices(fan: seq<FanVertex>)

  /** What a generator returns: the primitive, the two counts, the vertex
      buffer and the element buffer (empty when drawn with glDrawArrays). */
  datatype GLModel = GLModel(primitive: Primitive, primitiveCnt: nat, drawCnt: nat,
                             vertices: Vertices, indices: seq<nat>)

  datatype Viewport = Viewport(x: int, y: int, width: int, height: int)

  // ---------------------------------------------------------------- viewports

  /** C++ integer division by two, which truncates toward zero. */
  function Half(n: int): int {
    if n >= 0 then n / 2 else -((-n) / 2)
  }

  /** The four viewports init pushes: top-left, top-right, bottom-left,
      bottom-right, each half the window in each direction. */
  function Quadrants(w: int, h: int): seq<Viewport> {
    [Viewport(0, Half(h), Half(w), Half(h)),
     Viewport(Half(w), Half(h), Half(w), Half(h)),
     Viewport(0, 0, Half(w), Half(h)),
     Viewport(Half(w), 0, Half(w), Half(h))]
  }

  predicate Covers(v: Viewport, px: int, py: int) {
    v.x <= px < v.x + v.width && v.y <= py < v.y + v.height
  }

  /** Which quadrant a pixel falls in, by the order init pushes them. */
  function QuadrantIndex(w: int, h: int, px: int, py: int): nat {
    (if px < Half(w) then 0 else 1) + (if py < Half(h) then 2 else 0)
  }

  /** The quadrants tile the even part of the window: every pixel of
      [0, 2*(w/2)) x [0, 2*(h/2)) lies in exactly one of them, and no
      quadrant reaches outside the window. */
  lemma QuadrantsTile(w: int, h: int, px: int, py: int, k: nat)
    requires w >= 0 && h >= 0 && k < 4
    ensures |Quadrants(w, h)| == 4
    ensures 0 <= px < 2 * Half(w) && 0 <= py < 2 * Half(h) ==>
              (Covers(Quadrants(w, h)[k], px, py) <==> k == QuadrantIndex(w, h, px, py))
    ensures Covers(Quadrants(w, h)[k], px, py) ==> 0 <= px < w && 0 <= py < h
  {
  }

  // ---------------------------------------------------------------- points

  /** `rows` rows of `n` grid vertices, row by row. */
  function Grid(n: nat, rows: nat): (g: seq<GridVertex>)
    ensures |g| == n * rows
  {
    if rows == 0 then [] else Grid(n, rows - 1) + GridRow(rows - 1, n)
  }

  function GridRow(outer: nat, n: nat): (r: seq<GridVertex>)
    ensures |r| == n
    ensures forall k :: 0 <= k < n ==> r[k] == GridVertex(outer, k)
  {
    seq(n, k requires 0 <= k < n => GridVertex(outer, k))
  }

  /** Vertex `outer * n + inner` of a grid is the one pushed at those loop
      counters: the outer counter varies slowest. */
  lemma {:induction false} GridAt(n: nat, rows: nat, outer: nat, inner: nat)
    requires outer < rows && inner < n
    ensures outer * n + inner < |Grid(n, rows)|
    ensures Grid(n, rows)[outer * n + inner] == GridVertex(outer, inner)
  {
    var g := Grid(n, rows);
    assert g == Grid(n, rows - 1) + GridRow(rows - 1, n);
    assert |Grid(n, rows - 1)| == (rows - 1) * n;
    if outer < rows - 1 {
      GridAt(n, rows - 1, outer, inner);
      MulMonotone(outer + 1, rows - 1, n);
      assert outer * n + inner < (outer + 1) * n;
    } else {
      assert outer * n + inner == (rows - 1) * n + inner;
    }
  }

  /** a <= b implies a * n <= b * n. */
  lemma MulMonotone(a: nat, b: nat, n: nat)
    requires a <= b
    ensures a * n <= b * n
  {
    assert b * n == a * n + (b - a) * n;
  }

  function PointsSpec(slices: nat, stacks: nat): GLModel {
    var g := Grid(slices + 1, stacks + 1);
    GLModel(Points, |g|, |g|, GridVertices(g), [])
  }

  /** points_model: the stack counter is the outer loop, the slice counter the
      inner one; both counts are the number of vertices. */
  method PointsModel(slices: nat, stacks: nat) returns (mdl: GLModel)
    ensures mdl == PointsSpec(slices, stacks)
  {
    var pos: seq<GridVertex> := [];
    var j := 0;
    while j <= stacks
      invariant j <= stacks + 1
      invariant pos == Grid(slices + 1, j)
    {
      var i := 0;
      while i <= slices
        invariant i <= slices + 1
        invariant pos == Grid(slices + 1, j) + GridRow(j, i)
      {
        assert GridRow(j, i + 1) == GridRow(j, i) + [GridVertex(j, i)];
        pos := pos + [GridVertex(j, i)];
        i := i + 1;
      }
      j := j + 1;
    }
    mdl := GLModel(Points, |pos|, |pos|, GridVertices(pos), []);
  }

  /** The points model has one vertex per grid point, with the stack index
      varying slowest, and draws all of them. */
  lemma PointsShape(slices: nat, stacks: nat, j: nat, i: nat)
    requires j <= stacks && i <= slices
    ensures PointsSpec(slices, stacks).drawCnt == (slices + 1) * (stacks + 1)
    ensures PointsSpec(slices, stacks).primitiveCnt == PointsSpec(slices, stacks).drawCnt
    ensures PointsSpec(slices, stacks).vertices.grid[j * (slices + 1) + i] == GridVertex(j, i)
  {
    GridAt(slices + 1, stacks + 1, j, i);
  }

  // ---------------------------------------------------------------- lines

  /** Slot `k` of the vertical-line block: the bottom, then the top, of line k / 2. */
  function ColumnEnd(k: nat): LineVertex {
    if k % 2 == 0 then ColumnBottom(k / 2) else ColumnTop(k / 2)
  }

  /** Slot `k` of the horizontal-line block: the right, then the left, end of line k / 2. */
  function RowEnd(k: nat): LineVertex {
    if k % 2 == 0 then RowRight(k / 2) else RowLeft(k / 2)
  }

  /** Slots 2c and 2c + 1 hold the two ends of line c. */
  lemma PairSlots(c: nat)
    ensures ColumnEnd(2 * c) == ColumnBottom(c) && ColumnEnd(2 * c + 1) == ColumnTop(c)
    ensures RowEnd(2 * c) == RowRight(c) && RowEnd(2 * c + 1) == RowLeft(c)
  {
  }

  /** The vertex buffer lines_model leaves: vertical-line end points below
      `rowStart`, horizontal-line end points from `rowStart` to `count`. */
  function LineBuffer(rowStart: nat, count: nat): (b: seq<LineVertex>)
    ensures |b| == count
  {
    seq(count, k requires 0 <= k < count => if k < rowStart then ColumnEnd(k) else RowEnd(k - rowStart))
  }

  /** The draw count lines_model sets: two vertices per vertical and per
      horizontal line. */
  function LinesDrawCnt(slices: nat, stacks: nat): nat {
    2 * (slices + 1) + 2 * (stacks + 1)
  }

  /** lines_model as written: a buffer of 2 * (slices + stacks + 1) vertices,
      the horizontal lines written from index 2 * slices on. */
  function LinesAsWrittenSpec(slices: nat, stacks: nat): GLModel {
    GLModel(Lines, LinesDrawCnt(slices, stacks) / 2, LinesDrawCnt(slices, stacks),
            LineVertices(LineBuffer(2 * slices, 2 * (slices + stacks + 1))), [])
  }

  method LinesModelAsWritten(slices: nat, stacks: nat) returns (mdl: GLModel)
    ensures mdl == LinesAsWrittenSpec(slices, stacks)
  {
    var count := (slices + stacks + 1) * 2;
    var pos := new LineVertex[count](_ => Unwritten);
    var col, index := 0, 0;
    while col <= slices
      invariant col <= slices + 1 && index == 2 * col
      invariant forall k :: 0 <= k < index ==> pos[k] == ColumnEnd(k)
    {
      PairSlots(col);
      pos[index] := ColumnBottom(col);
      pos[index + 1] := ColumnTop(col);
      index := index + 2;
      col := col + 1;
    }
    var row := 0;
    index := slices * 2;
    while row <= stacks
      invariant row <= stacks + 1 && index == 2 * slices + 2 * row
      invariant forall k :: 0 <= k < 2 * slices ==> pos[k] == ColumnEnd(k)
      invariant forall k :: 2 * slices <= k < index ==> pos[k] == RowEnd(k - 2 * slices)
    {
      PairSlots(row);
      pos[index] := RowRight(row);
      pos[index + 1] := RowLeft(row);
      index := index + 2;
      row := row + 1;
    }
    assert pos[..] == LineBuffer(2 * slices, count);
    var drawCnt := 2 * (slices + 1) + 2 * (stacks + 1);
    mdl := GLModel(Lines, drawCnt / 2, drawCnt, LineVertices(pos[..]), []);
  }

  /** The defect of lines_model as written: it draws two vertices more than
      its buffer holds, and the end points of the last vertical line
      (x = +1) are overwritten by the first horizontal line. */
  lemma LinesAsWrittenOverrun(slices: nat, stacks: nat)
    ensures var m := LinesAsWrittenSpec(slices, stacks);
            m.drawCnt == |m.vertices.ends| + 2
            && ColumnBottom(slices) !in m.vertices.ends
            && ColumnTop(slices) !in m.vertices.ends
  {
    var b := LinesAsWrittenSpec(slices, stacks).vertices.ends;
    forall k | 0 <= k < |b|
      ensures b[k] != ColumnBottom(slices) && b[k] != ColumnTop(slices)
    {
      if k < 2 * slices {
        assert b[k] == ColumnEnd(k) && k / 2 < slices;
      } else {
        assert b[k] == RowEnd(k - 2 * slices);
      }
    }
  }

  /** lines_model as intended: room for every line's two end points, the
      horizontal lines written after all the vertical ones. */
  function LinesSpec(slices: nat, stacks: nat): GLModel {
    GLModel(Lines, LinesDrawCnt(slices, stacks) / 2, LinesDrawCnt(slices, stacks),
            LineVertices(LineBuffer(2 * (slices + 1), LinesDrawCnt(slices, stacks))), [])
  }

  method LinesModel(slices: nat, stacks: nat) returns (mdl: GLModel)
    ensures mdl == LinesSpec(slices, stacks)
  {
    var count := 2 * (slices + 1) + 2 * (stacks + 1);
    var pos := new LineVertex[count](_ => Unwritten);
    var col, index := 0, 0;
    while col <= slices
      invariant col <= slices + 1 && index == 2 * col
      invariant forall k :: 0 <= k < index ==> pos[k] == LineBuffer(2 * (slices + 1), count)[k]
    {
      PairSlots(col);
      pos[index] := ColumnBottom(col);
      pos[index + 1] := ColumnTop(col);
      index := index + 2;
      col := col + 1;
    }
    var row := 0;
    while row <= stacks
      invariant row <= stacks + 1 && index == 2 * (slices + 1) + 2 * row
      invariant forall k :: 0 <= k < index ==> pos[k] == LineBuffer(2 * (slices + 1), count)[k]
    {
      PairSlots(row);
      pos[index] := RowRight(row);
      pos[index + 1] := RowLeft(row);
      index := index + 2;
      row := row + 1;
    }
    assert pos[..] == LineBuffer(2 * (slices + 1), count);
    mdl := GLModel(Lines, count / 2, count, LineVertices(pos[..]), []);
  }

  /** The corrected lines model draws exactly its buffer, one line per pair
      of consecutive vertices: vertical line c is the pair at 2c, and
      horizontal line r the pair at 2 (slices + 1) + 2r. */
  lemma LinesComplete(slices: nat, stacks: nat, c: nat, r: nat)
    requires c <= slices && r <= stacks
    ensures var m := LinesSpec(slices, stacks);
            m.drawCnt == |m.vertices.ends| && m.primitiveCnt * 2 == m.drawCnt
            && m.vertices.ends[2 * c] == ColumnBottom(c)
            && m.vertices.ends[2 * c + 1] == ColumnTop(c)
            && m.vertices.ends[2 * (slices + 1) + 2 * r] == RowRight(r)
            && m.vertices.ends[2 * (slices + 1) + 2 * r + 1] == RowLeft(r)
  {
    PairSlots(c);
    PairSlots(r);
  }

  // ---------------------------------------------------------------- fan

  function TrifansSpec(slices: nat): GLModel {
    var idx := seq(slices + 1, k requires 0 <= k <= slices => Ushort(k)) + [1];
    GLModel(TriangleFan, |idx| / 2, |idx|,
            FanVertices([Centre] + seq(slices, k requires 0 <= k < slices => Rim(k))), idx)
  }

  /** trifans_model: the centre, then one rim point per slice; the indices
      0, 1, ..., slices and then 1 again. */
  method TrifansModel(slices: nat) returns (mdl: GLModel)
    ensures mdl == TrifansSpec(slices)
  {
    var pos: seq<FanVertex> := [Centre];
    var i := 0;
    while i < slices
      invariant i <= slices
      invariant pos == [Centre] + seq(i, k requires 0 <= k < i => Rim(k))
    {
      pos := pos + [Rim(i)];
      i := i + 1;
    }
    var idx: seq<nat> := [];
    i := 0;
    while i <= slices
      invariant i <= slices + 1
      invariant idx == seq(i, k requires 0 <= k < i => Ushort(k))
    {
      idx := idx + [Ushort(i)];
      i := i + 1;
    }
    idx := idx + [1];
    mdl := GLModel(TriangleFan, |idx| / 2, |idx|, FanVertices(pos), idx);
  }

  /** The fan has slices + 1 vertices with the centre first; its slices + 2
      indices are 0, 1, ..., slices in order and end with 1, which closes
      the fan on the first rim vertex; every index names a vertex. */
  lemma TrifansShape(slices: nat)
    requires 1 <= slices < UshortRange
    ensures var m := TrifansSpec(slices);
            |m.vertices.fan| == slices + 1 && m.vertices.fan[0] == Centre
            && m.drawCnt == |m.indices| == slices + 2
            && (forall k :: 0 <= k <= slices ==> m.indices[k] == k)
            && m.indices[slices + 1] == m.indices[1] == 1
            && (forall k :: 0 <= k < |m.indices| ==> m.indices[k] < |m.vertices.fan|)
  {
  }

  // ---------------------------------------------------------------- strip

  /** The index pairs of one strip row, for columns 0 .. cols - 1: the vertex
      in grid row `row + 1`, then the vertex in grid row `row`. */
  function StripPairs(slices: nat, row: nat, cols: nat): (r: seq<nat>)
    ensures |r| == 2 * cols
  {
    if cols == 0 then []
    else StripPairs(slices, row, cols - 1)
         + [Ushort((slices + 1) * (row + 1) + (cols - 1)), Ushort((slices + 1) * row + (cols - 1))]
  }

  /** One row of the strip: a leading degenerate index on every row but the
      first, the pairs, a trailing degenerate index on every row but the last. */
  function StripRow(slices: nat, stacks: nat, row: nat): (r: seq<nat>)
    requires row < stacks
    ensures |r| == 2 * (slices + 1) + (if row != 0 then 1 else 0) + (if row != stacks - 1 then 1 else 0)
  {
    (if row != 0 then [Ushort((row + 1) * (slices + 1))] else [])
    + StripPairs(slices, row, slices + 1)
    + (if row != stacks - 1 then [Ushort(row * (slices + 1) + slices)] else [])
  }

  /** The indices of the first `rows` rows. */
  function StripIndices(slices: nat, stacks: nat, rows: nat): seq<nat>
    requires rows <= stacks
  {
    if rows == 0 then [] else StripIndices(slices, stacks, rows - 1) + StripRow(slices, stacks, rows - 1)
  }

  function TristripSpec(slices: nat, stacks: nat): GLModel {
    var idx := StripIndices(slices, stacks, stacks);
    GLModel(TriangleStrip, |idx| / 2, |idx|, GridVertices(Grid(slices + 1, stacks + 1)), idx)
  }

  /** tristrip_model: a grid of (stacks + 1) x (slices + 1) vertices and one
      strip through all its rows, joined by degenerate indices. */
  method TristripModel(slices: nat, stacks: nat) returns (mdl: GLModel)
    ensures mdl == TristripSpec(slices, stacks)
  {
    var pos: seq<GridVertex> := [];
    var i := 0;
    while i <= stacks
      invariant i <= stacks + 1
      invariant pos == Grid(slices + 1, i)
    {
      var j := 0;
      while j <= slices
        invariant j <= slices + 1
        invariant pos == Grid(slices + 1, i) + GridRow(i, j)
      {
        assert GridRow(i, j + 1) == GridRow(i, j) + [GridVertex(i, j)];
        pos := pos + [GridVertex(i, j)];
        j := j + 1;
      }
      i := i + 1;
    }
    var idx: seq<nat> := [];
    var row := 0;
    while row < stacks
      invariant row <= stacks
      invariant idx == StripIndices(slices, stacks, row)
    {
      var line := StripRowIndices(slices, stacks, row);
      idx := idx + line;
      row := row + 1;
    }
    mdl := GLModel(TriangleStrip, |idx| / 2, |idx|, GridVertices(pos), idx);
  }

  /** The indices tristrip_model pushes for one row of the strip. */
  method StripRowIndices(slices: nat, stacks: nat, row: nat) returns (line: seq<nat>)
    requires row < stacks
    ensures line == StripRow(slices, stacks, row)
  {
    line := [];
    if row != 0 {
      line := line + [Ushort((row + 1) * (slices + 1))];
    }
    var pairs := StripPairIndices(slices, row);
    line := line + pairs;
    if row != stacks - 1 {
      line := line + [Ushort(row * (slices + 1) + slices)];
    }
  }

  /** The column loop of one strip row: for each column, the vertex above
      and then the vertex below. */
  method StripPairIndices(slices: nat, row: nat) returns (pairs: seq<nat>)
    ensures pairs == StripPairs(slices, row, slices + 1)
  {
    pairs := [];
    var above := (slices + 1) * (row + 1);
    var below := (slices + 1) * row;
    var col := 0;
    while col <= slices
      invariant col <= slices + 1
      invariant pairs == StripPairs(slices, row, col)
    {
      pairs := pairs + [Ushort(above + col), Ushort(below + col)];
      col := col + 1;
    }
  }

  /** Length of the first `rows` rows of the strip. */
  lemma {:induction false} StripIndicesLength(slices: nat, stacks: nat, rows: nat)
    requires 1 <= rows <= stacks
    ensures |StripIndices(slices, stacks, rows)|
            == 2 * rows * (slices + 2) - (if rows == stacks then 2 else 1)
  {
    var row := StripRow(slices, stacks, rows - 1);
    assert StripIndices(slices, stacks, rows) == StripIndices(slices, stacks, rows - 1) + row;
    if rows > 1 {
      StripIndicesLength(slices, stacks, rows - 1);
      MulStep(rows - 1, slices + 2);
    }
  }

  /** (a + 1) * n == a * n + n, stated for the length proof. */
  lemma MulStep(a: nat, n: nat)
    ensures 2 * (a + 1) * n == 2 * a * n + 2 * n
  {
  }

  /** Earlier rows are a prefix of later ones. */
  lemma {:induction false} StripIndicesPrefix(slices: nat, stacks: nat, rows: nat, more: nat)
    requires rows <= more <= stacks
    ensures StripIndices(slices, stacks, rows) <= StripIndices(slices, stacks, more)
    decreases more - rows
  {
    if rows < more {
      StripIndicesPrefix(slices, stacks, rows, more - 1);
    }
  }

  /** Every index of the first `rows` rows names a vertex of the grid, as
      long as the grid fits in GLushort indices. */
  lemma {:induction false} StripIndicesBounded(slices: nat, stacks: nat, rows: nat)
    requires rows <= stacks
    requires (slices + 1) * (stacks + 1) <= UshortRange
    ensures forall k :: 0 <= k < |StripIndices(slices, stacks, rows)| ==>
              StripIndices(slices, stacks, rows)[k] < (slices + 1) * (stacks + 1)
  {
    if rows > 0 {
      StripIndicesBounded(slices, stacks, rows - 1);
      StripRowBounded(slices, stacks, rows - 1);
    }
  }

  lemma StripRowBounded(slices: nat, stacks: nat, row: nat)
    requires row < stacks
    requires (slices + 1) * (stacks + 1) <= UshortRange
    ensures forall k :: 0 <= k < |StripRow(slices, stacks, row)| ==>
              StripRow(slices, stacks, row)[k] < (slices + 1) * (stacks + 1)
  {
    var n := slices + 1;
    MulMonotone(row + 2, stacks + 1, n);
    assert (row + 2) * n == (row + 1) * n + n;
    StripPairsBounded(slices, row, slices + 1, (slices + 1) * (stacks + 1));
  }

  /** The pairs of row `row` stay below `(row + 2) (slices + 1)`, the first
      vertex after grid row `row + 1`. */
  lemma {:induction false} StripPairsBounded(slices: nat, row: nat, cols: nat, bound: nat)
    requires cols <= slices + 1
    requires (row + 2) * (slices + 1) <= bound <= UshortRange
    ensures forall k :: 0 <= k < |StripPairs(slices, row, cols)| ==>
              StripPairs(slices, row, cols)[k] < bound
  {
    if cols > 0 {
      StripPairsBounded(slices, row, cols - 1, bound);
      var n := slices + 1;
      assert (row + 2) * n == n * (row + 1) + n;
      assert n * row + n == n * (row + 1);
    }
  }

  /** The strip model: (stacks + 1)(slices + 1) vertices, and for stacks >= 1
      exactly 2 stacks (slices + 1) + 2 (stacks - 1) indices, all naming a
      vertex; the draw count is the number of indices. */
  lemma TristripShape(slices: nat, stacks: nat)
    requires 1 <= stacks
    requires (slices + 1) * (stacks + 1) <= UshortRange
    ensures var m := TristripSpec(slices, stacks);
            |m.vertices.grid| == (stacks + 1) * (slices + 1)
            && m.drawCnt == |m.indices| == 2 * stacks * (slices + 1) + 2 * (stacks - 1)
            && forall k :: 0 <= k < |m.indices| ==> m.indices[k] < |m.vertices.grid|
  {
    StripIndicesLength(slices, stacks, stacks);
    StripIndicesBounded(slices, stacks, stacks);
  }

  /** The rows are stitched by repeated indices: where row r (0 < r < stacks)
      begins, at position p, the trailing index of row r - 1 (p - 1) repeats
      the index pushed just before it and the leading index of row r (p)
      repeats the index pushed just after it. */
  lemma TristripDegenerate(slices: nat, stacks: nat, r: nat)
    requires 0 < r < stacks
    ensures var idx := TristripSpec(slices, stacks).indices;
            var p := 2 * r * (slices + 2) - 1;
            2 <= p && p + 1 < |idx| && idx[p - 1] == idx[p - 2] && idx[p] == idx[p + 1]
  {
    var idx := StripIndices(slices, stacks, stacks);
    StripIndicesLength(slices, stacks, r);
    StripIndicesPrefix(slices, stacks, r + 1, stacks);
    var before := StripIndices(slices, stacks, r - 1);
    var prev := StripRow(slices, stacks, r - 1);
    var cur := StripRow(slices, stacks, r);
    var p := |before + prev|;
    assert StripIndices(slices, stacks, r + 1) == before + prev + cur;
    StripRowEnds(slices, stacks, r - 1);
    StripRowStart(slices, stacks, r);
    assert idx[p - 1] == prev[|prev| - 1];
    assert idx[p - 2] == prev[|prev| - 2];
    assert idx[p] == cur[0] && idx[p + 1] == cur[1];
  }

  /** A row that is not the last ends by repeating the index before it. */
  lemma StripRowEnds(slices: nat, stacks: nat, row: nat)
    requires row < stacks - 1
    ensures var r := StripRow(slices, stacks, row);
            |r| >= 2 && r[|r| - 1] == r[|r| - 2]
  {
    var n := slices + 1;
    var pairs := StripPairs(slices, row, n);
    assert pairs == StripPairs(slices, row, slices)
                    + [Ushort(n * (row + 1) + slices), Ushort(n * row + slices)];
    assert n * row + slices == row * n + slices;
  }

  /** A row that is not the first starts by repeating the index after it. */
  lemma StripRowStart(slices: nat, stacks: nat, row: nat)
    requires 0 < row < stacks
    ensures var r := StripRow(slices, stacks, row);
            |r| >= 2 && r[0] == r[1]
  {
    StripPairsFirst(slices, row, slices + 1);
    assert (row + 1) * (slices + 1) == (slices + 1) * (row + 1);
  }

  lemma {:induction false} StripPairsFirst(slices: nat, row: nat, cols: nat)
    requires cols >= 1
    ensures StripPairs(slices, row, cols)[0] == Ushort((slices + 1) * (row + 1))
  {
    if cols > 1 {
      StripPairsFirst(slices, row, cols - 1);
    }
  }

  // ---------------------------------------------------------------- init

  /** Tutorial 2's application state: the viewports and the models. */
  class GLApp {
    var vps: seq<Viewport>
    var models: seq<GLModel>

    constructor ()
      ensures vps == [] && models == []
    {
      vps := [];
      models := [];
    }

    /** init: split a w x h window into four viewports, then build the four
        models in the order they are drawn. The lines model is the one the
        source builds, with the overrun of LinesAsWrittenOverrun. */
    method Init(w: int, h: int)
      modifies this
      ensures vps == old(vps) + Quadrants(w, h)
      ensures models == old(models) + [PointsSpec(20, 20), LinesAsWrittenSpec(40, 40),
                                       TrifansSpec(50), TristripSpec(4, 3)]
    {
      PushViewports(w, h);
      PushModels();
    }

    method PushViewports(w: int, h: int)
      modifies this`vps
      ensures vps == old(vps) + Quadrants(w, h)
    {
      vps := vps + [Viewport(0, Half(h), Half(w), Half(h))];
      vps := vps + [Viewport(Half(w), Half(h), Half(w), Half(h))];
      vps := vps + [Viewport(0, 0, Half(w), Half(h))];
      vps := vps + [Viewport(Half(w), 0, Half(w), Half(h))];
    }

    method PushModels()
      modifies this`models
      ensures models == old(models) + [PointsSpec(20, 20), LinesAsWrittenSpec(40, 40),
                                       TrifansSpec(50), TristripSpec(4, 3)]
    {
      var points := PointsModel(20, 20);
      var lines := LinesModelAsWritten(40, 40);
      var fan := TrifansModel(50);
      var strip := TristripModel(4, 3);
      models := models + [points, lines, fan, strip];
    }
  }
}
