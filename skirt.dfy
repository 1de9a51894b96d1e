/** Layout of the skirt: the buffer offsets of the dropped edge vertices and
    the index values of the stitching triangles, as functions of the vertex
    counts `n` (per row, numXVerts) and `m` (per column, numYVerts).

    Vertex buffer, after the n * m tile vertices:
      bottom copies [n*m, n*(m+1)), top copies [n*(m+1), n*(m+2)),
      "right" copies (column 0) [n*(m+2), n*(m+2)+m-2),
      "left" copies (column n-1) [n*(m+2)+m-2, n*(m+2)+2m-4).
    Triangle buffer, from slot 6(n-1)(m-1) on, in emission order:
      bottom quads, top quads, bottom-right corner, top-right corner,
      middle-right quads, bottom-left corner, top-left corner, middle-left quads. */
module Skirt {
  import opened Grid

  /** Depth every skirt vertex is dropped to. */
  const SkirtDepth: real := -30000.0

  /** Shapes the skirt is defined for: the corner triangles need a middle row. */
  predicate SkirtShape(n: int, m: int)
  {
    n >= 2 && m >= 3
  }

  function BottomStart(n: int, m: int): int { n * m }
  function TopStart(n: int, m: int): int { n * (m + 1) }
  function RightStart(n: int, m: int): int { n * (m + 2) }
  function LeftStart(n: int, m: int): int { n * (m + 2) + (m - 2) }

  /** Tile vertices plus skirt vertices. */
  function VertexCount(n: int, m: int): int { n * m + 2 * n + 2 * (m - 2) }

  /** The first slot after the interior triangles (two per grid cell). */
  function FirstSkirtSlot(n: int, m: int): (first: int)
    ensures n >= 1 && m >= 1 ==> first >= 0
  {
    (n - 1) * (m - 1) * 6
  }

  /** Index slots the skirt writes: one quad per edge segment and two per corner. */
  function SkirtSlotCount(n: int, m: int): int { 6 * (2 * (n - 1) + 2 * (m - 3) + 4) }

  /** Quads (six slots, two triangles) the skirt emits. */
  function SkirtQuadCount(n: int, m: int): int { 2 * (n - 1) + 2 * (m - 3) + 4 }

  function BottomQuad(n: int, m: int, i: int): seq<int>
  {
    [i, n * m + i + 1, n * m + i, i + 1, n * m + i + 1, i]
  }

  function TopQuad(n: int, m: int, i: int): seq<int>
  {
    var s := TopStart(n, m);
    [i + s - n * 2, s + i, i + s - n * 2 + 1, i + s - n * 2 + 1, s + i, s + i + 1]
  }

  function BottomRightCorner(n: int, m: int): seq<int>
  {
    [0, n * m, n, n, n * m, n * (m + 2)]
  }

  function TopRightCorner(n: int, m: int): seq<int>
  {
    [n * (m - 1), n * (m + 2) + m - 3, n * (m + 1), n * (m - 1), n * (m - 2), n * (m + 2) + m - 3]
  }

  function MiddleRightQuad(n: int, m: int, i: int): seq<int>
  {
    var s := RightStart(n, m);
    [n * (i + 1), s + i, n * (i + 2), n * (i + 2), s + i, s + i + 1]
  }

  function BottomLeftCorner(n: int, m: int): seq<int>
  {
    var s := LeftStart(n, m);
    [n - 1, n * 2 - 1, s, s, n * m + n - 1, n - 1]
  }

  function TopLeftCorner(n: int, m: int): seq<int>
  {
    [n * m - 1, n * (m + 2) - 1, n * (m + 2) + (m - 2) * 2 - 1,
     n * m - 1, n * (m + 2) + (m - 2) * 2 - 1, n * (m - 2) + n - 1]
  }

  function MiddleLeftQuad(n: int, m: int, i: int): seq<int>
  {
    var s := LeftStart(n, m);
    [n * (i + 1) + n - 1, n * (i + 2) + n - 1, s + i + 1, n * (i + 1) + n - 1, s + i + 1, s + i]
  }

  /** Quad `q` of the skirt, in emission order: n-1 bottom quads, n-1 top
      quads, the bottom-right and top-right corners, m-3 middle-right quads,
      the bottom-left and top-left corners, m-3 middle-left quads. */
  function SkirtQuad(n: int, m: int, q: int): (quad: seq<int>)
    requires SkirtShape(n, m) && 0 <= q < SkirtQuadCount(n, m)
    ensures |quad| == 6
  {
    var right := 2 * (n - 1);
    var left := right + 2 + (m - 3);
    if q < n - 1 then BottomQuad(n, m, q)
    else if q < right then TopQuad(n, m, q - (n - 1))
    else if q == right then BottomRightCorner(n, m)
    else if q == right + 1 then TopRightCorner(n, m)
    else if q < left then MiddleRightQuad(n, m, q - (right + 2))
    else if q == left then BottomLeftCorner(n, m)
    else if q == left + 1 then TopLeftCorner(n, m)
    else MiddleLeftQuad(n, m, q - (left + 2))
  }

  /** The vertex index the skirt stores in slot FirstSkirtSlot + j; it
      names a vertex of the buffer. */
  function SkirtSlot(n: int, m: int, j: int): (v: int)
    requires SkirtShape(n, m) && 0 <= j < SkirtSlotCount(n, m)
    ensures 0 <= v < VertexCount(n, m)
  {
    SkirtQuadWellFormed(n, m, j / 6);
    SkirtQuad(n, m, j / 6)[j % 6]
  }

  /** Where each kind of quad sits in the emission order. */
  lemma EdgeQuadsAt(n: int, m: int, i: int)
    requires SkirtShape(n, m) && 0 <= i < n - 1
    ensures SkirtQuad(n, m, i) == BottomQuad(n, m, i)
    ensures SkirtQuad(n, m, (n - 1) + i) == TopQuad(n, m, i)
  {
  }

  lemma CornerQuadsAt(n: int, m: int)
    requires SkirtShape(n, m)
    ensures SkirtQuad(n, m, 2 * (n - 1)) == BottomRightCorner(n, m)
    ensures SkirtQuad(n, m, 2 * (n - 1) + 1) == TopRightCorner(n, m)
    ensures SkirtQuad(n, m, 2 * (n - 1) + 2 + (m - 3)) == BottomLeftCorner(n, m)
    ensures SkirtQuad(n, m, 2 * (n - 1) + 2 + (m - 3) + 1) == TopLeftCorner(n, m)
  {
  }

  lemma SideQuadsAt(n: int, m: int, i: int)
    requires SkirtShape(n, m) && 0 <= i < m - 3
    ensures SkirtQuad(n, m, 2 * (n - 1) + 2 + i) == MiddleRightQuad(n, m, i)
    ensures SkirtQuad(n, m, 2 * (n - 1) + 2 + (m - 3) + 2 + i) == MiddleLeftQuad(n, m, i)
  {
  }

  /** The tile vertex that skirt vertex `s` duplicates, as the worker reads it. */
  function SkirtSource(n: int, m: int, s: int): (src: int)
    requires SkirtShape(n, m) && BottomStart(n, m) <= s < VertexCount(n, m)
    ensures 0 <= src < BottomStart(n, m)
  {
    if s < TopStart(n, m) then s - BottomStart(n, m)
    else if s < RightStart(n, m) then
      assert TopStart(n, m) - n * 2 + n == n * m;
      (s - TopStart(n, m)) + TopStart(n, m) - n * 2
    else if s < LeftStart(n, m) then
      SideSourceBound(n, m, s - RightStart(n, m));
      ((s - RightStart(n, m)) + 1) * n
    else
      SideSourceBound(n, m, s - LeftStart(n, m));
      ((s - LeftStart(n, m)) + 1) * n + n - 1
  }

  lemma SideSourceBound(n: int, m: int, i: int)
    requires SkirtShape(n, m) && 0 <= i < m - 2
    ensures 0 <= (i + 1) * n && (i + 1) * n + n - 1 < n * m
  {
    MulMonotone(n, i + 2, m);
    assert n * (i + 2) == (i + 1) * n + n;
  }

  /** Grid cell (column, row) of the tile vertex skirt vertex `s` duplicates. */
  function SkirtSourceCell(n: int, m: int, s: int): (int, int)
    requires SkirtShape(n, m) && BottomStart(n, m) <= s < VertexCount(n, m)
  {
    if s < TopStart(n, m) then (s - BottomStart(n, m), 0)
    else if s < RightStart(n, m) then (s - TopStart(n, m), m - 1)
    else if s < LeftStart(n, m) then (0, s - RightStart(n, m) + 1)
    else (n - 1, s - LeftStart(n, m) + 1)
  }

  /** The four skirt ranges follow the tile vertices back to back, without a
      gap or an overlap, and the skirt slots follow the interior slots. */
  lemma SkirtLayout(n: int, m: int)
    requires SkirtShape(n, m)
    ensures BottomStart(n, m) + n == TopStart(n, m)
    ensures TopStart(n, m) + n == RightStart(n, m)
    ensures RightStart(n, m) + (m - 2) == LeftStart(n, m)
    ensures LeftStart(n, m) + (m - 2) == VertexCount(n, m)
    ensures FirstSkirtSlot(n, m) + SkirtSlotCount(n, m) == 6 * ((n - 1) * (m - 1) + 2 * n + 2 * m - 4)
  {
  }

  /** Each skirt vertex duplicates a tile vertex on the tile's border: row 0,
      row m-1, column 0 or column n-1 (the column copies skip the corners). */
  lemma SkirtSourceOnBorder(n: int, m: int, s: int)
    requires SkirtShape(n, m) && BottomStart(n, m) <= s < VertexCount(n, m)
    ensures var (x, y) := SkirtSourceCell(n, m, s);
      && 0 <= x < n && 0 <= y < m
      && (y == 0 || y == m - 1 || ((x == 0 || x == n - 1) && 1 <= y <= m - 2))
      && SkirtSource(n, m, s) == Idx(x, y, n, m)
  {
    var (x, y) := SkirtSourceCell(n, m, s);
    if s < TopStart(n, m) {
    } else if s < RightStart(n, m) {
      assert TopStart(n, m) - n * 2 == n * (m - 1);
    } else if s < LeftStart(n, m) {
    } else {
    }
  }

  /** Two neighbouring cells on the tile's border: (x, y) and (x + 1, y) on
      row 0 or m - 1, or (x, y) and (x, y + 1) on column 0 or n - 1. */
  predicate BorderSegment(n: int, m: int, x: int, y: int, alongRow: bool)
  {
    if alongRow then 0 <= x < n - 1 && (y == 0 || y == m - 1)
    else (x == 0 || x == n - 1) && 0 <= y < m - 1
  }

  /** The tile vertices at the two ends of a border segment; they are one
      apart along a row and n apart along a column. */
  function SegmentEnds(n: int, m: int, x: int, y: int, alongRow: bool): (ends: (int, int))
    requires SkirtShape(n, m) && BorderSegment(n, m, x, y, alongRow)
    ensures 0 <= ends.0 < ends.1 < n * m
    ensures ends.1 - ends.0 == if alongRow then 1 else n
  {
    (Idx(x, y, n, m), if alongRow then Idx(x + 1, y, n, m) else Idx(x, y + 1, n, m))
  }

  /** The border segment skirt quad `q` hangs from, as its first cell and its
      direction. The bottom and top quads follow rows 0 and m - 1; the quads
      on the "right" follow column 0 (bottom corner, top corner, then the
      middle segments upwards) and those on the "left" column n - 1 alike. */
  function SkirtSegment(n: int, m: int, q: int): (seg: (int, int, bool))
    requires SkirtShape(n, m) && 0 <= q < SkirtQuadCount(n, m)
    ensures BorderSegment(n, m, seg.0, seg.1, seg.2)
  {
    var right := 2 * (n - 1);
    var left := right + 2 + (m - 3);
    if q < n - 1 then (q, 0, true)
    else if q < right then (q - (n - 1), m - 1, true)
    else if q == right then (0, 0, false)
    else if q == right + 1 then (0, m - 2, false)
    else if q < left then (0, q - (right + 2) + 1, false)
    else if q == left then (n - 1, 0, false)
    else if q == left + 1 then (n - 1, m - 2, false)
    else (n - 1, q - (left + 2) + 1, false)
  }

  /** The quad that hangs from a border segment: every segment has one. */
  function SegmentQuad(n: int, m: int, x: int, y: int, alongRow: bool): (q: int)
    requires SkirtShape(n, m) && BorderSegment(n, m, x, y, alongRow)
    ensures 0 <= q < SkirtQuadCount(n, m) && SkirtSegment(n, m, q) == (x, y, alongRow)
  {
    var right := 2 * (n - 1);
    var left := right + 2 + (m - 3);
    var side := if x == 0 then right else left;
    if alongRow then (if y == 0 then x else (n - 1) + x)
    else if y == 0 then side
    else if y == m - 2 then side + 1
    else side + 2 + (y - 1)
  }

  /** No two quads hang from the same segment, so with SegmentQuad the skirt
      hangs exactly one quad from each of the 2(n-1) + 2(m-1) border segments. */
  lemma SkirtSegmentInjective(n: int, m: int, q: int)
    requires SkirtShape(n, m) && 0 <= q < SkirtQuadCount(n, m)
    ensures var (x, y, alongRow) := SkirtSegment(n, m, q);
      SegmentQuad(n, m, x, y, alongRow) == q
    ensures SkirtQuadCount(n, m) == 2 * (n - 1) + 2 * (m - 1)
  {
  }

  /** Vertex v is tile vertex a or b, or a skirt vertex dropped from one of them. */
  predicate HangsFrom(n: int, m: int, v: int, a: int, b: int)
    requires SkirtShape(n, m)
  {
    || v == a || v == b
    || (BottomStart(n, m) <= v < VertexCount(n, m) && (SkirtSource(n, m, v) == a || SkirtSource(n, m, v) == b))
  }

  /** A quad that uses both ends of the segment (a, b) and otherwise only
      their dropped copies. */
  predicate QuadHangsFrom(n: int, m: int, quad: seq<int>, a: int, b: int)
    requires SkirtShape(n, m)
  {
    && |quad| == 6 && a in quad && b in quad
    && forall c :: 0 <= c < 6 ==> HangsFrom(n, m, quad[c], a, b)
  }

  /** A triangle of quad `q` that uses only the two ends of the quad's
      border segment and their dropped copies. */
  predicate TriangleOnSegment(n: int, m: int, q: int, u: int, v: int, w: int)
    requires SkirtShape(n, m) && 0 <= q < SkirtQuadCount(n, m)
  {
    var (x, y, alongRow) := SkirtSegment(n, m, q);
    var (a, b) := SegmentEnds(n, m, x, y, alongRow);
    HangsFrom(n, m, u, a, b) && HangsFrom(n, m, v, a, b) && HangsFrom(n, m, w, a, b)
  }

  /** The tile vertex each kind of skirt vertex is dropped from. */
  lemma DropSources(n: int, m: int, i: int, j: int)
    requires SkirtShape(n, m) && 0 <= i < n && 0 <= j < m - 2
    ensures SkirtSource(n, m, BottomStart(n, m) + i) == i
    ensures SkirtSource(n, m, TopStart(n, m) + i) == n * (m - 1) + i
    ensures SkirtSource(n, m, RightStart(n, m) + j) == n * (j + 1)
    ensures SkirtSource(n, m, LeftStart(n, m) + j) == n * (j + 1) + n - 1
  {
    assert n * (m + 1) == n * m + n;
    assert n * (m + 2) == n * m + 2 * n;
    assert n * (m - 1) == n * m - n;
  }

  lemma EdgeQuadsHang(n: int, m: int, i: int)
    requires SkirtShape(n, m) && 0 <= i < n - 1
    ensures QuadHangsFrom(n, m, BottomQuad(n, m, i), i, i + 1)
    ensures QuadHangsFrom(n, m, TopQuad(n, m, i), n * (m - 1) + i, n * (m - 1) + i + 1)
  {
    DropSources(n, m, i, 0);
    DropSources(n, m, i + 1, 0);
    assert n * (m + 1) - n * 2 == n * (m - 1);
  }

  lemma RightCornersHang(n: int, m: int)
    requires SkirtShape(n, m)
    ensures QuadHangsFrom(n, m, BottomRightCorner(n, m), 0, n)
    ensures QuadHangsFrom(n, m, TopRightCorner(n, m), n * (m - 2), n * (m - 1))
  {
    DropSources(n, m, 0, 0);
    DropSources(n, m, 0, m - 3);
    assert n * (m - 3 + 1) == n * (m - 2);
  }

  lemma LeftCornersHang(n: int, m: int)
    requires SkirtShape(n, m)
    ensures QuadHangsFrom(n, m, BottomLeftCorner(n, m), n - 1, 2 * n - 1)
    ensures QuadHangsFrom(n, m, TopLeftCorner(n, m), n * (m - 2) + n - 1, n * (m - 1) + n - 1)
  {
    DropSources(n, m, n - 1, 0);
    DropSources(n, m, n - 1, m - 3);
    assert n * (m - 3 + 1) == n * (m - 2);
    assert n * (m - 1) + n - 1 == n * m - 1;
    assert n * (m + 2) + (m - 2) * 2 - 1 == LeftStart(n, m) + (m - 3);
    assert n * (m + 2) - 1 == TopStart(n, m) + (n - 1);
  }

  lemma SideQuadsHang(n: int, m: int, i: int)
    requires SkirtShape(n, m) && 0 <= i < m - 3
    ensures QuadHangsFrom(n, m, MiddleRightQuad(n, m, i), n * (i + 1), n * (i + 2))
    ensures QuadHangsFrom(n, m, MiddleLeftQuad(n, m, i), n * (i + 1) + n - 1, n * (i + 2) + n - 1)
  {
    DropSources(n, m, 0, i);
    DropSources(n, m, 0, i + 1);
  }

  /** Quad `q` hangs from the two ends of its own border segment. */
  predicate HangsFromSegment(n: int, m: int, q: int)
    requires SkirtShape(n, m) && 0 <= q < SkirtQuadCount(n, m)
  {
    var (x, y, alongRow) := SkirtSegment(n, m, q);
    var (a, b) := SegmentEnds(n, m, x, y, alongRow);
    QuadHangsFrom(n, m, SkirtQuad(n, m, q), a, b)
  }

  lemma EdgeSegmentsHang(n: int, m: int, q: int)
    requires SkirtShape(n, m) && 0 <= q < 2 * (n - 1)
    ensures HangsFromSegment(n, m, q)
  {
    if q < n - 1 {
      EdgeQuadsHang(n, m, q);
      assert SegmentEnds(n, m, q, 0, true) == (q, q + 1);
    } else {
      var i := q - (n - 1);
      EdgeQuadsHang(n, m, i);
      assert SkirtQuad(n, m, q) == TopQuad(n, m, i);
      assert SegmentEnds(n, m, i, m - 1, true) == (n * (m - 1) + i, n * (m - 1) + i + 1);
    }
  }

  lemma RightCornerSegmentsHang(n: int, m: int, q: int)
    requires SkirtShape(n, m) && (q == 2 * (n - 1) || q == 2 * (n - 1) + 1)
    ensures HangsFromSegment(n, m, q)
  {
    RightCornersHang(n, m);
    if q == 2 * (n - 1) {
      assert SkirtQuad(n, m, q) == BottomRightCorner(n, m);
      assert SkirtSegment(n, m, q) == (0, 0, false);
      assert SegmentEnds(n, m, 0, 0, false) == (0, n);
    } else {
      assert SkirtQuad(n, m, q) == TopRightCorner(n, m);
      assert SkirtSegment(n, m, q) == (0, m - 2, false);
      assert SegmentEnds(n, m, 0, m - 2, false) == (n * (m - 2), n * (m - 1));
    }
  }

  lemma LeftCornerSegmentsHang(n: int, m: int, q: int)
    requires SkirtShape(n, m)
    requires var left := 2 * (n - 1) + 2 + (m - 3); q == left || q == left + 1
    ensures HangsFromSegment(n, m, q)
  {
    LeftCornersHang(n, m);
    if q == 2 * (n - 1) + 2 + (m - 3) {
      assert SkirtQuad(n, m, q) == BottomLeftCorner(n, m);
      assert SkirtSegment(n, m, q) == (n - 1, 0, false);
      assert SegmentEnds(n, m, n - 1, 0, false) == (n - 1, 2 * n - 1);
    } else {
      assert SkirtQuad(n, m, q) == TopLeftCorner(n, m);
      assert SkirtSegment(n, m, q) == (n - 1, m - 2, false);
      assert SegmentEnds(n, m, n - 1, m - 2, false) == (n * (m - 2) + n - 1, n * (m - 1) + n - 1);
    }
  }

  lemma RightSideSegmentsHang(n: int, m: int, q: int)
    requires SkirtShape(n, m) && 2 * (n - 1) + 2 <= q < 2 * (n - 1) + 2 + (m - 3)
    ensures HangsFromSegment(n, m, q)
  {
    var i := q - (2 * (n - 1) + 2);
    SideQuadsHang(n, m, i);
    assert SkirtQuad(n, m, q) == MiddleRightQuad(n, m, i);
    assert SkirtSegment(n, m, q) == (0, i + 1, false);
    assert SegmentEnds(n, m, 0, i + 1, false) == (n * (i + 1), n * (i + 2));
  }

  lemma LeftSideSegmentsHang(n: int, m: int, q: int)
    requires SkirtShape(n, m) && 2 * (n - 1) + 2 + (m - 3) + 2 <= q < SkirtQuadCount(n, m)
    ensures HangsFromSegment(n, m, q)
  {
    var i := q - (2 * (n - 1) + 2 + (m - 3) + 2);
    SideQuadsHang(n, m, i);
    assert SkirtQuad(n, m, q) == MiddleLeftQuad(n, m, i);
    assert SkirtSegment(n, m, q) == (n - 1, i + 1, false);
    assert SegmentEnds(n, m, n - 1, i + 1, false) == (n * (i + 1) + n - 1, n * (i + 2) + n - 1);
  }

  /** Every skirt quad hangs from its own border segment: it uses both end
      vertices, and each of its skirt vertices is the dropped copy of one of
      those two ends. */
  lemma SkirtQuadHangs(n: int, m: int, q: int)
    requires SkirtShape(n, m) && 0 <= q < SkirtQuadCount(n, m)
    ensures HangsFromSegment(n, m, q)
  {
    var right := 2 * (n - 1);
    var left := right + 2 + (m - 3);
    if q < right {
      EdgeSegmentsHang(n, m, q);
    } else if q == right || q == right + 1 {
      RightCornerSegmentsHang(n, m, q);
    } else if q == left || q == left + 1 {
      LeftCornerSegmentsHang(n, m, q);
    } else if q < left {
      RightSideSegmentsHang(n, m, q);
    } else {
      LeftSideSegmentsHang(n, m, q);
    }
  }


  /** A quad whose six indices name buffer vertices and whose two triangles
      each repeat no vertex and join a tile vertex to a skirt vertex. */
  predicate QuadWellFormed(quad: seq<int>, tile: int, total: int)
  {
    && |quad| == 6
    && (forall c :: 0 <= c < 6 ==> 0 <= quad[c] < total)
    && TriangleStitches(quad[0], quad[1], quad[2], tile)
    && TriangleStitches(quad[3], quad[4], quad[5], tile)
  }

  /** Three distinct vertices, at least one of the tile (below `tile`) and at
      least one of the skirt. */
  predicate TriangleStitches(a: int, b: int, c: int, tile: int)
  {
    && a != b && b != c && a != c
    && (a < tile || b < tile || c < tile)
    && (a >= tile || b >= tile || c >= tile)
  }

  lemma EdgeQuadsWellFormed(n: int, m: int, i: int)
    requires SkirtShape(n, m) && 0 <= i < n - 1
    ensures QuadWellFormed(BottomQuad(n, m, i), n * m, VertexCount(n, m))
    ensures QuadWellFormed(TopQuad(n, m, i), n * m, VertexCount(n, m))
  {
    assert n * (m + 1) == n * m + n;
    assert n * m >= n by { MulMonotone(n, 1, m); }
  }

  lemma RightCornersWellFormed(n: int, m: int)
    requires SkirtShape(n, m)
    ensures QuadWellFormed(BottomRightCorner(n, m), n * m, VertexCount(n, m))
    ensures QuadWellFormed(TopRightCorner(n, m), n * m, VertexCount(n, m))
  {
    var nm := n * m;
    assert n * (m + 2) == nm + 2 * n;
    assert n * (m + 1) == nm + n;
    assert n * (m - 1) == nm - n;
    assert n * (m - 2) == nm - 2 * n;
    assert nm >= 3 * n by { MulMonotone(n, 3, m); }
  }

  lemma LeftCornersWellFormed(n: int, m: int)
    requires SkirtShape(n, m)
    ensures QuadWellFormed(BottomLeftCorner(n, m), n * m, VertexCount(n, m))
    ensures QuadWellFormed(TopLeftCorner(n, m), n * m, VertexCount(n, m))
  {
    var nm := n * m;
    assert n * (m + 2) == nm + 2 * n;
    assert n * (m - 2) == nm - 2 * n;
    assert nm >= 3 * n by { MulMonotone(n, 3, m); }
  }

  lemma SideQuadsWellFormed(n: int, m: int, i: int)
    requires SkirtShape(n, m) && 0 <= i < m - 3
    ensures QuadWellFormed(MiddleRightQuad(n, m, i), n * m, VertexCount(n, m))
    ensures QuadWellFormed(MiddleLeftQuad(n, m, i), n * m, VertexCount(n, m))
  {
    assert n * (m + 2) == n * m + 2 * n;
    assert n * (i + 2) == n * (i + 1) + n;
    assert n * (i + 2) + n - 1 == Idx(n - 1, i + 2, n, m);
  }

  lemma SkirtQuadWellFormed(n: int, m: int, q: int)
    requires SkirtShape(n, m) && 0 <= q < SkirtQuadCount(n, m)
    ensures QuadWellFormed(SkirtQuad(n, m, q), n * m, VertexCount(n, m))
  {
    var right := 2 * (n - 1);
    var left := right + 2 + (m - 3);
    if q < n - 1 {
      EdgeQuadsWellFormed(n, m, q);
    } else if q < right {
      EdgeQuadsWellFormed(n, m, q - (n - 1));
    } else if q == right || q == right + 1 {
      RightCornersWellFormed(n, m);
    } else if q == left || q == left + 1 {
      LeftCornersWellFormed(n, m);
    } else if q < left {
      SideQuadsWellFormed(n, m, q - (right + 2));
    } else {
      SideQuadsWellFormed(n, m, q - (left + 2));
    }
  }

  lemma SlotOfQuad(n: int, m: int, q: int, c: int)
    requires SkirtShape(n, m) && 0 <= q < SkirtQuadCount(n, m) && 0 <= c < 6
    ensures SkirtSlot(n, m, 6 * q + c) == SkirtQuad(n, m, q)[c]
  {
  }

  lemma HalfStitches(quad: seq<int>, tile: int, total: int, k: int)
    requires QuadWellFormed(quad, tile, total) && (k == 0 || k == 3)
    ensures TriangleStitches(quad[k], quad[k + 1], quad[k + 2], tile)
  {
  }

  /** Triangle t of the skirt is half k of quad t / 2: it repeats no vertex,
      joins the tile to the skirt, and uses only the two ends of the quad's
      border segment and their dropped copies. */
  lemma QuadTriangleStitches(n: int, m: int, t: int)
    requires SkirtShape(n, m) && 0 <= t < 2 * SkirtQuadCount(n, m)
    ensures var quad, k := SkirtQuad(n, m, t / 2), 3 * (t % 2);
      TriangleStitches(quad[k], quad[k + 1], quad[k + 2], n * m)
    ensures var quad, k := SkirtQuad(n, m, t / 2), 3 * (t % 2);
      TriangleOnSegment(n, m, t / 2, quad[k], quad[k + 1], quad[k + 2])
  {
    var q, k := t / 2, 3 * (t % 2);
    assert 0 <= q < SkirtQuadCount(n, m) && (k == 0 || k == 3);
    SkirtQuadWellFormed(n, m, q);
    HalfStitches(SkirtQuad(n, m, q), n * m, VertexCount(n, m), k);
    SkirtQuadHangs(n, m, q);
  }

  /** No skirt triangle (slots 3t, 3t+1, 3t+2 of the skirt) repeats a vertex,
      and each one joins a tile vertex to a dropped skirt vertex. Its
      vertices are the two ends of one border segment and their dropped
      copies, so it stitches that segment to its curtain. */
  lemma SkirtTriangleStitches(n: int, m: int, t: int)
    requires SkirtShape(n, m) && 0 <= t < 2 * SkirtQuadCount(n, m)
    ensures TriangleStitches(SkirtSlot(n, m, 3 * t), SkirtSlot(n, m, 3 * t + 1), SkirtSlot(n, m, 3 * t + 2), n * m)
    ensures TriangleOnSegment(n, m, t / 2, SkirtSlot(n, m, 3 * t), SkirtSlot(n, m, 3 * t + 1), SkirtSlot(n, m, 3 * t + 2))
  {
    var q, k := t / 2, 3 * (t % 2);
    assert 6 * q + k == 3 * t;
    QuadTriangleStitches(n, m, t);
    SlotOfQuad(n, m, q, k);
    SlotOfQuad(n, m, q, k + 1);
    SlotOfQuad(n, m, q, k + 2);
  }
}
