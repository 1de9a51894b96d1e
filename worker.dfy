/** The terrain generator worker (FCGTerrainGeneratorWorker): for one job it
    fills the borrowed mesh buffers stage by stage, in place. Each stage is
    proved against the cell-by-cell description in module Tile. */
module Generator {
  import opened Config
  import opened Grid
  import opened Vectors
  import opened Channels
  import opened Normals
  import opened Skirt
  import opened Mesh
  import opened Tile

  /** Stores the six indices of one skirt quad in slots `at` .. `at` + 5. */
  method StoreQuad(tri: array<int>, at: int, quad: seq<int>)
    requires |quad| == 6 && 0 <= at && at + 6 <= tri.Length
    modifies tri
    ensures tri[..] == old(tri[..])[..at] + quad + old(tri[..])[at + 6..]
  {
    tri[at] := quad[0];
    tri[at + 1] := quad[1];
    tri[at + 2] := quad[2];
    tri[at + 3] := quad[3];
    tri[at + 4] := quad[4];
    tri[at + 5] := quad[5];
    assert tri[..] == old(tri[..])[..at] + quad + old(tri[..])[at + 6..] by {
      forall j | 0 <= j < tri.Length
        ensures tri[j] == (old(tri[..])[..at] + quad + old(tri[..])[at + 6..])[j]
      {
        if at <= j < at + 6 {
          assert tri[j] == quad[j - at];
        }
      }
    }
  }

  /** Drops skirt vertex `target` below tile vertex `src`: the source's X and
      Y at SkirtDepth, and the source's normal. */
  method DropVertex(pos: array<Vec3>, nrm: array<Vec3>, target: int, src: int,
                    ghost pos0: seq<Vec3>, ghost nrm0: seq<Vec3>, ghost n: int, ghost m: int, ghost done: int)
    requires pos != nrm
    requires SkirtShape(n, m) && 0 <= done < VertexCount(n, m) - BottomStart(n, m)
    requires |pos0| >= VertexCount(n, m) && |nrm0| >= VertexCount(n, m)
    requires target == BottomStart(n, m) + done && src == SkirtSource(n, m, target)
    requires SkirtVerticesDone(pos[..], nrm[..], pos0, nrm0, n, m, done)
    modifies pos, nrm
    ensures SkirtVerticesDone(pos[..], nrm[..], pos0, nrm0, n, m, done + 1)
  {
    SkirtVertexStep(pos[..], nrm[..], pos0, nrm0, n, m, done);
    pos[target] := Vec3(pos[src].x, pos[src].y, SkirtDepth);
    nrm[target] := nrm[src];
  }

  /** Stores skirt quad `q` in its six slots. */
  method StoreSkirtQuad(tri: array<int>, at: int, quad: seq<int>,
                        ghost tri0: seq<int>, ghost n: int, ghost m: int, ghost q: int)
    requires SkirtShape(n, m) && 0 <= q < SkirtQuadCount(n, m)
    requires |tri0| >= FirstSkirtSlot(n, m) + SkirtSlotCount(n, m)
    requires at == FirstSkirtSlot(n, m) + 6 * q && quad == SkirtQuad(n, m, q)
    requires SkirtSlotsDone(tri[..], tri0, n, m, q)
    modifies tri
    ensures SkirtSlotsDone(tri[..], tri0, n, m, q + 1)
  {
    SkirtQuadStored(tri[..], tri0, n, m, q);
    StoreQuad(tri, at, quad);
  }

  /** Bottom edge vertices: row 0, dropped. */
  method SkirtBottomVertices(pos: array<Vec3>, nrm: array<Vec3>, tri: array<int>, numXVerts: int, numYVerts: int, startIndex: int,
                          ghost pos0: seq<Vec3>, ghost nrm0: seq<Vec3>, ghost tri0: seq<int>)
    requires pos != nrm
    requires startIndex == BottomStart(numXVerts, numYVerts)
    requires SkirtVerticesDone(pos[..], nrm[..], pos0, nrm0, numXVerts, numYVerts, 0)
    requires SkirtSlotsDone(tri[..], tri0, numXVerts, numYVerts, 0)
    modifies pos, nrm
    ensures SkirtVerticesDone(pos[..], nrm[..], pos0, nrm0, numXVerts, numYVerts, numXVerts)
    ensures SkirtSlotsDone(tri[..], tri0, numXVerts, numYVerts, 0)
  {
    SkirtLayout(numXVerts, numYVerts);
    for i := 0 to numXVerts
      invariant SkirtVerticesDone(pos[..], nrm[..], pos0, nrm0, numXVerts, numYVerts, i)
      invariant SkirtSlotsDone(tri[..], tri0, numXVerts, numYVerts, 0)
    {
      DropVertex(pos, nrm, startIndex + i, i, pos0, nrm0, numXVerts, numYVerts, i);
    }
  }

  /** Bottom edge quad i: segment i of row 0 joined to its dropped copy. */
  method StoreBottomQuad(tri: array<int>, numXVerts: int, numYVerts: int, startIndex: int, triStartIndex: int, i: int,
                    ghost tri0: seq<int>)
    requires 0 <= i < numXVerts - 1
    requires startIndex == BottomStart(numXVerts, numYVerts)
    requires triStartIndex == FirstSkirtSlot(numXVerts, numYVerts) + 6 * (0)
    requires SkirtSlotsDone(tri[..], tri0, numXVerts, numYVerts, i)
    modifies tri
    ensures SkirtSlotsDone(tri[..], tri0, numXVerts, numYVerts, i + 1)
  {
    EdgeQuadsAt(numXVerts, numYVerts, i);
    StoreSkirtQuad(tri, triStartIndex + (i * 6),
                   [i, startIndex + i + 1, startIndex + i, i + 1, startIndex + i + 1, i],
                   tri0, numXVerts, numYVerts, i);
  }

  /** Every quad of that kind, in order. */
  method SkirtBottomQuads(pos: array<Vec3>, nrm: array<Vec3>, tri: array<int>, numXVerts: int, numYVerts: int,
                    startIndex: int, triStartIndex: int, ghost pos0: seq<Vec3>, ghost nrm0: seq<Vec3>, ghost tri0: seq<int>)
    requires startIndex == BottomStart(numXVerts, numYVerts)
    requires triStartIndex == FirstSkirtSlot(numXVerts, numYVerts) + 6 * (0)
    requires SkirtSlotsDone(tri[..], tri0, numXVerts, numYVerts, 0)
    requires SkirtVerticesDone(pos[..], nrm[..], pos0, nrm0, numXVerts, numYVerts, numXVerts)
    modifies tri
    ensures SkirtSlotsDone(tri[..], tri0, numXVerts, numYVerts, numXVerts - 1)
    ensures SkirtVerticesDone(pos[..], nrm[..], pos0, nrm0, numXVerts, numYVerts, numXVerts)
  {
    for i := 0 to numXVerts - 1
      invariant SkirtSlotsDone(tri[..], tri0, numXVerts, numYVerts, i)
      invariant SkirtVerticesDone(pos[..], nrm[..], pos0, nrm0, numXVerts, numYVerts, numXVerts)
    {
      StoreBottomQuad(tri, numXVerts, numYVerts, startIndex, triStartIndex, i, tri0);
    }
  }

  /** Top edge vertices: row numYVerts - 1, dropped. */
  method SkirtTopVertices(pos: array<Vec3>, nrm: array<Vec3>, tri: array<int>, numXVerts: int, numYVerts: int, startIndex: int,
                          ghost pos0: seq<Vec3>, ghost nrm0: seq<Vec3>, ghost tri0: seq<int>)
    requires pos != nrm
    requires startIndex == TopStart(numXVerts, numYVerts)
    requires SkirtVerticesDone(pos[..], nrm[..], pos0, nrm0, numXVerts, numYVerts, numXVerts)
    requires SkirtSlotsDone(tri[..], tri0, numXVerts, numYVerts, numXVerts - 1)
    modifies pos, nrm
    ensures SkirtVerticesDone(pos[..], nrm[..], pos0, nrm0, numXVerts, numYVerts, numXVerts + (numXVerts))
    ensures SkirtSlotsDone(tri[..], tri0, numXVerts, numYVerts, numXVerts - 1)
  {
    SkirtLayout(numXVerts, numYVerts);
    for i := 0 to numXVerts
      invariant SkirtVerticesDone(pos[..], nrm[..], pos0, nrm0, numXVerts, numYVerts, numXVerts + i)
      invariant SkirtSlotsDone(tri[..], tri0, numXVerts, numYVerts, numXVerts - 1)
    {
      DropVertex(pos, nrm, startIndex + i, i + startIndex - (numXVerts * 2), pos0, nrm0, numXVerts, numYVerts, numXVerts + i);
    }
  }

  /** Top edge quad i: segment i of the last row joined to its dropped copy. */
  method StoreTopQuad(tri: array<int>, numXVerts: int, numYVerts: int, startIndex: int, triStartIndex: int, i: int,
                    ghost tri0: seq<int>)
    requires 0 <= i < numXVerts - 1
    requires startIndex == TopStart(numXVerts, numYVerts)
    requires triStartIndex == FirstSkirtSlot(numXVerts, numYVerts) + 6 * (numXVerts - 1)
    requires SkirtSlotsDone(tri[..], tri0, numXVerts, numYVerts, numXVerts - 1 + i)
    modifies tri
    ensures SkirtSlotsDone(tri[..], tri0, numXVerts, numYVerts, numXVerts - 1 + i + 1)
  {
    EdgeQuadsAt(numXVerts, numYVerts, i);
    StoreSkirtQuad(tri, triStartIndex + (i * 6),
                   [i + startIndex - (numXVerts * 2), startIndex + i, i + startIndex - (numXVerts * 2) + 1,
                    i + startIndex - (numXVerts * 2) + 1, startIndex + i, startIndex + i + 1],
                   tri0, numXVerts, numYVerts, numXVerts - 1 + i);
  }

  /** Every quad of that kind, in order. */
  method SkirtTopQuads(pos: array<Vec3>, nrm: array<Vec3>, tri: array<int>, numXVerts: int, numYVerts: int,
                    startIndex: int, triStartIndex: int, ghost pos0: seq<Vec3>, ghost nrm0: seq<Vec3>, ghost tri0: seq<int>)
    requires startIndex == TopStart(numXVerts, numYVerts)
    requires triStartIndex == FirstSkirtSlot(numXVerts, numYVerts) + 6 * (numXVerts - 1)
    requires SkirtSlotsDone(tri[..], tri0, numXVerts, numYVerts, numXVerts - 1)
    requires SkirtVerticesDone(pos[..], nrm[..], pos0, nrm0, numXVerts, numYVerts, numXVerts + (numXVerts))
    modifies tri
    ensures SkirtSlotsDone(tri[..], tri0, numXVerts, numYVerts, numXVerts - 1 + (numXVerts - 1))
    ensures SkirtVerticesDone(pos[..], nrm[..], pos0, nrm0, numXVerts, numYVerts, numXVerts + (numXVerts))
  {
    for i := 0 to numXVerts - 1
      invariant SkirtSlotsDone(tri[..], tri0, numXVerts, numYVerts, numXVerts - 1 + i)
      invariant SkirtVerticesDone(pos[..], nrm[..], pos0, nrm0, numXVerts, numYVerts, numXVerts + (numXVerts))
    {
      StoreTopQuad(tri, numXVerts, numYVerts, startIndex, triStartIndex, i, tri0);
    }
  }

  /** The "right" edge vertices: column 0 without its two corners, dropped. */
  method SkirtRightVertices(pos: array<Vec3>, nrm: array<Vec3>, tri: array<int>, numXVerts: int, numYVerts: int, startIndex: int,
                          ghost pos0: seq<Vec3>, ghost nrm0: seq<Vec3>, ghost tri0: seq<int>)
    requires pos != nrm
    requires startIndex == RightStart(numXVerts, numYVerts)
    requires SkirtVerticesDone(pos[..], nrm[..], pos0, nrm0, numXVerts, numYVerts, 2 * numXVerts)
    requires SkirtSlotsDone(tri[..], tri0, numXVerts, numYVerts, 2 * (numXVerts - 1))
    modifies pos, nrm
    ensures SkirtVerticesDone(pos[..], nrm[..], pos0, nrm0, numXVerts, numYVerts, 2 * numXVerts + (numYVerts - 2))
    ensures SkirtSlotsDone(tri[..], tri0, numXVerts, numYVerts, 2 * (numXVerts - 1))
  {
    SkirtLayout(numXVerts, numYVerts);
    for i := 0 to numYVerts - 2
      invariant SkirtVerticesDone(pos[..], nrm[..], pos0, nrm0, numXVerts, numYVerts, 2 * numXVerts + i)
      invariant SkirtSlotsDone(tri[..], tri0, numXVerts, numYVerts, 2 * (numXVerts - 1))
    {
      DropVertex(pos, nrm, startIndex + i, (i + 1) * numXVerts, pos0, nrm0, numXVerts, numYVerts, 2 * numXVerts + i);
    }
  }

  /** "Right" edge quad i, between the two right corners: column 0 from row i + 1 to row i + 2. */
  method StoreMiddleRightQuad(tri: array<int>, numXVerts: int, numYVerts: int, startIndex: int, triStartIndex: int, i: int,
                    ghost tri0: seq<int>)
    requires 0 <= i < numYVerts - 3
    requires startIndex == RightStart(numXVerts, numYVerts)
    requires triStartIndex == FirstSkirtSlot(numXVerts, numYVerts) + 6 * (2 * (numXVerts - 1) + 2)
    requires SkirtSlotsDone(tri[..], tri0, numXVerts, numYVerts, 2 * (numXVerts - 1) + 2 + i)
    modifies tri
    ensures SkirtSlotsDone(tri[..], tri0, numXVerts, numYVerts, 2 * (numXVerts - 1) + 2 + i + 1)
  {
    SideQuadsAt(numXVerts, numYVerts, i);
    StoreSkirtQuad(tri, triStartIndex + (i * 6),
                   [numXVerts * (i + 1), startIndex + i, numXVerts * (i + 2),
                    numXVerts * (i + 2), startIndex + i, startIndex + i + 1],
                   tri0, numXVerts, numYVerts, 2 * (numXVerts - 1) + 2 + i);
  }

  /** Every quad of that kind, in order. */
  method SkirtMiddleRightQuads(pos: array<Vec3>, nrm: array<Vec3>, tri: array<int>, numXVerts: int, numYVerts: int,
                    startIndex: int, triStartIndex: int, ghost pos0: seq<Vec3>, ghost nrm0: seq<Vec3>, ghost tri0: seq<int>)
    requires startIndex == RightStart(numXVerts, numYVerts)
    requires triStartIndex == FirstSkirtSlot(numXVerts, numYVerts) + 6 * (2 * (numXVerts - 1) + 2)
    requires SkirtSlotsDone(tri[..], tri0, numXVerts, numYVerts, 2 * (numXVerts - 1) + 2)
    requires SkirtVerticesDone(pos[..], nrm[..], pos0, nrm0, numXVerts, numYVerts, 2 * numXVerts + (numYVerts - 2))
    modifies tri
    ensures SkirtSlotsDone(tri[..], tri0, numXVerts, numYVerts, 2 * (numXVerts - 1) + 2 + (numYVerts - 3))
    ensures SkirtVerticesDone(pos[..], nrm[..], pos0, nrm0, numXVerts, numYVerts, 2 * numXVerts + (numYVerts - 2))
  {
    for i := 0 to numYVerts - 3
      invariant SkirtSlotsDone(tri[..], tri0, numXVerts, numYVerts, 2 * (numXVerts - 1) + 2 + i)
      invariant SkirtVerticesDone(pos[..], nrm[..], pos0, nrm0, numXVerts, numYVerts, 2 * numXVerts + (numYVerts - 2))
    {
      StoreMiddleRightQuad(tri, numXVerts, numYVerts, startIndex, triStartIndex, i, tri0);
    }
  }

  /** The "left" edge vertices: column numXVerts - 1 without its two corners, dropped. */
  method SkirtLeftVertices(pos: array<Vec3>, nrm: array<Vec3>, tri: array<int>, numXVerts: int, numYVerts: int, startIndex: int,
                          ghost pos0: seq<Vec3>, ghost nrm0: seq<Vec3>, ghost tri0: seq<int>)
    requires pos != nrm
    requires startIndex == LeftStart(numXVerts, numYVerts)
    requires SkirtVerticesDone(pos[..], nrm[..], pos0, nrm0, numXVerts, numYVerts, 2 * numXVerts + (numYVerts - 2))
    requires SkirtSlotsDone(tri[..], tri0, numXVerts, numYVerts, 2 * (numXVerts - 1) + 2 + (numYVerts - 3))
    modifies pos, nrm
    ensures SkirtVerticesDone(pos[..], nrm[..], pos0, nrm0, numXVerts, numYVerts, 2 * numXVerts + (numYVerts - 2) + (numYVerts - 2))
    ensures SkirtSlotsDone(tri[..], tri0, numXVerts, numYVerts, 2 * (numXVerts - 1) + 2 + (numYVerts - 3))
  {
    SkirtLayout(numXVerts, numYVerts);
    for i := 0 to numYVerts - 2
      invariant SkirtVerticesDone(pos[..], nrm[..], pos0, nrm0, numXVerts, numYVerts, 2 * numXVerts + (numYVerts - 2) + i)
      invariant SkirtSlotsDone(tri[..], tri0, numXVerts, numYVerts, 2 * (numXVerts - 1) + 2 + (numYVerts - 3))
    {
      DropVertex(pos, nrm, startIndex + i, ((i + 1) * numXVerts) + numXVerts - 1, pos0, nrm0, numXVerts, numYVerts, 2 * numXVerts + (numYVerts - 2) + i);
    }
  }

  /** "Left" edge quad i, between the two left corners: column numXVerts - 1 from row i + 1 to row i + 2. */
  method StoreMiddleLeftQuad(tri: array<int>, numXVerts: int, numYVerts: int, startIndex: int, triStartIndex: int, i: int,
                    ghost tri0: seq<int>)
    requires 0 <= i < numYVerts - 3
    requires startIndex == LeftStart(numXVerts, numYVerts)
    requires triStartIndex == FirstSkirtSlot(numXVerts, numYVerts) + 6 * (2 * (numXVerts - 1) + 2 + (numYVerts - 3) + 2)
    requires SkirtSlotsDone(tri[..], tri0, numXVerts, numYVerts, 2 * (numXVerts - 1) + 2 + (numYVerts - 3) + 2 + i)
    modifies tri
    ensures SkirtSlotsDone(tri[..], tri0, numXVerts, numYVerts, 2 * (numXVerts - 1) + 2 + (numYVerts - 3) + 2 + i + 1)
  {
    SideQuadsAt(numXVerts, numYVerts, i);
    StoreSkirtQuad(tri, triStartIndex + (i * 6),
                   [(numXVerts * (i + 1)) + numXVerts - 1, (numXVerts * (i + 2)) + numXVerts - 1, startIndex + i + 1,
                    (numXVerts * (i + 1)) + numXVerts - 1, startIndex + i + 1, startIndex + i],
                   tri0, numXVerts, numYVerts, 2 * (numXVerts - 1) + 2 + (numYVerts - 3) + 2 + i);
  }

  /** Every quad of that kind, in order. */
  method SkirtMiddleLeftQuads(pos: array<Vec3>, nrm: array<Vec3>, tri: array<int>, numXVerts: int, numYVerts: int,
                    startIndex: int, triStartIndex: int, ghost pos0: seq<Vec3>, ghost nrm0: seq<Vec3>, ghost tri0: seq<int>)
    requires startIndex == LeftStart(numXVerts, numYVerts)
    requires triStartIndex == FirstSkirtSlot(numXVerts, numYVerts) + 6 * (2 * (numXVerts - 1) + 2 + (numYVerts - 3) + 2)
    requires SkirtSlotsDone(tri[..], tri0, numXVerts, numYVerts, 2 * (numXVerts - 1) + 2 + (numYVerts - 3) + 2)
    requires SkirtVerticesDone(pos[..], nrm[..], pos0, nrm0, numXVerts, numYVerts, 2 * numXVerts + (numYVerts - 2) + (numYVerts - 2))
    modifies tri
    ensures SkirtSlotsDone(tri[..], tri0, numXVerts, numYVerts, 2 * (numXVerts - 1) + 2 + (numYVerts - 3) + 2 + (numYVerts - 3))
    ensures SkirtVerticesDone(pos[..], nrm[..], pos0, nrm0, numXVerts, numYVerts, 2 * numXVerts + (numYVerts - 2) + (numYVerts - 2))
  {
    for i := 0 to numYVerts - 3
      invariant SkirtSlotsDone(tri[..], tri0, numXVerts, numYVerts, 2 * (numXVerts - 1) + 2 + (numYVerts - 3) + 2 + i)
      invariant SkirtVerticesDone(pos[..], nrm[..], pos0, nrm0, numXVerts, numYVerts, 2 * numXVerts + (numYVerts - 2) + (numYVerts - 2))
    {
      StoreMiddleLeftQuad(tri, numXVerts, numYVerts, startIndex, triStartIndex, i, tri0);
    }
  }

  /** The bottom-right corner quad: vertex 0 of row 0 and row 1 joined to their drops. */
  method StoreBottomRightCorner(pos: array<Vec3>, nrm: array<Vec3>, tri: array<int>, numXVerts: int, numYVerts: int,
                    triStartIndex: int, ghost pos0: seq<Vec3>, ghost nrm0: seq<Vec3>, ghost tri0: seq<int>)
    requires SkirtShape(numXVerts, numYVerts)
    requires triStartIndex == FirstSkirtSlot(numXVerts, numYVerts) + 6 * (2 * (numXVerts - 1))
    requires SkirtSlotsDone(tri[..], tri0, numXVerts, numYVerts, 2 * (numXVerts - 1))
    requires SkirtVerticesDone(pos[..], nrm[..], pos0, nrm0, numXVerts, numYVerts, 2 * numXVerts + (numYVerts - 2))
    modifies tri
    ensures SkirtSlotsDone(tri[..], tri0, numXVerts, numYVerts, 2 * (numXVerts - 1) + 1)
    ensures SkirtVerticesDone(pos[..], nrm[..], pos0, nrm0, numXVerts, numYVerts, 2 * numXVerts + (numYVerts - 2))
  {
    CornerQuadsAt(numXVerts, numYVerts);
    StoreSkirtQuad(tri, triStartIndex,
                   [0, numXVerts * numYVerts, numXVerts, numXVerts, numXVerts * numYVerts, numXVerts * (numYVerts + 2)],
                   tri0, numXVerts, numYVerts, 2 * (numXVerts - 1));
  }

  /** The top-right corner quad: the first vertex of the last two rows joined to their drops. */
  method StoreTopRightCorner(pos: array<Vec3>, nrm: array<Vec3>, tri: array<int>, numXVerts: int, numYVerts: int,
                    triStartIndex: int, ghost pos0: seq<Vec3>, ghost nrm0: seq<Vec3>, ghost tri0: seq<int>)
    requires SkirtShape(numXVerts, numYVerts)
    requires triStartIndex == FirstSkirtSlot(numXVerts, numYVerts) + 6 * (2 * (numXVerts - 1) + 1)
    requires SkirtSlotsDone(tri[..], tri0, numXVerts, numYVerts, 2 * (numXVerts - 1) + 1)
    requires SkirtVerticesDone(pos[..], nrm[..], pos0, nrm0, numXVerts, numYVerts, 2 * numXVerts + (numYVerts - 2))
    modifies tri
    ensures SkirtSlotsDone(tri[..], tri0, numXVerts, numYVerts, 2 * (numXVerts - 1) + 2)
    ensures SkirtVerticesDone(pos[..], nrm[..], pos0, nrm0, numXVerts, numYVerts, 2 * numXVerts + (numYVerts - 2))
  {
    CornerQuadsAt(numXVerts, numYVerts);
    StoreSkirtQuad(tri, triStartIndex,
                   [numXVerts * (numYVerts - 1), (numXVerts * (numYVerts + 2)) + numYVerts - 3, numXVerts * (numYVerts + 1),
                    numXVerts * (numYVerts - 1), numXVerts * (numYVerts - 2), (numXVerts * (numYVerts + 2)) + numYVerts - 3],
                   tri0, numXVerts, numYVerts, 2 * (numXVerts - 1) + 1);
  }

  /** The bottom-left corner quad: the last vertex of row 0 and row 1 joined to their drops. */
  method StoreBottomLeftCorner(pos: array<Vec3>, nrm: array<Vec3>, tri: array<int>, numXVerts: int, numYVerts: int, startIndex: int,
                    triStartIndex: int, ghost pos0: seq<Vec3>, ghost nrm0: seq<Vec3>, ghost tri0: seq<int>)
    requires SkirtShape(numXVerts, numYVerts)
    requires startIndex == LeftStart(numXVerts, numYVerts)
    requires triStartIndex == FirstSkirtSlot(numXVerts, numYVerts) + 6 * (2 * (numXVerts - 1) + 2 + (numYVerts - 3))
    requires SkirtSlotsDone(tri[..], tri0, numXVerts, numYVerts, 2 * (numXVerts - 1) + 2 + (numYVerts - 3))
    requires SkirtVerticesDone(pos[..], nrm[..], pos0, nrm0, numXVerts, numYVerts, 2 * numXVerts + (numYVerts - 2) + (numYVerts - 2))
    modifies tri
    ensures SkirtSlotsDone(tri[..], tri0, numXVerts, numYVerts, 2 * (numXVerts - 1) + 2 + (numYVerts - 3) + 1)
    ensures SkirtVerticesDone(pos[..], nrm[..], pos0, nrm0, numXVerts, numYVerts, 2 * numXVerts + (numYVerts - 2) + (numYVerts - 2))
  {
    CornerQuadsAt(numXVerts, numYVerts);
    StoreSkirtQuad(tri, triStartIndex,
                   [numXVerts - 1, (numXVerts * 2) - 1, startIndex, startIndex, (numXVerts * numYVerts) + numXVerts - 1, numXVerts - 1],
                   tri0, numXVerts, numYVerts, 2 * (numXVerts - 1) + 2 + (numYVerts - 3));
  }

  /** The top-left corner quad: the last vertex of the last two rows joined to their drops. */
  method StoreTopLeftCorner(pos: array<Vec3>, nrm: array<Vec3>, tri: array<int>, numXVerts: int, numYVerts: int,
                    triStartIndex: int, ghost pos0: seq<Vec3>, ghost nrm0: seq<Vec3>, ghost tri0: seq<int>)
    requires SkirtShape(numXVerts, numYVerts)
    requires triStartIndex == FirstSkirtSlot(numXVerts, numYVerts) + 6 * (2 * (numXVerts - 1) + 2 + (numYVerts - 3) + 1)
    requires SkirtSlotsDone(tri[..], tri0, numXVerts, numYVerts, 2 * (numXVerts - 1) + 2 + (numYVerts - 3) + 1)
    requires SkirtVerticesDone(pos[..], nrm[..], pos0, nrm0, numXVerts, numYVerts, 2 * numXVerts + (numYVerts - 2) + (numYVerts - 2))
    modifies tri
    ensures SkirtSlotsDone(tri[..], tri0, numXVerts, numYVerts, 2 * (numXVerts - 1) + 2 + (numYVerts - 3) + 2)
    ensures SkirtVerticesDone(pos[..], nrm[..], pos0, nrm0, numXVerts, numYVerts, 2 * numXVerts + (numYVerts - 2) + (numYVerts - 2))
  {
    CornerQuadsAt(numXVerts, numYVerts);
    StoreSkirtQuad(tri, triStartIndex,
                   [(numXVerts * numYVerts) - 1, (numXVerts * (numYVerts + 2)) - 1,
                    (numXVerts * (numYVerts + 2)) + ((numYVerts - 2) * 2) - 1,
                    (numXVerts * numYVerts) - 1, (numXVerts * (numYVerts + 2)) + ((numYVerts - 2) * 2) - 1,
                    (numXVerts * (numYVerts - 2)) + numXVerts - 1],
                   tri0, numXVerts, numYVerts, 2 * (numXVerts - 1) + 2 + (numYVerts - 3) + 1);
  }

  /** The bottom edge: row 0 dropped, and the quads joining it to its drop. */
  method SkirtBottomEdge(pos: array<Vec3>, nrm: array<Vec3>, tri: array<int>, numXVerts: int, numYVerts: int,
                        startIndex: int, triStartIndex: int, ghost pos0: seq<Vec3>, ghost nrm0: seq<Vec3>, ghost tri0: seq<int>)
    requires pos != nrm
    requires startIndex == BottomStart(numXVerts, numYVerts) && triStartIndex == FirstSkirtSlot(numXVerts, numYVerts) + 6 * (0)
    requires SkirtVerticesDone(pos[..], nrm[..], pos0, nrm0, numXVerts, numYVerts, 0)
    requires SkirtSlotsDone(tri[..], tri0, numXVerts, numYVerts, 0)
    modifies pos, nrm, tri
    ensures SkirtVerticesDone(pos[..], nrm[..], pos0, nrm0, numXVerts, numYVerts, numXVerts)
    ensures SkirtSlotsDone(tri[..], tri0, numXVerts, numYVerts, numXVerts - 1)
  {
    SkirtBottomVertices(pos, nrm, tri, numXVerts, numYVerts, startIndex, pos0, nrm0, tri0);
    SkirtBottomQuads(pos, nrm, tri, numXVerts, numYVerts, startIndex, triStartIndex, pos0, nrm0, tri0);
  }

  /** The top edge: the last row dropped, and the quads joining it to its drop. */
  method SkirtTopEdge(pos: array<Vec3>, nrm: array<Vec3>, tri: array<int>, numXVerts: int, numYVerts: int,
                        startIndex: int, triStartIndex: int, ghost pos0: seq<Vec3>, ghost nrm0: seq<Vec3>, ghost tri0: seq<int>)
    requires pos != nrm
    requires startIndex == TopStart(numXVerts, numYVerts) && triStartIndex == FirstSkirtSlot(numXVerts, numYVerts) + 6 * (numXVerts - 1)
    requires SkirtVerticesDone(pos[..], nrm[..], pos0, nrm0, numXVerts, numYVerts, numXVerts)
    requires SkirtSlotsDone(tri[..], tri0, numXVerts, numYVerts, numXVerts - 1)
    modifies pos, nrm, tri
    ensures SkirtVerticesDone(pos[..], nrm[..], pos0, nrm0, numXVerts, numYVerts, 2 * numXVerts)
    ensures SkirtSlotsDone(tri[..], tri0, numXVerts, numYVerts, 2 * (numXVerts - 1))
  {
    SkirtTopVertices(pos, nrm, tri, numXVerts, numYVerts, startIndex, pos0, nrm0, tri0);
    SkirtTopQuads(pos, nrm, tri, numXVerts, numYVerts, startIndex, triStartIndex, pos0, nrm0, tri0);
    assert numXVerts + (numXVerts) == 2 * numXVerts;
    assert numXVerts - 1 + (numXVerts - 1) == 2 * (numXVerts - 1);
  }

  /** The "right" edge (column 0): its inner vertices dropped, the two corner
      quads, and the quads in between. */
  method SkirtRightEdge(pos: array<Vec3>, nrm: array<Vec3>, tri: array<int>, numXVerts: int, numYVerts: int,
                        startIndex: int, triStartIndex: int, ghost pos0: seq<Vec3>, ghost nrm0: seq<Vec3>, ghost tri0: seq<int>)
    requires pos != nrm
    requires startIndex == RightStart(numXVerts, numYVerts) && triStartIndex == FirstSkirtSlot(numXVerts, numYVerts) + 6 * (2 * (numXVerts - 1))
    requires SkirtVerticesDone(pos[..], nrm[..], pos0, nrm0, numXVerts, numYVerts, 2 * numXVerts)
    requires SkirtSlotsDone(tri[..], tri0, numXVerts, numYVerts, 2 * (numXVerts - 1))
    modifies pos, nrm, tri
    ensures SkirtVerticesDone(pos[..], nrm[..], pos0, nrm0, numXVerts, numYVerts, 2 * numXVerts + (numYVerts - 2))
    ensures SkirtSlotsDone(tri[..], tri0, numXVerts, numYVerts, 2 * (numXVerts - 1) + 2 + (numYVerts - 3))
  {
    var startIndex, triStartIndex := startIndex, triStartIndex;
    SkirtRightVertices(pos, nrm, tri, numXVerts, numYVerts, startIndex, pos0, nrm0, tri0);
    StoreBottomRightCorner(pos, nrm, tri, numXVerts, numYVerts, triStartIndex, pos0, nrm0, tri0);
    triStartIndex := triStartIndex + 6;
    StoreTopRightCorner(pos, nrm, tri, numXVerts, numYVerts, triStartIndex, pos0, nrm0, tri0);
    startIndex := numXVerts * (numYVerts + 2);
    triStartIndex := triStartIndex + 6;
    SkirtMiddleRightQuads(pos, nrm, tri, numXVerts, numYVerts, startIndex, triStartIndex, pos0, nrm0, tri0);
  }

  /** The "left" edge (column numXVerts - 1): its inner vertices dropped, the
      two corner quads, and the quads in between. */
  method SkirtLeftEdge(pos: array<Vec3>, nrm: array<Vec3>, tri: array<int>, numXVerts: int, numYVerts: int,
                        startIndex: int, triStartIndex: int, ghost pos0: seq<Vec3>, ghost nrm0: seq<Vec3>, ghost tri0: seq<int>)
    requires pos != nrm
    requires startIndex == LeftStart(numXVerts, numYVerts) && triStartIndex == FirstSkirtSlot(numXVerts, numYVerts) + 6 * (2 * (numXVerts - 1) + 2 + (numYVerts - 3))
    requires SkirtVerticesDone(pos[..], nrm[..], pos0, nrm0, numXVerts, numYVerts, 2 * numXVerts + (numYVerts - 2))
    requires SkirtSlotsDone(tri[..], tri0, numXVerts, numYVerts, 2 * (numXVerts - 1) + 2 + (numYVerts - 3))
    modifies pos, nrm, tri
    ensures SkirtVerticesDone(pos[..], nrm[..], pos0, nrm0, numXVerts, numYVerts, VertexCount(numXVerts, numYVerts) - BottomStart(numXVerts, numYVerts))
    ensures SkirtSlotsDone(tri[..], tri0, numXVerts, numYVerts, SkirtQuadCount(numXVerts, numYVerts))
  {
    var triStartIndex := triStartIndex;
    SkirtLeftVertices(pos, nrm, tri, numXVerts, numYVerts, startIndex, pos0, nrm0, tri0);
    StoreBottomLeftCorner(pos, nrm, tri, numXVerts, numYVerts, startIndex, triStartIndex, pos0, nrm0, tri0);
    triStartIndex := triStartIndex + 6;
    StoreTopLeftCorner(pos, nrm, tri, numXVerts, numYVerts, triStartIndex, pos0, nrm0, tri0);
    triStartIndex := triStartIndex + 6;
    SkirtMiddleLeftQuads(pos, nrm, tri, numXVerts, numYVerts, startIndex, triStartIndex, pos0, nrm0, tri0);
    assert 2 * (numXVerts - 1) + 2 + (numYVerts - 3) + 2 + (numYVerts - 3) == SkirtQuadCount(numXVerts, numYVerts);
    assert 2 * numXVerts + (numYVerts - 2) + (numYVerts - 2) == VertexCount(numXVerts, numYVerts) - BottomStart(numXVerts, numYVerts);
  }

  /** The skirt of a tile of numXVerts by numYVerts vertices: the four edges
      dropped in turn, each followed by the quads that join it to its drop. */
  method SkirtGeometry(pos: array<Vec3>, nrm: array<Vec3>, tri: array<int>, numXVerts: int, numYVerts: int)
    requires pos != nrm && SkirtShape(numXVerts, numYVerts)
    requires pos.Length >= VertexCount(numXVerts, numYVerts) && nrm.Length >= VertexCount(numXVerts, numYVerts)
    requires tri.Length >= FirstSkirtSlot(numXVerts, numYVerts) + SkirtSlotCount(numXVerts, numYVerts)
    modifies pos, nrm, tri
    ensures SkirtVerticesDone(pos[..], nrm[..], old(pos[..]), old(nrm[..]), numXVerts, numYVerts,
                              VertexCount(numXVerts, numYVerts) - BottomStart(numXVerts, numYVerts))
    ensures SkirtSlotsDone(tri[..], old(tri[..]), numXVerts, numYVerts, SkirtQuadCount(numXVerts, numYVerts))
  {
    ghost var pos0, nrm0, tri0 := pos[..], nrm[..], tri[..];
    assert SkirtVerticesDone(pos0, nrm0, pos0, nrm0, numXVerts, numYVerts, 0);
    assert SkirtSlotsDone(tri0, tri0, numXVerts, numYVerts, 0);

    var startIndex := numXVerts * numYVerts;
    var triStartIndex := (numXVerts - 1) * (numYVerts - 1) * 6;
    SkirtBottomEdge(pos, nrm, tri, numXVerts, numYVerts, startIndex, triStartIndex, pos0, nrm0, tri0);
    triStartIndex := triStartIndex + ((numXVerts - 1) * 6);
    startIndex := numXVerts * (numYVerts + 1);
    SkirtTopEdge(pos, nrm, tri, numXVerts, numYVerts, startIndex, triStartIndex, pos0, nrm0, tri0);
    triStartIndex := triStartIndex + ((numXVerts - 1) * 6);
    startIndex := numXVerts * (numYVerts + 2);
    SkirtRightEdge(pos, nrm, tri, numXVerts, numYVerts, startIndex, triStartIndex, pos0, nrm0, tri0);
    triStartIndex := triStartIndex + 6 + 6 + ((numYVerts - 3) * 6);
    startIndex := startIndex + (numYVerts - 2);
    SkirtLeftEdge(pos, nrm, tri, numXVerts, numYVerts, startIndex, triStartIndex, pos0, nrm0, tri0);
  }

  /** Writes vertex k's slope into its red channel, its normal and its tangent. */
  method StoreVertexTasks(nrm: array<Vec3>, tan: array<Vec3>, col: array<Colour>, k: int,
                          normal: Vec3, tangent: Vec3, slopeChan: byte)
    requires nrm != tan && 0 <= k < nrm.Length && k < tan.Length && k < col.Length
    modifies nrm, tan, col
    ensures nrm[..] == old(nrm[..])[k := normal] && tan[..] == old(tan[..])[k := tangent]
    ensures col[..] == old(col[..])[k := old(col[k]).(r := slopeChan)]
  {
    col[k] := col[k].(r := slopeChan);
    nrm[k] := normal;
    tan[k] := tangent;
  }

  class TerrainGeneratorWorker {
    const config: TerrainConfig
    /** The job in hand; its `lod` is the worker's workLOD. */
    var workJob: Job
    /** The buffers borrowed for the job in hand. */
    var meshData: MeshData?

    /** A job is in hand whose configuration the stages can work with, and
        the borrowed buffers are distinct and large enough for it. */
    ghost predicate Valid()
      reads this, meshData
    {
      && meshData != null && meshData.Valid()
      && ValidFor(config, workJob.lod) && meshData.SizedFor(config, workJob.lod)
    }

    constructor (aTerrainConfig: TerrainConfig)
      ensures config == aTerrainConfig && meshData == null
    {
      config := aTerrainConfig;
      workJob := Job(Sector(0, 0), 0);
      meshData := null;
    }

    /** Clears every vertex colour, all four channels. */
    method PrepMaps()
      requires meshData != null
      modifies meshData.Colours
      ensures forall i :: 0 <= i < meshData.Colours.Length ==> meshData.Colours[i] == Transparent
    {
      var colours := meshData.Colours;
      var i := 0;
      while i < colours.Length
        invariant 0 <= i <= colours.Length
        invariant forall k :: 0 <= k < i ==> colours[k] == Transparent
      {
        colours[i] := colours[i].(r := 0, g := 0, b := 0, a := 0);
        i := i + 1;
      }
    }

    /** Samples the padded height grid; at LOD 0, when asked for, writes the
        splat texture; when there is a biome generator, writes each vertex's
        biome blend into its green channel. The three passes are the three
        methods below, run in this order. */
    method ProcessTerrainMap()
      requires Valid()
      modifies meshData.HeightMap, meshData.TextureData, meshData.Colours
      ensures HeightMapSampled(meshData.HeightMap, old(meshData.HeightMap[..]))
      ensures var s, tx, ty := NoiseSamplePoints(config, workJob.lod), config.tileXUnits, config.tileYUnits;
        if config.generateSplatMap && workJob.lod == 0 then
          && (forall x, y :: 0 <= x < tx && 0 <= y < ty ==>
                meshData.TextureData[Idx(x, y, tx, ty)]
                  == SplatTexel(meshData.HeightMap[Idx(x + 1, y + 1, s, s)], Idx(x, y, tx, ty)))
          && (forall k :: tx * ty <= k < meshData.TextureData.Length ==> meshData.TextureData[k] == old(meshData.TextureData[k]))
        else
          meshData.TextureData[..] == old(meshData.TextureData[..])
      ensures var r := RowLength(config, workJob.lod);
        match config.biomeBlendGenerator
        case Some(noise) =>
          && (forall x, y :: 0 <= x < r && 0 <= y < r ==>
                meshData.Colours[Idx(x, y, r, r)]
                  == old(meshData.Colours[Idx(x, y, r, r)]).(g := BiomeBlend(config, workJob, noise, x, y)))
          && (forall k :: r * r <= k < meshData.Colours.Length ==> meshData.Colours[k] == old(meshData.Colours[k]))
        case None =>
          meshData.Colours[..] == old(meshData.Colours[..])
    {
      SampleHeights();
      if config.generateSplatMap && workJob.lod == 0 {
        WriteSplatMap();
      }
      match config.biomeBlendGenerator
      case Some(noise) =>
        WriteBiomeBlend(noise);
      case None =>
    }

    /** The padded sample grid in `heights` holds the job's samples, and the
        rest of the buffer is as it was in `before`. */
    ghost predicate HeightMapSampled(heights: array<real>, before: seq<real>)
      requires Valid()
      reads this, meshData, heights
    {
      var s := NoiseSamplePoints(config, workJob.lod);
      && heights.Length == |before| >= s * s
      && (forall x, y :: 0 <= x < s && 0 <= y < s ==>
            heights[Idx(x, y, s, s)] == SampleHeight(config, workJob, x, y))
      && (forall k :: s * s <= k < heights.Length ==> heights[k] == before[k])
    }

    /** The height pass: every cell of the padded grid, row by row. */
    method SampleHeights()
      requires Valid()
      modifies meshData.HeightMap
      ensures HeightMapSampled(meshData.HeightMap, old(meshData.HeightMap[..]))
    {
      var md := meshData;
      var job := workJob;
      var lod := job.lod;
      SampleGridIsPaddedVertexGrid(config, lod);
      var exX := NoiseSamplePoints(config, lod);
      var exY := exX;
      var xyUnits := XUnits(config, lod);
      var exUnitSize := ExUnitSize(config, lod);
      ghost var h0 := md.HeightMap[..];
      var y := 0;
      while y < exY
        invariant 0 <= y <= exY
        invariant SamplesDone(md.HeightMap[..], h0, config, job, exX * y)
      {
        var x := 0;
        while x < exX
          invariant 0 <= x <= exX
          invariant SamplesDone(md.HeightMap[..], h0, config, job, x + (exX * y))
        {
          var worldX := (((job.sector.x * xyUnits) + x) * exUnitSize) - exUnitSize;
          var worldY := (((job.sector.y * xyUnits) + y) * exUnitSize) - exUnitSize;
          assert worldX == SampleWorldCoord(job.sector.x, xyUnits, x, exUnitSize);
          assert worldY == SampleWorldCoord(job.sector.y, xyUnits, y, exUnitSize);
          ghost var h := md.HeightMap[..];
          SampleStep(h, h0, config, job, x, y, x + (exX * y));
          md.HeightMap[x + (exX * y)] := config.worldHeight(worldX, worldY);
          assert md.HeightMap[..] == h[x + (exX * y) := SampleHeight(config, job, x, y)];
          x := x + 1;
        }
        NextRow(y, exX);
        y := y + 1;
      }
      AllSamplesDone(md.HeightMap[..], h0, config, job);
    }

    /** The splat pass, at LOD 0: one texel per unit of the tile, numbered
        row by row, from the sample under the unit's first vertex. */
    method WriteSplatMap()
      requires Valid() && config.generateSplatMap && workJob.lod == 0
      modifies meshData.TextureData
      ensures var s, tx, ty := NoiseSamplePoints(config, workJob.lod), config.tileXUnits, config.tileYUnits;
        && (forall x, y :: 0 <= x < tx && 0 <= y < ty ==>
              meshData.TextureData[Idx(x, y, tx, ty)]
                == SplatTexel(meshData.HeightMap[Idx(x + 1, y + 1, s, s)], Idx(x, y, tx, ty)))
        && (forall k :: tx * ty <= k < meshData.TextureData.Length ==> meshData.TextureData[k] == old(meshData.TextureData[k]))
    {
      var md := meshData;
      SampleGridIsPaddedVertexGrid(config, 0);
      var exX := NoiseSamplePoints(config, 0);
      var tx, ty := config.tileXUnits, config.tileYUnits;
      ghost var tex0, h := md.TextureData[..], md.HeightMap[..];
      var i := 0;
      var y := 0;
      while y < ty
        invariant 0 <= y <= ty && i == tx * y
        invariant TexelsDone(md.TextureData[..], tex0, h, tx, ty, exX, i)
      {
        var x := 0;
        while x < tx
          invariant 0 <= x <= tx && i == tx * y + x
          invariant TexelsDone(md.TextureData[..], tex0, h, tx, ty, exX, i)
        {
          TexelStep(md.TextureData[..], tex0, h, tx, ty, exX, x, y);
          var noiseValue := md.HeightMap[Idx(x + 1, y + 1, exX, exX)];
          md.TextureData[i] := SplatTexel(noiseValue, i);
          i := i + 1;
          x := x + 1;
        }
        assert tx * (y + 1) == tx * y + tx;
        y := y + 1;
      }
      AllTexelsDone(md.TextureData[..], tex0, h, tx, ty, exX);
    }

    /** The biome pass: the green channel of every tile vertex, nothing else. */
    method WriteBiomeBlend(noise: (int, int) -> real)
      requires Valid()
      modifies meshData.Colours
      ensures var r := RowLength(config, workJob.lod);
        && (forall x, y :: 0 <= x < r && 0 <= y < r ==>
              meshData.Colours[Idx(x, y, r, r)]
                == old(meshData.Colours[Idx(x, y, r, r)]).(g := BiomeBlend(config, workJob, noise, x, y)))
        && (forall k :: r * r <= k < meshData.Colours.Length ==> meshData.Colours[k] == old(meshData.Colours[k]))
    {
      var md := meshData;
      var job := workJob;
      var lod := job.lod;
      SampleGridIsPaddedVertexGrid(config, lod);
      var exX := NoiseSamplePoints(config, lod) - 2;
      var exY := exX;
      var exUnitSize := ExUnitSize(config, lod);
      IdxInjective(exX, exX);
      var y := 0;
      while y < exY
        invariant 0 <= y <= exY
        invariant forall a, b :: 0 <= a < exX && 0 <= b < exX ==>
                    md.Colours[Idx(a, b, exX, exX)]
                      == if b < y then old(md.Colours[Idx(a, b, exX, exX)]).(g := BiomeBlend(config, job, noise, a, b))
                         else old(md.Colours[Idx(a, b, exX, exX)])
        invariant forall k :: exX * exX <= k < md.Colours.Length ==> md.Colours[k] == old(md.Colours[k])
      {
        var x := 0;
        while x < exX
          invariant 0 <= x <= exX
          invariant forall a, b :: 0 <= a < exX && 0 <= b < exX ==>
                      md.Colours[Idx(a, b, exX, exX)]
                        == if b < y || (b == y && a < x) then old(md.Colours[Idx(a, b, exX, exX)]).(g := BiomeBlend(config, job, noise, a, b))
                           else old(md.Colours[Idx(a, b, exX, exX)])
          invariant forall k :: exX * exX <= k < md.Colours.Length ==> md.Colours[k] == old(md.Colours[k])
        {
          var worldX := ((job.sector.x * (exX - 1)) + x) * exUnitSize;
          var worldY := ((job.sector.y * (exX - 1)) + y) * exUnitSize;
          var val := noise(worldX, worldY);
          md.Colours[Idx(x, y, exX, exX)] := md.Colours[Idx(x, y, exX, exX)].(g := BiomeChannel(val));
          x := x + 1;
        }
        y := y + 1;
      }
    }
  
    /** One statement of UpdateOneBlockGeometry: vertex `index`, which is
        (x, y), gets (px, py, HeightMap[k] * ampl) - offset. */
    method PositionCorner(index: int, px: int, py: int, k: int, ampl: real, offset: Vec3, ghost x: int, ghost y: int)
      requires Valid()
      requires 0 <= x < RowLength(config, workJob.lod) && 0 <= y < RowLength(config, workJob.lod)
      requires index == Idx(x, y, RowLength(config, workJob.lod), RowLength(config, workJob.lod))
      requires px == x * ExUnitSize(config, workJob.lod) && py == y * ExUnitSize(config, workJob.lod)
      requires k == Idx(x + 1, y + 1, NoiseSamplePoints(config, workJob.lod), NoiseSamplePoints(config, workJob.lod))
      requires ampl == config.amplitude && offset == Vec3(0.0, 0.0, 0.0)
      modifies meshData.Positions
      ensures meshData.Positions[..]
           == old(meshData.Positions[..])[index := InteriorPosition(config, workJob.lod, meshData.HeightMap[..], x, y)]
    {
      var md := meshData;
      ghost var h := md.HeightMap[..];
      SampleGridIsPaddedVertexGrid(config, workJob.lod);
      CornerPosition(config, workJob.lod, h, x, y, px, py, k, md.HeightMap[k], ampl, offset);
      ghost var before := md.Positions[..];
      var v := Sub(Vec3(px as real, py as real, md.HeightMap[k] * ampl), offset);
      assert v == InteriorPosition(config, workJob.lod, h, x, y);
      md.Positions[index] := v;
      assert md.Positions[..] == before[index := v];
      assert md.HeightMap[..] == h;
    }

    /** Positions the four corners of block (aX, aY) from the samples under
        them. The block's origin is (0, 0) and the offset subtracted is zero,
        so a corner's position depends on the corner alone, whichever block
        writes it. */
    method UpdateOneBlockGeometry(aX: int, aY: int)
      requires Valid()
      requires 0 <= aX < XUnits(config, workJob.lod) && 0 <= aY < YUnits(config, workJob.lod)
      modifies meshData.Positions
      ensures BlockPlaced(meshData.Positions[..], old(meshData.Positions[..]), config, workJob.lod, meshData.HeightMap[..], aX, aY)
    {
      var md := meshData;
      var lod := workJob.lod;
      var thisX, thisY := aX, aY;
      var heightMapX, heightMapY := thisX + 1, thisY + 1;
      var rowLength := RowLength(config, lod);
      var heightMapRowLength := rowLength + 2;
      var exUnitSize := ExUnitSize(config, lod);
      var blockX, blockY := 0, 0;
      var ampl := config.amplitude;
      var heightMapToWorldOffset := Vec3(0.0, 0.0, 0.0);
      BlockCornerIndices(config, lod, thisX, thisY, rowLength);
      SampleIndex(config, lod, heightMapX, heightMapY, heightMapRowLength);
      SampleIndex(config, lod, heightMapX, heightMapY + 1, heightMapRowLength);
      SampleIndex(config, lod, heightMapX + 1, heightMapY, heightMapRowLength);
      SampleIndex(config, lod, heightMapX + 1, heightMapY + 1, heightMapRowLength);
      ghost var h := md.HeightMap[..];

      // TL
      PositionCorner(thisX + (thisY * rowLength), (blockX + thisX) * exUnitSize, (blockY + thisY) * exUnitSize,
                     heightMapX + (heightMapY * heightMapRowLength), ampl, heightMapToWorldOffset, aX, aY);
      // TR
      PositionCorner(thisX + ((thisY + 1) * rowLength), (blockX + thisX) * exUnitSize, (blockY + thisY + 1) * exUnitSize,
                     heightMapX + ((heightMapY + 1) * heightMapRowLength), ampl, heightMapToWorldOffset, aX, aY + 1);
      // BL
      PositionCorner((thisX + 1) + (thisY * rowLength), (blockX + thisX + 1) * exUnitSize, (blockY + thisY) * exUnitSize,
                     (heightMapX + 1) + (heightMapY * heightMapRowLength), ampl, heightMapToWorldOffset, aX + 1, aY);
      // BR
      PositionCorner((thisX + 1) + ((thisY + 1) * rowLength), (blockX + thisX + 1) * exUnitSize, (blockY + thisY + 1) * exUnitSize,
                     (heightMapX + 1) + ((heightMapY + 1) * heightMapRowLength), ampl, heightMapToWorldOffset, aX + 1, aY + 1);

      PlaceBlock(old(md.Positions[..]), config, lod, h, aX, aY);
    }

    /** Runs every block, row by row; as every vertex gets the same position
        from each block that shares it, the order does not matter. */
    method ProcessPerBlockGeometry()
      requires Valid()
      modifies meshData.Positions
      ensures var r := RowLength(config, workJob.lod);
        && (forall x, y :: 0 <= x < r && 0 <= y < r ==>
              meshData.Positions[Idx(x, y, r, r)] == InteriorPosition(config, workJob.lod, meshData.HeightMap[..], x, y))
        && (forall k :: r * r <= k < meshData.Positions.Length ==> meshData.Positions[k] == old(meshData.Positions[k]))
    {
      var md := meshData;
      var job := workJob;
      var lod := job.lod;
      SampleGridIsPaddedVertexGrid(config, lod);
      var r := RowLength(config, lod);
      var xUnits := XUnits(config, lod);
      var yUnits := YUnits(config, lod);
      ghost var h := md.HeightMap[..];
      var y := 0;
      while y < yUnits
        invariant 0 <= y <= yUnits
        invariant BlocksPlaced(md.Positions[..], old(md.Positions[..]), config, lod, h, 0, y)
      {
        var x := 0;
        while x < xUnits
          invariant 0 <= x <= xUnits
          invariant BlocksPlaced(md.Positions[..], old(md.Positions[..]), config, lod, h, x, y)
        {
          ghost var before := md.Positions[..];
          UpdateOneBlockGeometry(x, y);
          BlockStep(before, md.Positions[..], old(md.Positions[..]), config, lod, h, x, y);
          x := x + 1;
        }
        RowStep(md.Positions[..], old(md.Positions[..]), config, lod, h, y);
        y := y + 1;
      }
      AllBlocksPlaced(md.Positions[..], old(md.Positions[..]), config, lod, h);
    }

    /** The normal of vertex (vertexX, vertexY): the cross-product sum over
        the four samples around it, normalised by `safeNormal`
        (FVector::GetSafeNormal). It is the central-difference gradient of
        the sample grid there. */
    method GetNormalFromHeightMapForVertex(vertexX: int, vertexY: int, safeNormal: Vec3 -> Vec3) returns (aOutNormal: Vec3)
      requires Valid()
      requires 0 <= vertexX < RowLength(config, workJob.lod) && 0 <= vertexY < RowLength(config, workJob.lod)
      ensures aOutNormal == safeNormal(VertexNormalSum(config, workJob, meshData.HeightMap[..], vertexX, vertexY))
      ensures var s, h := NoiseSamplePoints(config, workJob.lod), meshData.HeightMap[..];
        aOutNormal == safeNormal(GradientNormal(ExUnitSize(config, workJob.lod) as real, config.amplitude,
                                                h[Idx(vertexX, vertexY + 1, s, s)], h[Idx(vertexX + 2, vertexY + 1, s, s)],
                                                h[Idx(vertexX + 1, vertexY, s, s)], h[Idx(vertexX + 1, vertexY + 2, s, s)]))
    {
      var md := meshData;
      var lod := workJob.lod;
      SampleGridIsPaddedVertexGrid(config, lod);
      NeighbourReadsInRange(config, lod, vertexX, vertexY);
      var rowLength := RowLength(config, lod);
      var heightMapRowLength := rowLength + 2;
      var heightMapIndex := vertexX + 1 + ((vertexY + 1) * heightMapRowLength);
      var worldTileX := workJob.sector.x * config.tileXUnits;
      var worldTileY := workJob.sector.y * config.tileYUnits;
      var unitSize := ExUnitSize(config, lod) as real;
      var ampl := config.amplitude;
      var result := NeighbourNormalSum((worldTileX + vertexX) as real, (worldTileY + vertexY) as real, unitSize, ampl,
                                       md.HeightMap[heightMapIndex],
                                       md.HeightMap[heightMapIndex + heightMapRowLength],
                                       md.HeightMap[heightMapIndex - heightMapRowLength],
                                       md.HeightMap[heightMapIndex + 1],
                                       md.HeightMap[heightMapIndex - 1]);
      aOutNormal := safeNormal(result);
      VertexNormalClosedForm(config, workJob, md.HeightMap[..], vertexX, vertexY);
    }

    /** For every tile vertex: the normal from the neighbouring samples,
        normalised by `safeNormal` (FVector::GetSafeNormal), the constant
        tangent (0, 1, 0), and the slope of that normal in the red channel;
        the other channels keep their values. */
    method ProcessPerVertexTasks(safeNormal: Vec3 -> Vec3)
      requires Valid()
      modifies meshData.Normals, meshData.Tangents, meshData.Colours
      ensures var r := RowLength(config, workJob.lod);
        && (forall x, y :: 0 <= x < r && 0 <= y < r ==>
              && meshData.Normals[Idx(x, y, r, r)] == safeNormal(VertexNormalSum(config, workJob, meshData.HeightMap[..], x, y))
              && meshData.Tangents[Idx(x, y, r, r)] == Vec3(0.0, 1.0, 0.0)
              && meshData.Colours[Idx(x, y, r, r)]
                   == old(meshData.Colours[Idx(x, y, r, r)]).(r := SlopeChannel(meshData.Normals[Idx(x, y, r, r)].z)))
        && meshData.Normals[r * r..] == old(meshData.Normals[r * r..])
        && meshData.Tangents[r * r..] == old(meshData.Tangents[r * r..])
        && meshData.Colours[r * r..] == old(meshData.Colours[r * r..])
    {
      var md := meshData;
      var cfg, job := config, workJob;
      var lod := job.lod;
      SampleGridIsPaddedVertexGrid(config, lod);
      var xUnits := XUnits(config, lod);
      var yUnits := YUnits(config, lod);
      var rowLength := RowLength(config, lod);
      ghost var nrm0, tan0, col0, h := md.Normals[..], md.Tangents[..], md.Colours[..], md.HeightMap[..];
      var y := 0;
      while y < yUnits + 1
        invariant 0 <= y <= yUnits + 1
        invariant VertexTasksDone(md.Normals[..], md.Tangents[..], md.Colours[..], nrm0, tan0, col0,
                                  cfg, job, h, safeNormal, y * rowLength)
      {
        var x := 0;
        while x < xUnits + 1
          invariant 0 <= x <= xUnits + 1
          invariant VertexTasksDone(md.Normals[..], md.Tangents[..], md.Colours[..], nrm0, tan0, col0,
                                    cfg, job, h, safeNormal, x + y * rowLength)
        {
          var tangent := Vec3(0.0, 1.0, 0.0);
          var normal := GetNormalFromHeightMapForVertex(x, y, safeNormal);
          var slopeChan := SlopeChannel(Dot(normal, Vec3(0.0, 0.0, 1.0)));
          var k := x + (y * rowLength);
          ghost var nrm, tan, col := md.Normals[..], md.Tangents[..], md.Colours[..];
          VertexTaskInRange(nrm, tan, col, nrm0, tan0, col0, cfg, job, h, safeNormal, x, y, k);
          StoreVertexTasks(md.Normals, md.Tangents, md.Colours, k, normal, tangent, slopeChan);
          VertexTaskStep(nrm, tan, col, md.Normals[..], md.Tangents[..], md.Colours[..], nrm0, tan0, col0,
                         cfg, job, h, safeNormal, x, y, k);
          x := x + 1;
        }
        NextRow(y, rowLength);
        y := y + 1;
      }
      AllVertexTasksDone(md.Normals[..], md.Tangents[..], md.Colours[..], nrm0, tan0, col0,
                         cfg, job, h, safeNormal);
    }

    /** Hangs a skirt from the tile's four edges: a copy of every edge vertex
        dropped to SkirtDepth with its normal, and the quads stitching each
        edge to its copy, in the slots after the interior triangles. The
        running offsets `startIndex` and `triStartIndex` advance section by
        section. */
    method ProcessSkirtGeometry()
      requires Valid()
      modifies meshData.Positions, meshData.Normals, meshData.Triangles
      ensures var n := RowLength(config, workJob.lod);
        && SkirtVerticesDone(meshData.Positions[..], meshData.Normals[..], old(meshData.Positions[..]),
                             old(meshData.Normals[..]), n, n, VertexCount(n, n) - BottomStart(n, n))
        && SkirtSlotsDone(meshData.Triangles[..], old(meshData.Triangles[..]), n, n, SkirtQuadCount(n, n))
    {
      var md := meshData;
      var lod := workJob.lod;
      SampleGridIsPaddedVertexGrid(config, lod);
      var numXVerts := RowLength(config, lod);
      var numYVerts := NumYVerts(config, lod);
      SkirtGeometry(md.Positions, md.Normals, md.Triangles, numXVerts, numYVerts);
    }
  }
}
