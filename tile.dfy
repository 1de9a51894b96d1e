/** What one job puts into each buffer, cell by cell, as functions of the
    configuration, the job and the buffers the earlier stages filled. The
    worker's stage methods are proved against these. */
module Tile {
  import opened Config
  import opened Grid
  import opened Vectors
  import opened Channels
  import opened Normals
  import opened Skirt

  /** Height sample (x, y) of the job's tile: the height source at the
      sample's world coordinates. */
  function SampleHeight(cfg: TerrainConfig, job: Job, x: int, y: int): real
    requires ValidLOD(cfg, job.lod)
  {
    var units, step := XUnits(cfg, job.lod), ExUnitSize(cfg, job.lod);
    cfg.worldHeight(SampleWorldCoord(job.sector.x, units, x, step),
                    SampleWorldCoord(job.sector.y, units, y, step))
  }

  /** `h` holds the job's whole padded sample grid, row-major. */
  predicate HeightsSampled(h: seq<real>, cfg: TerrainConfig, job: Job)
    requires ValidFor(cfg, job.lod)
  {
    var s := NoiseSamplePoints(cfg, job.lod);
    && |h| >= s * s
    && forall x, y :: 0 <= x < s && 0 <= y < s ==> h[Idx(x, y, s, s)] == SampleHeight(cfg, job, x, y)
  }

  /** Samples 0 .. i-1 of the padded grid, row by row, are taken; every later
      cell of the buffer is as in `h0`. */
  predicate SamplesDone(h: seq<real>, h0: seq<real>, cfg: TerrainConfig, job: Job, i: int)
  {
    && ValidFor(cfg, job.lod)
    && var s := NoiseSamplePoints(cfg, job.lod);
    && 0 <= i <= s * s && |h| == |h0| >= s * s
    && (forall x, y :: 0 <= x < s && 0 <= y < s ==>
          h[Idx(x, y, s, s)] == if Idx(x, y, s, s) < i then SampleHeight(cfg, job, x, y) else h0[Idx(x, y, s, s)])
    && (forall k :: s * s <= k < |h| ==> h[k] == h0[k])
  }

  /** Taking sample (x, y), the next in row order, keeps SamplesDone. */
  lemma SampleStep(h: seq<real>, h0: seq<real>, cfg: TerrainConfig, job: Job, x: int, y: int, k: int)
    requires ValidFor(cfg, job.lod)
    requires 0 <= x < NoiseSamplePoints(cfg, job.lod) && 0 <= y < NoiseSamplePoints(cfg, job.lod)
    requires k == x + NoiseSamplePoints(cfg, job.lod) * y
    requires SamplesDone(h, h0, cfg, job, k)
    ensures 0 <= k < |h| && SamplesDone(h[k := SampleHeight(cfg, job, x, y)], h0, cfg, job, k + 1)
  {
    var s := NoiseSamplePoints(cfg, job.lod);
    assert k == Idx(x, y, s, s);
    IdxInjective(s, s);
  }

  /** With every cell taken, `h` holds the job's sample grid. */
  lemma AllSamplesDone(h: seq<real>, h0: seq<real>, cfg: TerrainConfig, job: Job)
    requires ValidFor(cfg, job.lod)
    requires SamplesDone(h, h0, cfg, job, NoiseSamplePoints(cfg, job.lod) * NoiseSamplePoints(cfg, job.lod))
    ensures HeightsSampled(h, cfg, job)
    ensures var s := NoiseSamplePoints(cfg, job.lod);
      forall k :: s * s <= k < |h| ==> h[k] == h0[k]
  {
  }

  /** Neighbouring sectors sample the same heights where their padded grids
      overlap: the last three sample columns of one are the first three of
      the next, so a vertex on the seam and both its neighbours across it
      are read from the same world points. */
  lemma {:induction false} SeamHeightsShared(cfg: TerrainConfig, lod: nat, sx: int, sy: int, a: int, b: int)
    requires ValidFor(cfg, lod)
    ensures SampleHeight(cfg, Job(Sector(sx, sy), lod), a + XUnits(cfg, lod), b)
         == SampleHeight(cfg, Job(Sector(sx + 1, sy), lod), a, b)
    ensures SampleHeight(cfg, Job(Sector(sx, sy), lod), a, b + XUnits(cfg, lod))
         == SampleHeight(cfg, Job(Sector(sx, sy + 1), lod), a, b)
  {
    SeamSharing(sx, XUnits(cfg, lod), a, ExUnitSize(cfg, lod));
    SeamSharing(sy, XUnits(cfg, lod), b, ExUnitSize(cfg, lod));
  }

  /** The splat texel for the sample `h` of texel `i`: red grows with heights
      in [0, 1], green with heights in [-1, 0], blue is the texel's own index
      cut to eight bits, alpha is zero. */
  function SplatTexel(h: real, i: int): (t: Colour)
  {
    Colour(MappedRangeByte(h, 0.0), MappedRangeByte(h, -1.0), NarrowToByte(i), 0)
  }

  /** Below sea level a texel has no red, above it full green; red and green
      never decrease as the height rises. */
  lemma SplatTexelSplitsAtZero(h: real, h': real, i: int)
    ensures h <= 0.0 ==> SplatTexel(h, i).r == 0
    ensures h >= 0.0 ==> SplatTexel(h, i).g == 255
    ensures h <= h' ==> SplatTexel(h, i).r <= SplatTexel(h', i).r && SplatTexel(h, i).g <= SplatTexel(h', i).g
    ensures SplatTexel(h, i).b == i % 256 && SplatTexel(h, i).a == 0
  {
    if h <= h' {
      MappedRangeByteMonotone(h, h', 0.0);
      MappedRangeByteMonotone(h, h', -1.0);
    }
  }

  /** Texels 0 .. i-1, numbered row by row over a tx by ty map, hold the splat
      texel of the sample under their unit's first vertex (on a sample grid of
      rows of `s`); every later texel is as in `tex0`. */
  predicate TexelsDone(tex: seq<Colour>, tex0: seq<Colour>, h: seq<real>, tx: int, ty: int, s: int, i: int)
  {
    && 0 <= i <= tx * ty && |tex| == |tex0| >= tx * ty && tx + 1 < s && ty + 1 < s && |h| >= s * s
    && (forall a, b :: 0 <= a < tx && 0 <= b < ty && Idx(a, b, tx, ty) < i ==>
          tex[Idx(a, b, tx, ty)] == SplatTexel(h[Idx(a + 1, b + 1, s, s)], Idx(a, b, tx, ty)))
    && (forall k :: i <= k < |tex| ==> tex[k] == tex0[k])
  }

  /** Writing texel i = Idx(x, y) next keeps TexelsDone. */
  lemma TexelStep(tex: seq<Colour>, tex0: seq<Colour>, h: seq<real>, tx: int, ty: int, s: int, x: int, y: int)
    requires 0 <= x < tx && 0 <= y < ty
    requires TexelsDone(tex, tex0, h, tx, ty, s, Idx(x, y, tx, ty))
    ensures x + 1 < s && y + 1 < s && Idx(x + 1, y + 1, s, s) < |h| && Idx(x, y, tx, ty) < |tex|
    ensures TexelsDone(tex[Idx(x, y, tx, ty) := SplatTexel(h[Idx(x + 1, y + 1, s, s)], Idx(x, y, tx, ty))],
                       tex0, h, tx, ty, s, Idx(x, y, tx, ty) + 1)
  {
    IdxInjective(tx, ty);
  }

  /** Once all tx * ty texels are written, texel (x, y) holds its splat
      texel and the texels past the map are untouched. */
  lemma AllTexelsDone(tex: seq<Colour>, tex0: seq<Colour>, h: seq<real>, tx: int, ty: int, s: int)
    requires TexelsDone(tex, tex0, h, tx, ty, s, tx * ty)
    ensures tx + 1 < s && ty + 1 < s && |h| >= s * s
    ensures forall x, y :: 0 <= x < tx && 0 <= y < ty ==>
      tex[Idx(x, y, tx, ty)] == SplatTexel(h[Idx(x + 1, y + 1, s, s)], Idx(x, y, tx, ty))
    ensures forall k :: tx * ty <= k < |tex| ==> tex[k] == tex0[k]
  {
  }

  /** Biome blend byte of vertex (x, y), from the biome noise at the vertex's
      world coordinates. */
  function BiomeBlend(cfg: TerrainConfig, job: Job, noise: (int, int) -> real, x: int, y: int): byte
    requires ValidLOD(cfg, job.lod)
  {
    var units, step := XUnits(cfg, job.lod), ExUnitSize(cfg, job.lod);
    BiomeChannel(noise(BiomeWorldCoord(job.sector.x, units, x, step),
                       BiomeWorldCoord(job.sector.y, units, y, step)))
  }

  /** The biome noise is read where the vertex stands: the world point of
      the height sample under it. */
  lemma {:induction false} BiomeAtVertex(cfg: TerrainConfig, job: Job, noise: (int, int) -> real, x: int, y: int)
    requires ValidFor(cfg, job.lod)
    ensures var units, step := XUnits(cfg, job.lod), ExUnitSize(cfg, job.lod);
      BiomeBlend(cfg, job, noise, x, y)
        == BiomeChannel(noise(SampleWorldCoord(job.sector.x, units, x + 1, step),
                              SampleWorldCoord(job.sector.y, units, y + 1, step)))
  {
    var units, step := XUnits(cfg, job.lod), ExUnitSize(cfg, job.lod);
    VertexSamplesAligned(job.sector.x, units, x, step);
    VertexSamplesAligned(job.sector.y, units, y, step);
  }

  /** The tile-local position of vertex (x, y): `x` and `y` steps of the LOD's
      unit size, at the height of the sample under it times the amplitude. */
  function InteriorPosition(cfg: TerrainConfig, lod: nat, h: seq<real>, x: int, y: int): Vec3
    requires ValidFor(cfg, lod)
    requires |h| >= NoiseSamplePoints(cfg, lod) * NoiseSamplePoints(cfg, lod)
    requires 0 <= x < RowLength(cfg, lod) && 0 <= y < RowLength(cfg, lod)
  {
    var s, step := NoiseSamplePoints(cfg, lod), ExUnitSize(cfg, lod);
    Vec3((x * step) as real, (y * step) as real, h[Idx(x + 1, y + 1, s, s)] * cfg.amplitude)
  }

  /** The vertex grid is regular: neighbouring vertices are one LOD unit
      apart, and the last row and column sit at the tile's extent. */
  lemma {:induction false} InteriorGridRegular(cfg: TerrainConfig, lod: nat, h: seq<real>, x: int, y: int)
    requires ValidFor(cfg, lod)
    requires |h| >= NoiseSamplePoints(cfg, lod) * NoiseSamplePoints(cfg, lod)
    requires 0 <= x < XUnits(cfg, lod) && 0 <= y < XUnits(cfg, lod)
    ensures InteriorPosition(cfg, lod, h, x + 1, y).x - InteriorPosition(cfg, lod, h, x, y).x == ExUnitSize(cfg, lod) as real
    ensures InteriorPosition(cfg, lod, h, x, y + 1).y - InteriorPosition(cfg, lod, h, x, y).y == ExUnitSize(cfg, lod) as real
    ensures InteriorPosition(cfg, lod, h, XUnits(cfg, lod), y).x == (XUnits(cfg, lod) * ExUnitSize(cfg, lod)) as real
  {
    var step := ExUnitSize(cfg, lod);
    assert (x + 1) * step == x * step + step;
    assert (y + 1) * step == y * step + step;
  }

  /** `after` is `before` with the four corners of block (blockX, blockY) set to
      their interior positions, and nothing else changed. */
  ghost predicate BlockPlaced(after: seq<Vec3>, before: seq<Vec3>, cfg: TerrainConfig, lod: nat, h: seq<real>, blockX: int, blockY: int)
    requires ValidFor(cfg, lod)
    requires |h| >= NoiseSamplePoints(cfg, lod) * NoiseSamplePoints(cfg, lod)
    requires |after| == |before| >= RowLength(cfg, lod) * RowLength(cfg, lod)
  {
    var r := RowLength(cfg, lod);
    && (forall x, y :: 0 <= x < r && 0 <= y < r ==>
          after[Idx(x, y, r, r)]
            == if blockX <= x <= blockX + 1 && blockY <= y <= blockY + 1 then InteriorPosition(cfg, lod, h, x, y)
               else before[Idx(x, y, r, r)])
    && (forall k :: r * r <= k < |after| ==> after[k] == before[k])
  }

  /** Writing the four corners of a block, in any order, places that block. */
  lemma PlaceBlock(before: seq<Vec3>, cfg: TerrainConfig, lod: nat, h: seq<real>, blockX: int, blockY: int)
    requires ValidFor(cfg, lod)
    requires |h| >= NoiseSamplePoints(cfg, lod) * NoiseSamplePoints(cfg, lod)
    requires |before| >= RowLength(cfg, lod) * RowLength(cfg, lod)
    requires 0 <= blockX < XUnits(cfg, lod) && 0 <= blockY < YUnits(cfg, lod)
    ensures var r := RowLength(cfg, lod);
      BlockPlaced(before[Idx(blockX, blockY, r, r) := InteriorPosition(cfg, lod, h, blockX, blockY)]
                        [Idx(blockX, blockY + 1, r, r) := InteriorPosition(cfg, lod, h, blockX, blockY + 1)]
                        [Idx(blockX + 1, blockY, r, r) := InteriorPosition(cfg, lod, h, blockX + 1, blockY)]
                        [Idx(blockX + 1, blockY + 1, r, r) := InteriorPosition(cfg, lod, h, blockX + 1, blockY + 1)],
                  before, cfg, lod, h, blockX, blockY)
  {
    var r := RowLength(cfg, lod);
    IdxInjective(r, r);
  }

  /** Vertex (vx, vy) has been positioned once blocks 0 .. y-1 of every row
      and blocks 0 .. x-1 of row y have run. */
  predicate BlocksCover(vx: int, vy: int, x: int, y: int)
  {
    (y >= 1 && vy <= y) || (x >= 1 && y <= vy <= y + 1 && vx <= x)
  }

  /** The blocks before (x, y) in row-major order are placed: the vertices
      they cover hold their interior positions, every other vertex is as in
      `pos0`. */
  ghost predicate BlocksPlaced(pos: seq<Vec3>, pos0: seq<Vec3>, cfg: TerrainConfig, lod: nat, h: seq<real>, x: int, y: int)
  {
    && ValidFor(cfg, lod)
    && var r := RowLength(cfg, lod);
    && |h| >= NoiseSamplePoints(cfg, lod) * NoiseSamplePoints(cfg, lod)
    && |pos| == |pos0| >= r * r
    && (forall vx, vy :: 0 <= vx < r && 0 <= vy < r ==>
          pos[Idx(vx, vy, r, r)]
            == if BlocksCover(vx, vy, x, y) then InteriorPosition(cfg, lod, h, vx, vy) else pos0[Idx(vx, vy, r, r)])
    && (forall k :: r * r <= k < |pos| ==> pos[k] == pos0[k])
  }

  /** Placing block (x, y) moves the frontier one block along the row. */
  lemma BlockStep(pos: seq<Vec3>, pos1: seq<Vec3>, pos0: seq<Vec3>, cfg: TerrainConfig, lod: nat, h: seq<real>, x: int, y: int)
    requires BlocksPlaced(pos, pos0, cfg, lod, h, x, y)
    requires 0 <= x < XUnits(cfg, lod) && 0 <= y < YUnits(cfg, lod)
    requires |pos1| == |pos|
    requires BlockPlaced(pos1, pos, cfg, lod, h, x, y)
    ensures BlocksPlaced(pos1, pos0, cfg, lod, h, x + 1, y)
  {
  }

  /** Finishing a row is starting the next one. */
  lemma RowStep(pos: seq<Vec3>, pos0: seq<Vec3>, cfg: TerrainConfig, lod: nat, h: seq<real>, y: int)
    requires ValidFor(cfg, lod)
    requires BlocksPlaced(pos, pos0, cfg, lod, h, XUnits(cfg, lod), y)
    requires 0 <= y < YUnits(cfg, lod)
    ensures BlocksPlaced(pos, pos0, cfg, lod, h, 0, y + 1)
  {
    SampleGridIsPaddedVertexGrid(cfg, lod);
  }

  /** Once every row has run, every vertex of the tile holds its interior
      position, whichever block wrote it last. */
  lemma AllBlocksPlaced(pos: seq<Vec3>, pos0: seq<Vec3>, cfg: TerrainConfig, lod: nat, h: seq<real>)
    requires ValidFor(cfg, lod)
    requires BlocksPlaced(pos, pos0, cfg, lod, h, 0, YUnits(cfg, lod))
    ensures var r := RowLength(cfg, lod);
      && (forall x, y :: 0 <= x < r && 0 <= y < r ==> pos[Idx(x, y, r, r)] == InteriorPosition(cfg, lod, h, x, y))
      && (forall k :: r * r <= k < |pos| ==> pos[k] == pos0[k])
  {
    SampleGridIsPaddedVertexGrid(cfg, lod);
  }

  /** The position the worker computes for corner (x, y): its coordinates
      scaled by the LOD unit, the sample under it scaled by the amplitude,
      less a zero offset, is the corner's interior position. */
  lemma CornerPosition(cfg: TerrainConfig, lod: nat, h: seq<real>, x: int, y: int,
                       px: int, py: int, k: int, sample: real, ampl: real, offset: Vec3)
    requires ValidFor(cfg, lod)
    requires |h| >= NoiseSamplePoints(cfg, lod) * NoiseSamplePoints(cfg, lod)
    requires 0 <= x < RowLength(cfg, lod) && 0 <= y < RowLength(cfg, lod)
    requires px == x * ExUnitSize(cfg, lod) && py == y * ExUnitSize(cfg, lod)
    requires k == Idx(x + 1, y + 1, NoiseSamplePoints(cfg, lod), NoiseSamplePoints(cfg, lod))
    requires sample == h[k] && ampl == cfg.amplitude && offset == Vec3(0.0, 0.0, 0.0)
    ensures Sub(Vec3(px as real, py as real, sample * ampl), offset) == InteriorPosition(cfg, lod, h, x, y)
  {
    assert Sub(Vec3(px as real, py as real, sample * ampl), offset) == Vec3(px as real, py as real, sample * ampl);
  }

  /** The sample (hx, hy) under a vertex, indexed on a row of RowLength + 2,
      is the sample grid's Idx. */
  lemma SampleIndex(cfg: TerrainConfig, lod: nat, hx: int, hy: int, hRow: int)
    requires ValidFor(cfg, lod)
    requires 1 <= hx <= RowLength(cfg, lod) && 1 <= hy <= RowLength(cfg, lod)
    requires hRow == RowLength(cfg, lod) + 2
    ensures hx + hy * hRow == Idx(hx, hy, NoiseSamplePoints(cfg, lod), NoiseSamplePoints(cfg, lod))
  {
    SampleGridIsPaddedVertexGrid(cfg, lod);
    assert hy * hRow == hRow * hy;
  }

  /** The vertex indices of the four corners of block (x, y), as the worker
      spells them on a row of length r: the corner's Idx, one apart along a
      row and r apart across rows. */
  lemma BlockCornerIndices(cfg: TerrainConfig, lod: nat, x: int, y: int, r: int)
    requires ValidFor(cfg, lod)
    requires 0 <= x < XUnits(cfg, lod) && 0 <= y < YUnits(cfg, lod) && r == RowLength(cfg, lod)
    ensures r >= 3
    ensures x + y * r == Idx(x, y, r, r)
    ensures x + (y + 1) * r == Idx(x, y + 1, r, r) == x + y * r + r
    ensures (x + 1) + y * r == Idx(x + 1, y, r, r) == x + y * r + 1
    ensures (x + 1) + (y + 1) * r == Idx(x + 1, y + 1, r, r) == x + y * r + r + 1
  {
    assert y * r == r * y && (y + 1) * r == r * (y + 1);
  }

  /** Heights read around vertex (x, y), as offsets from the sample under it
      on a sample-grid row of RowLength + 2: each is the index of the
      neighbouring sample, and so inside the grid. */
  lemma NeighbourReadsInRange(cfg: TerrainConfig, lod: nat, x: int, y: int)
    requires ValidFor(cfg, lod)
    requires 0 <= x < RowLength(cfg, lod) && 0 <= y < RowLength(cfg, lod)
    ensures var s, k := NoiseSamplePoints(cfg, lod), x + 1 + (y + 1) * (RowLength(cfg, lod) + 2);
      && k == Idx(x + 1, y + 1, s, s)
      && k + (RowLength(cfg, lod) + 2) == Idx(x + 1, y + 2, s, s)
      && k - (RowLength(cfg, lod) + 2) == Idx(x + 1, y, s, s)
      && k + 1 == Idx(x + 2, y + 1, s, s)
      && k - 1 == Idx(x, y + 1, s, s)
  {
    SampleGridIsPaddedVertexGrid(cfg, lod);
    var s := NoiseSamplePoints(cfg, lod);
    assert (y + 1) * s == s * (y + 1) == s * y + s;
    assert s * (y + 2) == s * (y + 1) + s;
  }

  /** The unnormalised normal of vertex (x, y) from the heights in `h`: the
      cross-product sum over the four axis neighbours, at the vertex's world
      position (sector times LOD-0 units, plus the vertex, in LOD units). */
  function VertexNormalSum(cfg: TerrainConfig, job: Job, h: seq<real>, x: int, y: int): Vec3
    requires ValidFor(cfg, job.lod)
    requires |h| >= NoiseSamplePoints(cfg, job.lod) * NoiseSamplePoints(cfg, job.lod)
    requires 0 <= x < RowLength(cfg, job.lod) && 0 <= y < RowLength(cfg, job.lod)
  {
    var rowLength := RowLength(cfg, job.lod);
    var heightMapRowLength := rowLength + 2;
    var k := x + 1 + (y + 1) * heightMapRowLength;
    NeighbourReadsInRange(cfg, job.lod, x, y);
    NeighbourNormalSum((job.sector.x * cfg.tileXUnits + x) as real, (job.sector.y * cfg.tileYUnits + y) as real,
                       ExUnitSize(cfg, job.lod) as real, cfg.amplitude,
                       h[k], h[k + heightMapRowLength], h[k - heightMapRowLength], h[k + 1], h[k - 1])
  }

  /** Vertex `k` carries the normal, tangent and slope of the per-vertex pass. */
  ghost predicate VertexTaskDone(nrm: seq<Vec3>, tan: seq<Vec3>, col: seq<Colour>, col0: seq<Colour>,
                                 cfg: TerrainConfig, job: Job, h: seq<real>, safeNormal: Vec3 -> Vec3, x: int, y: int, k: int)
    requires ValidFor(cfg, job.lod) && |h| >= NoiseSamplePoints(cfg, job.lod) * NoiseSamplePoints(cfg, job.lod)
    requires 0 <= x < RowLength(cfg, job.lod) && 0 <= y < RowLength(cfg, job.lod)
    requires 0 <= k < |nrm| && k < |tan| && k < |col| && k < |col0|
  {
    && nrm[k] == safeNormal(VertexNormalSum(cfg, job, h, x, y))
    && tan[k] == Vec3(0.0, 1.0, 0.0)
    && col[k] == col0[k].(r := SlopeChannel(nrm[k].z))
  }

  /** The tile vertices before `i`, row by row, are done; every later vertex
      and every vertex past the tile keeps its normal, tangent and colour. */
  ghost predicate VertexTasksDone(nrm: seq<Vec3>, tan: seq<Vec3>, col: seq<Colour>,
                                  nrm0: seq<Vec3>, tan0: seq<Vec3>, col0: seq<Colour>,
                                  cfg: TerrainConfig, job: Job, h: seq<real>, safeNormal: Vec3 -> Vec3, i: int)
  {
    && ValidFor(cfg, job.lod) && |h| >= NoiseSamplePoints(cfg, job.lod) * NoiseSamplePoints(cfg, job.lod)
    && var r := RowLength(cfg, job.lod);
    && 0 <= i <= r * r
    && |nrm| == |nrm0| >= r * r && |tan| == |tan0| >= r * r && |col| == |col0| >= r * r
    && (forall x, y :: 0 <= x < r && 0 <= y < r ==>
          if Idx(x, y, r, r) < i then VertexTaskDone(nrm, tan, col, col0, cfg, job, h, safeNormal, x, y, Idx(x, y, r, r))
          else nrm[Idx(x, y, r, r)] == nrm0[Idx(x, y, r, r)] && tan[Idx(x, y, r, r)] == tan0[Idx(x, y, r, r)]
               && col[Idx(x, y, r, r)] == col0[Idx(x, y, r, r)])
    && nrm[r * r..] == nrm0[r * r..] && tan[r * r..] == tan0[r * r..] && col[r * r..] == col0[r * r..]
  }

  /** Doing vertex (x, y), the next in row order, keeps VertexTasksDone. */
  lemma VertexTaskStep(nrm: seq<Vec3>, tan: seq<Vec3>, col: seq<Colour>,
                       nrm': seq<Vec3>, tan': seq<Vec3>, col': seq<Colour>,
                       nrm0: seq<Vec3>, tan0: seq<Vec3>, col0: seq<Colour>,
                       cfg: TerrainConfig, job: Job, h: seq<real>, safeNormal: Vec3 -> Vec3, x: int, y: int, k: int)
    requires ValidFor(cfg, job.lod)
    requires 0 <= x < RowLength(cfg, job.lod) && 0 <= y < RowLength(cfg, job.lod)
    requires k == x + y * RowLength(cfg, job.lod)
    requires VertexTasksDone(nrm, tan, col, nrm0, tan0, col0, cfg, job, h, safeNormal, k)
    requires 0 <= k < |nrm| && k < |tan| && k < |col|
    requires nrm' == nrm[k := safeNormal(VertexNormalSum(cfg, job, h, x, y))]
    requires tan' == tan[k := Vec3(0.0, 1.0, 0.0)]
    requires col' == col[k := col[k].(r := SlopeChannel(Dot(nrm'[k], Vec3(0.0, 0.0, 1.0))))]
    ensures VertexTasksDone(nrm', tan', col', nrm0, tan0, col0, cfg, job, h, safeNormal, k + 1)
  {
    var r := RowLength(cfg, job.lod);
    assert k == Idx(x, y, r, r);
    IdxInjective(r, r);
    assert nrm'[r * r..] == nrm[r * r..];
    assert tan'[r * r..] == tan[r * r..];
    assert col'[r * r..] == col[r * r..];
  }

  /** The vertex k = x + y * RowLength the per-vertex pass writes is a tile vertex. */
  lemma VertexTaskInRange(nrm: seq<Vec3>, tan: seq<Vec3>, col: seq<Colour>,
                          nrm0: seq<Vec3>, tan0: seq<Vec3>, col0: seq<Colour>,
                          cfg: TerrainConfig, job: Job, h: seq<real>, safeNormal: Vec3 -> Vec3, x: int, y: int, k: int)
    requires ValidFor(cfg, job.lod)
    requires 0 <= x < RowLength(cfg, job.lod) && 0 <= y < RowLength(cfg, job.lod)
    requires k == x + y * RowLength(cfg, job.lod)
    requires VertexTasksDone(nrm, tan, col, nrm0, tan0, col0, cfg, job, h, safeNormal, k)
    ensures 0 <= k < |nrm| && k < |tan| && k < |col|
  {
    var r := RowLength(cfg, job.lod);
    assert k == Idx(x, y, r, r);
  }

  /** When every tile vertex is done, each carries its normal, tangent and
      slope, and the vertices past the tile are untouched. */
  lemma AllVertexTasksDone(nrm: seq<Vec3>, tan: seq<Vec3>, col: seq<Colour>,
                           nrm0: seq<Vec3>, tan0: seq<Vec3>, col0: seq<Colour>,
                           cfg: TerrainConfig, job: Job, h: seq<real>, safeNormal: Vec3 -> Vec3)
    requires ValidFor(cfg, job.lod)
    requires VertexTasksDone(nrm, tan, col, nrm0, tan0, col0, cfg, job, h, safeNormal,
                             RowLength(cfg, job.lod) * RowLength(cfg, job.lod))
    ensures var r := RowLength(cfg, job.lod);
      && |nrm| >= r * r && |tan| >= r * r && |col| == |col0| >= r * r
      && |h| >= NoiseSamplePoints(cfg, job.lod) * NoiseSamplePoints(cfg, job.lod)
      && (forall x, y :: 0 <= x < r && 0 <= y < r ==>
            && nrm[Idx(x, y, r, r)] == safeNormal(VertexNormalSum(cfg, job, h, x, y))
            && tan[Idx(x, y, r, r)] == Vec3(0.0, 1.0, 0.0)
            && col[Idx(x, y, r, r)] == col0[Idx(x, y, r, r)].(r := SlopeChannel(nrm[Idx(x, y, r, r)].z)))
      && nrm[r * r..] == nrm0[r * r..] && tan[r * r..] == tan0[r * r..] && col[r * r..] == col0[r * r..]
  {
  }

  /** The vertex normal is the central-difference gradient of the sample grid
      around the vertex, with vertical part 4u² for the LOD unit u. */
  lemma VertexNormalClosedForm(cfg: TerrainConfig, job: Job, h: seq<real>, x: int, y: int)
    requires ValidFor(cfg, job.lod)
    requires |h| >= NoiseSamplePoints(cfg, job.lod) * NoiseSamplePoints(cfg, job.lod)
    requires 0 <= x < RowLength(cfg, job.lod) && 0 <= y < RowLength(cfg, job.lod)
    ensures var s, u, a := NoiseSamplePoints(cfg, job.lod), ExUnitSize(cfg, job.lod) as real, cfg.amplitude;
      VertexNormalSum(cfg, job, h, x, y)
        == GradientNormal(u, a, h[Idx(x, y + 1, s, s)], h[Idx(x + 2, y + 1, s, s)],
                          h[Idx(x + 1, y, s, s)], h[Idx(x + 1, y + 2, s, s)])
  {
    NeighbourReadsInRange(cfg, job.lod, x, y);
    NormalAtOffsets(cfg, job, h, x, y);
  }

  lemma NormalAtOffsets(cfg: TerrainConfig, job: Job, h: seq<real>, x: int, y: int)
    requires ValidFor(cfg, job.lod)
    requires |h| >= NoiseSamplePoints(cfg, job.lod) * NoiseSamplePoints(cfg, job.lod)
    requires 0 <= x < RowLength(cfg, job.lod) && 0 <= y < RowLength(cfg, job.lod)
    ensures var r, u, a := RowLength(cfg, job.lod) + 2, ExUnitSize(cfg, job.lod) as real, cfg.amplitude;
      var k := x + 1 + (y + 1) * r;
      && 0 <= k - r && k + r < |h|
      && VertexNormalSum(cfg, job, h, x, y)
         == GradientNormal(u, a, h[k - 1], h[k + 1], h[k - r], h[k + r])
  {
    var r := RowLength(cfg, job.lod) + 2;
    var k := x + 1 + (y + 1) * r;
    NeighbourReadsInRange(cfg, job.lod, x, y);
    NormalSumClosedForm((job.sector.x * cfg.tileXUnits + x) as real, (job.sector.y * cfg.tileYUnits + y) as real,
                        ExUnitSize(cfg, job.lod) as real, cfg.amplitude,
                        h[k], h[k + r], h[k - r], h[k + 1], h[k - 1]);
  }

  /** Across the seam between a sector and the next one along X, the last
      vertex column of the first and the first column of the second have the
      same height and the same normal, so shading has no crease. */
  lemma SeamVerticesAgreeX(cfg: TerrainConfig, lod: nat, sx: int, sy: int, h1: seq<real>, h2: seq<real>, y: int)
    requires ValidFor(cfg, lod)
    requires HeightsSampled(h1, cfg, Job(Sector(sx, sy), lod)) && HeightsSampled(h2, cfg, Job(Sector(sx + 1, sy), lod))
    requires 0 <= y < RowLength(cfg, lod)
    ensures InteriorPosition(cfg, lod, h1, XUnits(cfg, lod), y).z == InteriorPosition(cfg, lod, h2, 0, y).z
    ensures VertexNormalSum(cfg, Job(Sector(sx, sy), lod), h1, XUnits(cfg, lod), y)
         == VertexNormalSum(cfg, Job(Sector(sx + 1, sy), lod), h2, 0, y)
  {
    SampleGridIsPaddedVertexGrid(cfg, lod);
    SeamSampleX(cfg, lod, sx, sy, h1, h2, 1, y + 1);
    SeamHeightX(cfg, lod, h1, h2, y);
    SeamNormalX(cfg, lod, sx, sy, h1, h2, y);
  }

  /** Equal samples under two seam vertices give them equal heights. */
  lemma SeamHeightX(cfg: TerrainConfig, lod: nat, h1: seq<real>, h2: seq<real>, y: int)
    requires ValidFor(cfg, lod) && 0 <= y < RowLength(cfg, lod)
    requires |h1| >= NoiseSamplePoints(cfg, lod) * NoiseSamplePoints(cfg, lod)
    requires |h2| >= NoiseSamplePoints(cfg, lod) * NoiseSamplePoints(cfg, lod)
    requires var s := NoiseSamplePoints(cfg, lod);
      h1[Idx(1 + XUnits(cfg, lod), y + 1, s, s)] == h2[Idx(1, y + 1, s, s)]
    ensures InteriorPosition(cfg, lod, h1, XUnits(cfg, lod), y).z == InteriorPosition(cfg, lod, h2, 0, y).z
  {
    SampleGridIsPaddedVertexGrid(cfg, lod);
  }

  lemma SeamHeightY(cfg: TerrainConfig, lod: nat, h1: seq<real>, h2: seq<real>, x: int)
    requires ValidFor(cfg, lod) && 0 <= x < RowLength(cfg, lod)
    requires |h1| >= NoiseSamplePoints(cfg, lod) * NoiseSamplePoints(cfg, lod)
    requires |h2| >= NoiseSamplePoints(cfg, lod) * NoiseSamplePoints(cfg, lod)
    requires var s := NoiseSamplePoints(cfg, lod);
      h1[Idx(x + 1, 1 + XUnits(cfg, lod), s, s)] == h2[Idx(x + 1, 1, s, s)]
    ensures InteriorPosition(cfg, lod, h1, x, XUnits(cfg, lod)).z == InteriorPosition(cfg, lod, h2, x, 0).z
  {
    SampleGridIsPaddedVertexGrid(cfg, lod);
  }

  /** Two vertices whose four neighbouring samples agree get the same normal,
      whatever sector and position they have. */
  lemma SameNeighboursSameNormal(cfg: TerrainConfig, j1: Job, j2: Job, h1: seq<real>, h2: seq<real>,
                                 x1: int, y1: int, x2: int, y2: int)
    requires ValidFor(cfg, j1.lod) && j2.lod == j1.lod
    requires |h1| >= NoiseSamplePoints(cfg, j1.lod) * NoiseSamplePoints(cfg, j1.lod)
    requires |h2| >= NoiseSamplePoints(cfg, j1.lod) * NoiseSamplePoints(cfg, j1.lod)
    requires 0 <= x1 < RowLength(cfg, j1.lod) && 0 <= y1 < RowLength(cfg, j1.lod)
    requires 0 <= x2 < RowLength(cfg, j1.lod) && 0 <= y2 < RowLength(cfg, j1.lod)
    requires var s := NoiseSamplePoints(cfg, j1.lod);
      && h1[Idx(x1, y1 + 1, s, s)] == h2[Idx(x2, y2 + 1, s, s)]
      && h1[Idx(x1 + 2, y1 + 1, s, s)] == h2[Idx(x2 + 2, y2 + 1, s, s)]
      && h1[Idx(x1 + 1, y1, s, s)] == h2[Idx(x2 + 1, y2, s, s)]
      && h1[Idx(x1 + 1, y1 + 2, s, s)] == h2[Idx(x2 + 1, y2 + 2, s, s)]
    ensures VertexNormalSum(cfg, j1, h1, x1, y1) == VertexNormalSum(cfg, j2, h2, x2, y2)
  {
    VertexNormalClosedForm(cfg, j1, h1, x1, y1);
    VertexNormalClosedForm(cfg, j2, h2, x2, y2);
  }

  lemma SeamNormalX(cfg: TerrainConfig, lod: nat, sx: int, sy: int, h1: seq<real>, h2: seq<real>, y: int)
    requires ValidFor(cfg, lod)
    requires HeightsSampled(h1, cfg, Job(Sector(sx, sy), lod)) && HeightsSampled(h2, cfg, Job(Sector(sx + 1, sy), lod))
    requires 0 <= y < RowLength(cfg, lod)
    ensures VertexNormalSum(cfg, Job(Sector(sx, sy), lod), h1, XUnits(cfg, lod), y)
         == VertexNormalSum(cfg, Job(Sector(sx + 1, sy), lod), h2, 0, y)
  {
    var u := XUnits(cfg, lod);
    SampleGridIsPaddedVertexGrid(cfg, lod);
    SeamSampleX(cfg, lod, sx, sy, h1, h2, 0, y + 1);
    SeamSampleX(cfg, lod, sx, sy, h1, h2, 2, y + 1);
    SeamSampleX(cfg, lod, sx, sy, h1, h2, 1, y);
    SeamSampleX(cfg, lod, sx, sy, h1, h2, 1, y + 2);
    SameNeighboursSameNormal(cfg, Job(Sector(sx, sy), lod), Job(Sector(sx + 1, sy), lod), h1, h2, u, y, 0, y);
  }

  lemma SeamSampleX(cfg: TerrainConfig, lod: nat, sx: int, sy: int, h1: seq<real>, h2: seq<real>, a: int, b: int)
    requires ValidFor(cfg, lod)
    requires HeightsSampled(h1, cfg, Job(Sector(sx, sy), lod)) && HeightsSampled(h2, cfg, Job(Sector(sx + 1, sy), lod))
    requires 0 <= a < 3 && 0 <= b < NoiseSamplePoints(cfg, lod)
    ensures var s := NoiseSamplePoints(cfg, lod);
      h1[Idx(a + XUnits(cfg, lod), b, s, s)] == h2[Idx(a, b, s, s)]
  {
    SeamHeightsShared(cfg, lod, sx, sy, a, b);
  }

  /** The same across the seam between a sector and the next one along Y. */
  lemma SeamVerticesAgreeY(cfg: TerrainConfig, lod: nat, sx: int, sy: int, h1: seq<real>, h2: seq<real>, x: int)
    requires ValidFor(cfg, lod)
    requires HeightsSampled(h1, cfg, Job(Sector(sx, sy), lod)) && HeightsSampled(h2, cfg, Job(Sector(sx, sy + 1), lod))
    requires 0 <= x < RowLength(cfg, lod)
    ensures InteriorPosition(cfg, lod, h1, x, XUnits(cfg, lod)).z == InteriorPosition(cfg, lod, h2, x, 0).z
    ensures VertexNormalSum(cfg, Job(Sector(sx, sy), lod), h1, x, XUnits(cfg, lod))
         == VertexNormalSum(cfg, Job(Sector(sx, sy + 1), lod), h2, x, 0)
  {
    SampleGridIsPaddedVertexGrid(cfg, lod);
    SeamSampleY(cfg, lod, sx, sy, h1, h2, x + 1, 1);
    SeamHeightY(cfg, lod, h1, h2, x);
    SeamNormalY(cfg, lod, sx, sy, h1, h2, x);
  }

  lemma SeamNormalY(cfg: TerrainConfig, lod: nat, sx: int, sy: int, h1: seq<real>, h2: seq<real>, x: int)
    requires ValidFor(cfg, lod)
    requires HeightsSampled(h1, cfg, Job(Sector(sx, sy), lod)) && HeightsSampled(h2, cfg, Job(Sector(sx, sy + 1), lod))
    requires 0 <= x < RowLength(cfg, lod)
    ensures VertexNormalSum(cfg, Job(Sector(sx, sy), lod), h1, x, XUnits(cfg, lod))
         == VertexNormalSum(cfg, Job(Sector(sx, sy + 1), lod), h2, x, 0)
  {
    var u := XUnits(cfg, lod);
    SampleGridIsPaddedVertexGrid(cfg, lod);
    SeamSampleY(cfg, lod, sx, sy, h1, h2, x + 1, 0);
    SeamSampleY(cfg, lod, sx, sy, h1, h2, x + 1, 2);
    SeamSampleY(cfg, lod, sx, sy, h1, h2, x, 1);
    SeamSampleY(cfg, lod, sx, sy, h1, h2, x + 2, 1);
    SameNeighboursSameNormal(cfg, Job(Sector(sx, sy), lod), Job(Sector(sx, sy + 1), lod), h1, h2, x, u, x, 0);
  }

  lemma SeamSampleY(cfg: TerrainConfig, lod: nat, sx: int, sy: int, h1: seq<real>, h2: seq<real>, a: int, b: int)
    requires ValidFor(cfg, lod)
    requires HeightsSampled(h1, cfg, Job(Sector(sx, sy), lod)) && HeightsSampled(h2, cfg, Job(Sector(sx, sy + 1), lod))
    requires 0 <= a < NoiseSamplePoints(cfg, lod) && 0 <= b < 3
    ensures var s := NoiseSamplePoints(cfg, lod);
      h1[Idx(a, b + XUnits(cfg, lod), s, s)] == h2[Idx(a, b, s, s)]
  {
    SeamHeightsShared(cfg, lod, sx, sy, a, b);
  }

  /** A skirt vertex: the tile vertex's X and Y, dropped to SkirtDepth. */
  function DroppedVertex(p: Vec3): Vec3
  {
    Vec3(p.x, p.y, SkirtDepth)
  }

  /** The first `done` skirt vertices (from n * m on) hold the dropped copies
      of their sources in `pos0` and their normals in `nrm0`; every other
      vertex is as in `pos0` and `nrm0`. */
  predicate SkirtVerticesDone(pos: seq<Vec3>, nrm: seq<Vec3>, pos0: seq<Vec3>, nrm0: seq<Vec3>, n: int, m: int, done: int)
  {
    && SkirtShape(n, m) && 0 <= done <= VertexCount(n, m) - BottomStart(n, m)
    && |pos0| >= VertexCount(n, m) && |nrm0| >= VertexCount(n, m)
    && |pos| == |pos0| && |nrm| == |nrm0|
    && (forall s :: 0 <= s < |pos| ==>
          pos[s] == if n * m <= s < n * m + done then DroppedVertex(pos0[SkirtSource(n, m, s)]) else pos0[s])
    && (forall s :: 0 <= s < |nrm| ==>
          nrm[s] == if n * m <= s < n * m + done then nrm0[SkirtSource(n, m, s)] else nrm0[s])
  }

  /** Writing the next skirt vertex from its source keeps SkirtVerticesDone:
      the sources are tile vertices, which the skirt never overwrites. */
  lemma SkirtVertexStep(pos: seq<Vec3>, nrm: seq<Vec3>, pos0: seq<Vec3>, nrm0: seq<Vec3>, n: int, m: int, done: int)
    requires SkirtShape(n, m) && 0 <= done < VertexCount(n, m) - BottomStart(n, m)
    requires |pos0| >= VertexCount(n, m) && |nrm0| >= VertexCount(n, m)
    requires SkirtVerticesDone(pos, nrm, pos0, nrm0, n, m, done)
    ensures var s := n * m + done;
      var src := SkirtSource(n, m, s);
      SkirtVerticesDone(pos[s := Vec3(pos[src].x, pos[src].y, SkirtDepth)], nrm[s := nrm[src]], pos0, nrm0, n, m, done + 1)
  {
    var s := n * m + done;
    var src := SkirtSource(n, m, s);
    assert pos[src] == pos0[src] && nrm[src] == nrm0[src];
  }

  /** The first `quads` skirt quads sit in their slots from FirstSkirtSlot on;
      every other slot is as in `tri0`. */
  predicate SkirtSlotsDone(tri: seq<int>, tri0: seq<int>, n: int, m: int, quads: int)
  {
    var first, end := FirstSkirtSlot(n, m), FirstSkirtSlot(n, m) + 6 * quads;
    && SkirtShape(n, m) && 0 <= quads <= SkirtQuadCount(n, m)
    && |tri0| >= FirstSkirtSlot(n, m) + SkirtSlotCount(n, m)
    && |tri| == |tri0|
    && tri[..first] == tri0[..first]
    && (forall q :: 0 <= q < quads ==> tri[first + 6 * q..first + 6 * q + 6] == SkirtQuad(n, m, q))
    && tri[end..] == tri0[end..]
  }

  /** Writing a quad at slot `at` keeps every slot before it and every slot
      after it. */
  lemma QuadWritten(tri: seq<int>, tri0: seq<int>, first: int, at: int, quad: seq<int>)
    requires 0 <= first <= at && at + 6 <= |tri| == |tri0| && |quad| == 6
    requires tri[..first] == tri0[..first] && tri[at..] == tri0[at..]
    ensures var tri' := tri[..at] + quad + tri[at + 6..];
      && |tri'| == |tri| && tri'[..at] == tri[..at] && tri'[..first] == tri0[..first]
      && tri'[at..at + 6] == quad && tri'[at + 6..] == tri0[at + 6..]
  {
    var tri' := tri[..at] + quad + tri[at + 6..];
    assert tri'[..at] == tri[..at];
    assert tri'[at + 6..] == tri[at + 6..];
    assert tri[at + 6..] == tri[at..][6..];
    assert tri0[at + 6..] == tri0[at..][6..];
  }

  /** Rewriting slots from `first + 6 * q` on leaves the first q quads in place. */
  lemma QuadsBeforeKept(tri: seq<int>, tri': seq<int>, first: int, q: int)
    requires 0 <= first && 0 <= q && first + 6 * q <= |tri| <= |tri'|
    requires tri'[..first + 6 * q] == tri[..first + 6 * q]
    ensures forall p :: 0 <= p < q ==> tri'[first + 6 * p..first + 6 * p + 6] == tri[first + 6 * p..first + 6 * p + 6]
  {
    var at := first + 6 * q;
    forall p | 0 <= p < q
      ensures tri'[first + 6 * p..first + 6 * p + 6] == tri[first + 6 * p..first + 6 * p + 6]
    {
      var s := first + 6 * p;
      assert tri'[s..s + 6] == tri'[..at][s..s + 6];
      assert tri[s..s + 6] == tri[..at][s..s + 6];
    }
  }

  /** Storing skirt quad `q` next keeps SkirtSlotsDone. */
  lemma SkirtQuadStored(tri: seq<int>, tri0: seq<int>, n: int, m: int, q: int)
    requires SkirtShape(n, m) && 0 <= q < SkirtQuadCount(n, m)
    requires |tri0| >= FirstSkirtSlot(n, m) + SkirtSlotCount(n, m)
    requires SkirtSlotsDone(tri, tri0, n, m, q)
    ensures var at := FirstSkirtSlot(n, m) + 6 * q;
      at + 6 <= |tri| && SkirtSlotsDone(tri[..at] + SkirtQuad(n, m, q) + tri[at + 6..], tri0, n, m, q + 1)
  {
    var first, at := FirstSkirtSlot(n, m), FirstSkirtSlot(n, m) + 6 * q;
    var tri' := tri[..at] + SkirtQuad(n, m, q) + tri[at + 6..];
    QuadWritten(tri, tri0, first, at, SkirtQuad(n, m, q));
    QuadsBeforeKept(tri, tri', first, q);
    forall p | 0 <= p < q + 1
      ensures tri'[first + 6 * p..first + 6 * p + 6] == SkirtQuad(n, m, p)
    {
      if p < q {
        assert tri'[first + 6 * p..first + 6 * p + 6] == tri[first + 6 * p..first + 6 * p + 6];
      }
    }
  }

  /** Once every quad is stored, slot FirstSkirtSlot + j holds SkirtSlot j. */
  lemma SkirtSlotsAllDone(tri: seq<int>, tri0: seq<int>, n: int, m: int)
    requires SkirtShape(n, m)
    requires |tri0| >= FirstSkirtSlot(n, m) + SkirtSlotCount(n, m)
    requires SkirtSlotsDone(tri, tri0, n, m, SkirtQuadCount(n, m))
    ensures forall j :: 0 <= j < SkirtSlotCount(n, m) ==> tri[FirstSkirtSlot(n, m) + j] == SkirtSlot(n, m, j)
  {
    var first := FirstSkirtSlot(n, m);
    forall j | 0 <= j < SkirtSlotCount(n, m)
      ensures tri[first + j] == SkirtSlot(n, m, j)
    {
      var q, k := j / 6, j % 6;
      assert first + j == first + 6 * q + k;
      assert tri[first + 6 * q..first + 6 * q + 6] == SkirtQuad(n, m, q);
      assert tri[first + j] == tri[first + 6 * q..first + 6 * q + 6][k];
    }
  }

  /** After the whole vertex pass of the skirt, every skirt vertex is a tile
      vertex on the border dropped to SkirtDepth with that vertex's normal,
      and no tile vertex, nor any vertex past the skirt, has changed. */
  lemma {:induction false} SkirtHangsFromBorder(pos: seq<Vec3>, nrm: seq<Vec3>, pos0: seq<Vec3>, nrm0: seq<Vec3>, n: int, m: int)
    requires SkirtShape(n, m)
    requires SkirtVerticesDone(pos, nrm, pos0, nrm0, n, m, VertexCount(n, m) - BottomStart(n, m))
    ensures forall s :: BottomStart(n, m) <= s < VertexCount(n, m) ==>
      var (x, y) := SkirtSourceCell(n, m, s);
      && 0 <= x < n && 0 <= y < m
      && (y == 0 || y == m - 1 || x == 0 || x == n - 1)
      && pos[s] == DroppedVertex(pos0[Idx(x, y, n, m)])
      && nrm[s] == nrm0[Idx(x, y, n, m)]
    ensures forall s :: 0 <= s < |pos| && (s < BottomStart(n, m) || s >= VertexCount(n, m)) ==> pos[s] == pos0[s]
    ensures forall s :: 0 <= s < |nrm| && (s < BottomStart(n, m) || s >= VertexCount(n, m)) ==> nrm[s] == nrm0[s]
  {
    forall s | BottomStart(n, m) <= s < VertexCount(n, m)
      ensures var (x, y) := SkirtSourceCell(n, m, s);
        && 0 <= x < n && 0 <= y < m
        && (y == 0 || y == m - 1 || x == 0 || x == n - 1)
        && pos[s] == DroppedVertex(pos0[Idx(x, y, n, m)])
        && nrm[s] == nrm0[Idx(x, y, n, m)]
    {
      SkirtSourceOnBorder(n, m, s);
    }
  }

  /** After the whole index pass of the skirt, every skirt slot names a
      vertex of the buffer, every skirt triangle stitches a tile vertex to a
      skirt vertex without repeating one, and no slot outside the skirt's
      range has changed. */
  lemma {:induction false} SkirtSlotsStitch(tri: seq<int>, tri0: seq<int>, n: int, m: int)
    requires SkirtShape(n, m)
    requires SkirtSlotsDone(tri, tri0, n, m, SkirtQuadCount(n, m))
    ensures forall k :: FirstSkirtSlot(n, m) <= k < FirstSkirtSlot(n, m) + SkirtSlotCount(n, m) ==> 0 <= tri[k] < VertexCount(n, m)
    ensures forall t :: 0 <= t < 2 * SkirtQuadCount(n, m) ==>
      var first := FirstSkirtSlot(n, m);
      TriangleStitches(tri[first + 3 * t], tri[first + 3 * t + 1], tri[first + 3 * t + 2], n * m)
    ensures tri[..FirstSkirtSlot(n, m)] == tri0[..FirstSkirtSlot(n, m)]
    ensures tri[FirstSkirtSlot(n, m) + SkirtSlotCount(n, m)..] == tri0[FirstSkirtSlot(n, m) + SkirtSlotCount(n, m)..]
  {
    var first := FirstSkirtSlot(n, m);
    SkirtSlotsAllDone(tri, tri0, n, m);
    forall k | first <= k < first + SkirtSlotCount(n, m)
      ensures 0 <= tri[k] < VertexCount(n, m)
    {
      assert tri[k] == SkirtSlot(n, m, k - first);
    }
    forall t | 0 <= t < 2 * SkirtQuadCount(n, m)
      ensures TriangleStitches(tri[first + 3 * t], tri[first + 3 * t + 1], tri[first + 3 * t + 2], n * m)
    {
      SkirtTriangleStitches(n, m, t);
    }
  }

  /** A triangle whose three slots hold the skirt's indices lies on its
      quad's border segment. */
  lemma StoredTriangleOnSegment(tri: seq<int>, n: int, m: int, t: int)
    requires SkirtShape(n, m) && 0 <= t < 2 * SkirtQuadCount(n, m)
    requires FirstSkirtSlot(n, m) + SkirtSlotCount(n, m) <= |tri|
    requires var first := FirstSkirtSlot(n, m);
      && tri[first + 3 * t] == SkirtSlot(n, m, 3 * t)
      && tri[first + 3 * t + 1] == SkirtSlot(n, m, 3 * t + 1)
      && tri[first + 3 * t + 2] == SkirtSlot(n, m, 3 * t + 2)
    ensures var first := FirstSkirtSlot(n, m);
      TriangleOnSegment(n, m, t / 2, tri[first + 3 * t], tri[first + 3 * t + 1], tri[first + 3 * t + 2])
  {
    SkirtTriangleStitches(n, m, t);
  }

  /** Every skirt triangle stored in `tri` lies on its quad's border segment. */
  predicate TrianglesOnSegments(tri: seq<int>, n: int, m: int)
  {
    && SkirtShape(n, m) && FirstSkirtSlot(n, m) + SkirtSlotCount(n, m) <= |tri|
    && forall t :: 0 <= t < 2 * SkirtQuadCount(n, m) ==>
      var first := FirstSkirtSlot(n, m);
      TriangleOnSegment(n, m, t / 2, tri[first + 3 * t], tri[first + 3 * t + 1], tri[first + 3 * t + 2])
  }

  /** Slots holding the skirt's indices hold triangles on their segments. */
  lemma {:induction false} SlotsOnSegments(tri: seq<int>, n: int, m: int)
    requires SkirtShape(n, m) && FirstSkirtSlot(n, m) + SkirtSlotCount(n, m) <= |tri|
    requires forall j :: 0 <= j < SkirtSlotCount(n, m) ==> tri[FirstSkirtSlot(n, m) + j] == SkirtSlot(n, m, j)
    ensures TrianglesOnSegments(tri, n, m)
  {
    var first := FirstSkirtSlot(n, m);
    forall t | 0 <= t < 2 * SkirtQuadCount(n, m)
      ensures TriangleOnSegment(n, m, t / 2, tri[first + 3 * t], tri[first + 3 * t + 1], tri[first + 3 * t + 2])
    {
      assert first + 3 * t + 2 == first + (3 * t + 2);
      StoredTriangleOnSegment(tri, n, m, t);
    }
  }

  /** After the whole index pass of the skirt, the vertices of skirt
      triangle t are the two ends of the border segment of quad t / 2 and
      their dropped copies: no triangle reaches a vertex off its segment. */
  lemma {:induction false} SkirtTrianglesHang(tri: seq<int>, tri0: seq<int>, n: int, m: int)
    requires SkirtShape(n, m)
    requires SkirtSlotsDone(tri, tri0, n, m, SkirtQuadCount(n, m))
    ensures TrianglesOnSegments(tri, n, m)
  {
    SkirtSlotsAllDone(tri, tri0, n, m);
    SlotsOnSegments(tri, n, m);
  }


  /** Across the stages: once the block pass has placed every tile vertex
      (leaving `pos1`) and the vertex pass has given each its normal (leaving
      `nrm1`), the skirt pass hangs each skirt vertex exactly under the
      interior position of its border vertex, at SkirtDepth, with that
      vertex's normal. */
  lemma {:induction false} SkirtUnderPlacedTile(pos: seq<Vec3>, nrm: seq<Vec3>, pos1: seq<Vec3>, nrm1: seq<Vec3>,
                                                pos0: seq<Vec3>, tan1: seq<Vec3>, col1: seq<Colour>,
                                                nrm0: seq<Vec3>, tan0: seq<Vec3>, col0: seq<Colour>,
                                                cfg: TerrainConfig, job: Job, h: seq<real>, safeNormal: Vec3 -> Vec3)
    requires ValidFor(cfg, job.lod)
    requires BlocksPlaced(pos1, pos0, cfg, job.lod, h, 0, YUnits(cfg, job.lod))
    requires VertexTasksDone(nrm1, tan1, col1, nrm0, tan0, col0, cfg, job, h, safeNormal,
                             RowLength(cfg, job.lod) * RowLength(cfg, job.lod))
    requires var r := RowLength(cfg, job.lod);
      SkirtVerticesDone(pos, nrm, pos1, nrm1, r, r, VertexCount(r, r) - BottomStart(r, r))
    ensures var r := RowLength(cfg, job.lod);
      forall s :: BottomStart(r, r) <= s < VertexCount(r, r) ==>
        var (x, y) := SkirtSourceCell(r, r, s);
        && 0 <= x < r && 0 <= y < r
        && pos[s] == DroppedVertex(InteriorPosition(cfg, job.lod, h, x, y))
        && nrm[s] == safeNormal(VertexNormalSum(cfg, job, h, x, y))
  {
    var r := RowLength(cfg, job.lod);
    SampleGridIsPaddedVertexGrid(cfg, job.lod);
    AllBlocksPlaced(pos1, pos0, cfg, job.lod, h);
    AllVertexTasksDone(nrm1, tan1, col1, nrm0, tan0, col0, cfg, job, h, safeNormal);
    SkirtHangsFromBorder(pos, nrm, pos1, nrm1, r, r);
  }
}
