# Terrain tile generation: mesh-buffer filling

A Dafny model of how one CashGen terrain generator worker fills the mesh
buffers of a single tile. A job names a sector (X, Y) and a level of detail
(LOD). For that job the worker runs five stages over buffers borrowed for
the LOD:

1. `prepMaps` clears every vertex colour.
2. `ProcessTerrainMap` samples a padded, square height grid of
   `(rowLength + 2)²` samples, row-major. At LOD 0, when asked for, it
   writes a splat texture. When there is a biome generator, it writes each
   vertex's biome blend into the green colour channel.
3. `ProcessPerBlockGeometry` / `UpdateOneBlockGeometry` position the tile
   vertices from the samples under them.
4. `ProcessPerVertexTasks` gives each tile vertex a normal, a tangent and a
   slope value in the red channel.
5. `ProcessSkirtGeometry` drops a copy of each tile edge to depth −30000 and
   writes the triangles that stitch each edge to its copy.

Modules:

- `Config`: the integer part of the terrain configuration and the
  LOD-dependent dimensions (units, row length, sample count, unit size).
- `Grid`: row-major indexing.
- `Vectors`, `Channels`, `Normals`: the values written into the buffers.
- `Mesh`: the buffer class `MeshData`.
- `Skirt`: the skirt's vertex ranges and the index values of its triangles,
  as functions of the vertex counts.
- `Tile`: what each stage leaves in each cell, as predicates over sequences,
  with the lemmas about them.
- `Generator`: the worker class `TerrainGeneratorWorker`. Its stage methods
  are loops over the buffer arrays, proved against the `Tile` and `Skirt`
  descriptions.

The model follows the code where its comments say otherwise:

- The skirt block commented "Right edge" copies column 0. The block
  commented "Left edge" copies column `numXVerts - 1`.
- The interior triangle slots `[0, 6(N−1)(M−1))` are never written by the
  worker. The counters `vertCounter` and `triCounter` passed to
  `UpdateOneBlockGeometry` are never used. The model leaves both out and
  proves that interior slots keep their contents.
- The slope value is stored into a `uint8` without a clamp. A normal within
  1/512 of horizontal rounds to 256 and wraps to 0, the same value as a flat
  vertex. This is stated in `Channels.SlopeChannelOfUnitNormal`.
- Vertex positions use the LOD-scaled unit size (`exUnitSize`), not the
  configured unit size.

## Model

| member | source | states |
|---|---|---|
| Grid.Idx | Source/CashGen/Private/CGTerrainGeneratorWorker.cpp:122 | the row-major offset `x + w*y` of an in-range cell lies inside the `w*h` buffer |
| Grid.IdxInjective | Source/CashGen/Private/CGTerrainGeneratorWorker.cpp:115-124 | two distinct cells of a grid never share an offset, so each loop writes each cell once |
| Grid.IdxCovers | Source/CashGen/Private/CGTerrainGeneratorWorker.cpp:115-124 | every offset below `w*h` is the offset of a cell, so a nested loop over all cells covers the whole buffer |
| Config.XUnits | Source/CashGen/Private/CGTerrainGeneratorWorker.cpp:110 | the vertex units along X at a LOD are never negative and never more than the LOD-0 units: the divisor only shrinks them |
| Config.YUnits | Source/CashGen/Private/CGTerrainGeneratorWorker.cpp:190 | the same along Y |
| Config.RowLength | Source/CashGen/Private/CGTerrainGeneratorWorker.cpp:410 | a row has one more vertex than the tile has units along X |
| Config.NumYVerts | Source/CashGen/Private/CGTerrainGeneratorWorker.cpp:217 | a column has one more vertex than the tile has units along Y |
| Config.NoiseSamplePoints | Source/CashGen/Private/CGTerrainGeneratorWorker.cpp:432-435 | the side of the sample grid is the row length plus two: one padding sample beyond the tile on each side |
| Config.ExUnitSize | Source/CashGen/Private/CGTerrainGeneratorWorker.cpp:111 | the vertex spacing at a LOD is never finer than the configured unit size |
| Config.SampleGridIsPaddedVertexGrid | Source/CashGen/Private/CGTerrainGeneratorWorker.cpp:432-435 | the sample count `exX = units + 3` equals `rowLength + 2`, the stride the geometry and normal readers use; the vertex grid is square with at least 3 vertices per side; the LOD unit size is positive |
| Config.LODUnits | Source/CashGen/Private/CGTerrainGeneratorWorker.cpp:110-111 | at LOD 0 the units and unit size are the configured ones, with the divisor ignored; at other LODs the units are `TileXUnits / divisor`, truncated |
| Config.LODTileExtent | Source/CashGen/Private/CGTerrainGeneratorWorker.cpp:110-111 | a tile at any LOD spans no more world distance than at LOD 0, and exactly as much if and only if the divisor divides `TileXUnits` |
| Config.SeamSharing | Source/CashGen/Private/CGTerrainGeneratorWorker.cpp:119-120 | sample `i + units` of sector `s` has the same world coordinate as sample `i` of sector `s + 1` |
| Config.VertexSamplesAligned | Source/CashGen/Private/CGTerrainGeneratorWorker.cpp:158-159 | the biome sample of vertex `v` and the height sample under that vertex (`v + 1`) sit at the same world coordinate, the tile origin plus `v` steps |
| Vectors.Cross | Source/CashGen/Private/CGTerrainGeneratorWorker.cpp:390-393 | the cross product is perpendicular to both arguments: its dot product with each is zero |
| Channels.RoundToInt | Source/CashGen/Private/CGTerrainGeneratorWorker.cpp:162 | the rounded integer lies within one half of its argument |
| Channels.NarrowToByte | Source/CashGen/Private/CGTerrainGeneratorWorker.cpp:203-204 | storing an int into a `uint8` keeps it modulo 256 and leaves values in [0, 255] unchanged |
| Channels.MappedRangeByte | Source/CashGen/Private/CGTerrainGeneratorWorker.cpp:136-138 | the clamped range remap gives 0 at or below the range, 255 at or above it, and the truncated linear value inside it |
| Channels.MappedRangeByteMonotone | Source/CashGen/Private/CGTerrainGeneratorWorker.cpp:136-138 | a higher sample never gets a smaller splat byte |
| Channels.BiomeChannel | Source/CashGen/Private/CGTerrainGeneratorWorker.cpp:162 | the biome byte is the rounded `((v+1)/2)*256` when that is below 256, 0 for noise at or below −1, and 255 for noise at or above 1; the clamp sends a rounded value of 256 or more to 255 (so noise just below 1 gives 255, not a wrapped 0) and a negative one to 0 |
| Channels.SlopeChannel | Source/CashGen/Private/CGTerrainGeneratorWorker.cpp:203 | definition only (no contract): `round((1−\|nz\|)·256)` narrowed to `uint8`; its values are stated by `Channels.SlopeChannelOfUnitNormal` |
| Channels.SlopeChannelOfUnitNormal | Source/CashGen/Private/CGTerrainGeneratorWorker.cpp:203 | for a unit normal the slope byte is `round((1-\|n.z\|)*256)`, except that it wraps to 0 when \|n.z\| ≤ 1/512 |
| Normals.CrossSum | Source/CashGen/Private/CGTerrainGeneratorWorker.cpp:390-395 | definition only (no contract): the sum of the four cross products `left×up + up×right + right×down + down×left`, in the worker's order; `Normals.SumOfCrosses` gives its closed form |
| Normals.NeighbourNormalSum | Source/CashGen/Private/CGTerrainGeneratorWorker.cpp:378-395 | definition only (no contract): the edge vectors from the vertex to its four neighbouring samples, combined by `CrossSum`; `Normals.NormalSumClosedForm` gives its closed form |
| Normals.NormalSumClosedForm | Source/CashGen/Private/CGTerrainGeneratorWorker.cpp:378-395 | the sum of the four cross products equals the central-difference gradient normal `(2u·a·(hR−hL), 2u·a·(hD−hU), 4u²)`, whatever the vertex position and centre height |
| Normals.NormalSumPointsUp | Source/CashGen/Private/CGTerrainGeneratorWorker.cpp:388-395 | for a non-zero unit size the summed normal always has a positive vertical part |
| Normals.LevelNeighboursGiveVerticalNormal | Source/CashGen/Private/CGTerrainGeneratorWorker.cpp:378-395 | when the four neighbours are level, the summed normal is vertical |
| Skirt.BottomStart | Source/CashGen/Private/CGTerrainGeneratorWorker.cpp:219 | definition only (no contract): the bottom copies start right after the `N*M` tile vertices; `Skirt.SkirtLayout` states how the four ranges abut |
| Skirt.TopStart | Source/CashGen/Private/CGTerrainGeneratorWorker.cpp:244 | definition only (no contract): the top copies start at `N(M+1)` |
| Skirt.RightStart | Source/CashGen/Private/CGTerrainGeneratorWorker.cpp:268 | definition only (no contract): the column-0 copies start at `N(M+2)` |
| Skirt.LeftStart | Source/CashGen/Private/CGTerrainGeneratorWorker.cpp:315 | definition only (no contract): the column-`N−1` copies start `M−2` after them |
| Skirt.BottomQuad | Source/CashGen/Private/CGTerrainGeneratorWorker.cpp:234-240 | definition only (no contract): the six indices of bottom quad `i`; `Skirt.EdgeQuadsWellFormed` and `Skirt.EdgeQuadsHang` state their properties |
| Skirt.TopQuad | Source/CashGen/Private/CGTerrainGeneratorWorker.cpp:258-264 | definition only (no contract): the six indices of top quad `i`; see `Skirt.EdgeQuadsWellFormed` and `Skirt.EdgeQuadsHang` |
| Skirt.BottomRightCorner | Source/CashGen/Private/CGTerrainGeneratorWorker.cpp:280-286 | definition only (no contract): the bottom-right corner quad; see `Skirt.RightCornersWellFormed` and `Skirt.RightCornersHang` |
| Skirt.TopRightCorner | Source/CashGen/Private/CGTerrainGeneratorWorker.cpp:291-297 | definition only (no contract): the top-right corner quad; see `Skirt.RightCornersWellFormed` and `Skirt.RightCornersHang` |
| Skirt.MiddleRightQuad | Source/CashGen/Private/CGTerrainGeneratorWorker.cpp:305-311 | definition only (no contract): middle-right quad `i`; see `Skirt.SideQuadsWellFormed` and `Skirt.SideQuadsHang` |
| Skirt.BottomLeftCorner | Source/CashGen/Private/CGTerrainGeneratorWorker.cpp:327-333 | definition only (no contract): the bottom-left corner quad; see `Skirt.LeftCornersWellFormed` and `Skirt.LeftCornersHang` |
| Skirt.TopLeftCorner | Source/CashGen/Private/CGTerrainGeneratorWorker.cpp:338-344 | definition only (no contract): the top-left corner quad; see `Skirt.LeftCornersWellFormed` and `Skirt.LeftCornersHang` |
| Skirt.MiddleLeftQuad | Source/CashGen/Private/CGTerrainGeneratorWorker.cpp:352-358 | definition only (no contract): middle-left quad `i`; see `Skirt.SideQuadsWellFormed` and `Skirt.SideQuadsHang` |
| Skirt.SkirtQuad | Source/CashGen/Private/CGTerrainGeneratorWorker.cpp:231-359 | each quad has six indices, taken in the emission order of the eight sections; `Skirt.SkirtQuadWellFormed` and `Skirt.SkirtQuadHangs` state what they are |
| Skirt.SkirtSource | Source/CashGen/Private/CGTerrainGeneratorWorker.cpp:222-324 | the vertex each skirt vertex copies is a tile vertex, below `N*M` |
| Skirt.EdgeQuadsAt | Source/CashGen/Private/CGTerrainGeneratorWorker.cpp:231-266 | the skirt's first `N−1` quads are the bottom-edge quads and the next `N−1` are the top-edge quads |
| Skirt.CornerQuadsAt | Source/CashGen/Private/CGTerrainGeneratorWorker.cpp:278-344 | the four hand-written corner quads sit at positions `2(N−1)`, `2(N−1)+1`, `2(N−1)+M−1` and `2(N−1)+M` of the emission order |
| Skirt.SideQuadsAt | Source/CashGen/Private/CGTerrainGeneratorWorker.cpp:299-359 | the `M−3` middle-right quads follow the right corners, and the `M−3` middle-left quads follow the left corners |
| Skirt.SkirtLayout | Source/CashGen/Private/CGTerrainGeneratorWorker.cpp:219-315 | the bottom, top, right and left vertex ranges follow the tile vertices back to back and end at `NM+2N+2M−4`; the skirt slots end at `6((N−1)(M−1)+2N+2M−4)` |
| Skirt.SkirtSourceOnBorder | Source/CashGen/Private/CGTerrainGeneratorWorker.cpp:222-324 | each skirt vertex copies the tile vertex on row 0, on row `M−1`, or on column 0 or `N−1` without the corners |
| Skirt.EdgeQuadsWellFormed | Source/CashGen/Private/CGTerrainGeneratorWorker.cpp:231-265 | every bottom-edge and top-edge quad names existing vertices, and each of its triangles has three distinct vertices and joins a tile vertex to a skirt vertex |
| Skirt.RightCornersWellFormed | Source/CashGen/Private/CGTerrainGeneratorWorker.cpp:278-297 | the same for the bottom-right and top-right corner quads |
| Skirt.LeftCornersWellFormed | Source/CashGen/Private/CGTerrainGeneratorWorker.cpp:325-344 | the same for the bottom-left and top-left corner quads |
| Skirt.SideQuadsWellFormed | Source/CashGen/Private/CGTerrainGeneratorWorker.cpp:299-359 | the same for the middle-right and middle-left quads |
| Skirt.SkirtQuadWellFormed | Source/CashGen/Private/CGTerrainGeneratorWorker.cpp:231-359 | every quad the skirt emits is well formed |
| Skirt.SegmentEnds | Source/CashGen/Private/CGTerrainGeneratorWorker.cpp:231-359 | the two ends of a border segment are tile vertices, one apart along a row and `N` apart along a column |
| Skirt.SkirtSegment | Source/CashGen/Private/CGTerrainGeneratorWorker.cpp:231-359 | the segment each quad hangs from is a border segment: two neighbouring cells on row 0 or `M−1`, or on column 0 or `N−1` |
| Skirt.SegmentQuad | Source/CashGen/Private/CGTerrainGeneratorWorker.cpp:231-359 | every border segment is the segment of some quad |
| Skirt.SkirtSegmentInjective | Source/CashGen/Private/CGTerrainGeneratorWorker.cpp:231-359 | no two quads hang from the same segment, so the `2(N−1)+2(M−1)` quads and the border segments correspond one to one |
| Skirt.DropSources | Source/CashGen/Private/CGTerrainGeneratorWorker.cpp:222-324 | skirt vertex `i` of the bottom and top ranges copies tile vertex `i` and `N(M−1)+i`; vertex `j` of the column ranges copies `N(j+1)` and `N(j+1)+N−1` |
| Skirt.EdgeQuadsHang | Source/CashGen/Private/CGTerrainGeneratorWorker.cpp:234-264 | bottom quad `i` uses tile vertices `i`, `i+1` and otherwise only their dropped copies; top quad `i` the same for `N(M−1)+i`, `N(M−1)+i+1` |
| Skirt.RightCornersHang | Source/CashGen/Private/CGTerrainGeneratorWorker.cpp:280-297 | the right corner quads use tile vertices `0`, `N` and `N(M−2)`, `N(M−1)` and otherwise only their dropped copies |
| Skirt.LeftCornersHang | Source/CashGen/Private/CGTerrainGeneratorWorker.cpp:327-344 | the left corner quads use tile vertices `N−1`, `2N−1` and `N(M−1)−1`, `NM−1` and otherwise only their dropped copies |
| Skirt.SideQuadsHang | Source/CashGen/Private/CGTerrainGeneratorWorker.cpp:305-358 | middle quad `i` uses tile vertices `N(i+1)`, `N(i+2)` (column 0) or `N(i+1)+N−1`, `N(i+2)+N−1` (column `N−1`) and otherwise only their dropped copies |
| Skirt.EdgeSegmentsHang | Source/CashGen/Private/CGTerrainGeneratorWorker.cpp:231-266 | each of the first `2(N−1)` quads hangs from its own row segment |
| Skirt.RightCornerSegmentsHang | Source/CashGen/Private/CGTerrainGeneratorWorker.cpp:280-297 | the two right corner quads hang from the bottom and top segments of column 0 |
| Skirt.LeftCornerSegmentsHang | Source/CashGen/Private/CGTerrainGeneratorWorker.cpp:327-344 | the two left corner quads hang from the bottom and top segments of column `N−1` |
| Skirt.RightSideSegmentsHang | Source/CashGen/Private/CGTerrainGeneratorWorker.cpp:303-312 | each middle-right quad hangs from its own segment of column 0 |
| Skirt.LeftSideSegmentsHang | Source/CashGen/Private/CGTerrainGeneratorWorker.cpp:350-359 | each middle-left quad hangs from its own segment of column `N−1` |
| Skirt.SkirtQuadHangs | Source/CashGen/Private/CGTerrainGeneratorWorker.cpp:231-359 | every skirt quad uses both ends of its own border segment, and each of its other indices is a skirt vertex dropped from one of those two ends |
| Skirt.SkirtSlot | Source/CashGen/Private/CGTerrainGeneratorWorker.cpp:231-359 | every index the skirt writes, slot by slot, names a vertex of the buffer: it is below the total vertex count `NM+2N+2M−4` |
| Skirt.QuadTriangleStitches | Source/CashGen/Private/CGTerrainGeneratorWorker.cpp:231-359 | each half of each skirt quad is a non-degenerate triangle that joins a tile vertex to a skirt vertex; its vertices are the two ends of the quad's border segment or skirt vertices dropped from them |
| Skirt.SkirtTriangleStitches | Source/CashGen/Private/CGTerrainGeneratorWorker.cpp:231-359 | the triangle in skirt slots `3t .. 3t+2` repeats no vertex, joins a tile vertex to a skirt vertex, and uses only the ends of quad `t/2`'s border segment and their dropped copies |
| Tile.SampleStep | Source/CashGen/Private/CGTerrainGeneratorWorker.cpp:115-124 | writing sample `(x, y)` at `x + exX*y`, the next in row order, extends the sampled prefix by one and leaves every other cell as it was |
| Tile.AllSamplesDone | Source/CashGen/Private/CGTerrainGeneratorWorker.cpp:115-124 | once all `exX²` cells are written, every cell holds the height at its world coordinates and the buffer past the grid is unchanged |
| Tile.SeamHeightsShared | Source/CashGen/Private/CGTerrainGeneratorWorker.cpp:119-120 | sample `(a + units, b)` of a sector is sample `(a, b)` of the next sector along X, and likewise along Y |
| Tile.SplatTexel | Source/CashGen/Private/CGTerrainGeneratorWorker.cpp:134-142 | definition only (no contract): R and G are the clamped remaps of the sample over [0, 1] and [−1, 0], B the texel number narrowed to `uint8`, A zero; `Tile.SplatTexelSplitsAtZero` states its properties |
| Tile.SplatTexelSplitsAtZero | Source/CashGen/Private/CGTerrainGeneratorWorker.cpp:134-142 | a texel at or below height 0 has no red, one at or above 0 has full green, red and green never decrease with height, blue is the texel number modulo 256 and alpha is 0 |
| Tile.TexelStep | Source/CashGen/Private/CGTerrainGeneratorWorker.cpp:129-146 | writing texel `i = x + TileXUnits*y` from sample `(x+1, y+1)` extends the written prefix by one; the sample read is inside the grid |
| Tile.AllTexelsDone | Source/CashGen/Private/CGTerrainGeneratorWorker.cpp:129-146 | after all `TileXUnits*TileYUnits` texels, each holds the splat texel of the sample under its unit, and the texels past the map are unchanged |
| Tile.BiomeBlend | Source/CashGen/Private/CGTerrainGeneratorWorker.cpp:154-163 | definition only (no contract): the biome byte of the noise at the vertex's world point; `Tile.BiomeAtVertex` places that point |
| Tile.BiomeAtVertex | Source/CashGen/Private/CGTerrainGeneratorWorker.cpp:154-163 | the biome noise of vertex `(x, y)` is read at the world point of the height sample under that vertex |
| Tile.InteriorPosition | Source/CashGen/Private/CGTerrainGeneratorWorker.cpp:423-429 | definition only (no contract): vertex `(x, y)` at `(x·u, y·u, h·Amplitude)` with `h` the sample under it; `Tile.InteriorGridRegular` states its regularity |
| Tile.InteriorGridRegular | Source/CashGen/Private/CGTerrainGeneratorWorker.cpp:423-429 | neighbouring vertices are one LOD unit apart, and the last column sits at the tile's extent `units * exUnitSize` |
| Tile.PlaceBlock | Source/CashGen/Private/CGTerrainGeneratorWorker.cpp:422-429 | writing the four corners of a block, in the order the worker does, sets exactly those four vertices to their interior positions |
| Tile.BlockStep | Source/CashGen/Private/CGTerrainGeneratorWorker.cpp:177-183 | placing block `(x, y)` after the blocks before it in row order places blocks up to `(x+1, y)`; a shared corner is rewritten with the value it already had |
| Tile.RowStep | Source/CashGen/Private/CGTerrainGeneratorWorker.cpp:177-183 | finishing row `y` of blocks is starting row `y+1` |
| Tile.AllBlocksPlaced | Source/CashGen/Private/CGTerrainGeneratorWorker.cpp:177-183 | after all rows, every tile vertex holds its interior position whichever block wrote it last, and vertices past the tile are unchanged |
| Tile.CornerPosition | Source/CashGen/Private/CGTerrainGeneratorWorker.cpp:420-423 | the worker's corner expression, with the zero block origin and zero offset, is the corner's interior position |
| Tile.SampleIndex | Source/CashGen/Private/CGTerrainGeneratorWorker.cpp:407-411 | `hx + hy*(rowLength+2)` is the sample grid offset of `(hx, hy)` |
| Tile.BlockCornerIndices | Source/CashGen/Private/CGTerrainGeneratorWorker.cpp:423-429 | the four corner indices of block `(x, y)` are the offsets of its corners: one apart along a row and `rowLength` apart across rows |
| Tile.NeighbourReadsInRange | Source/CashGen/Private/CGTerrainGeneratorWorker.cpp:372-386 | the centre index `x+1+(y+1)*(rowLength+2)` and its four neighbours `±1`, `±(rowLength+2)` are the offsets of the five samples around the vertex, so they lie inside `[0, (rowLength+2)²)` |
| Tile.VertexNormalSum | Source/CashGen/Private/CGTerrainGeneratorWorker.cpp:372-395 | definition only (no contract): the cross-product sum over the four samples around vertex `(x, y)`, read at the worker's offsets; `Tile.VertexNormalClosedForm` gives its closed form |
| Tile.VertexTaskStep | Source/CashGen/Private/CGTerrainGeneratorWorker.cpp:194-208 | writing vertex `x + y*rowLength`'s normal, tangent `(0,1,0)` and red slope, the next in row order, extends the finished prefix by one and changes no other vertex or channel |
| Tile.VertexTaskInRange | Source/CashGen/Private/CGTerrainGeneratorWorker.cpp:204-206 | the index `x + y*rowLength` the per-vertex pass writes is inside the normal, tangent and colour buffers |
| Tile.AllVertexTasksDone | Source/CashGen/Private/CGTerrainGeneratorWorker.cpp:194-208 | after the pass, every tile vertex has its normal, the tangent `(0,1,0)` and its old colour with only R replaced by the slope; vertices past the tile are unchanged |
| Tile.VertexNormalClosedForm | Source/CashGen/Private/CGTerrainGeneratorWorker.cpp:372-395 | the normal sum of a vertex is the gradient normal of the four grid samples around it |
| Tile.NormalAtOffsets | Source/CashGen/Private/CGTerrainGeneratorWorker.cpp:372-395 | the same, written with the worker's offsets from `heightMapIndex` |
| Tile.SameNeighboursSameNormal | Source/CashGen/Private/CGTerrainGeneratorWorker.cpp:372-395 | two vertices whose four neighbouring samples agree have the same normal sum, whatever their sector or position |
| Tile.SeamVerticesAgreeX | Source/CashGen/Private/CGTerrainGeneratorWorker.cpp:115-124 | the last vertex column of a sector and the first of the next sector along X have the same height and the same normal |
| Tile.SeamHeightX | Source/CashGen/Private/CGTerrainGeneratorWorker.cpp:423-429 | equal samples under two vertices give them equal heights |
| Tile.SeamNormalX | Source/CashGen/Private/CGTerrainGeneratorWorker.cpp:372-386 | the seam vertices along X read the same four neighbouring samples, so their normals agree |
| Tile.SeamSampleX | Source/CashGen/Private/CGTerrainGeneratorWorker.cpp:119-122 | the sampled grids of neighbouring sectors along X agree on their three shared columns |
| Tile.SeamVerticesAgreeY | Source/CashGen/Private/CGTerrainGeneratorWorker.cpp:115-124 | the same across the seam along Y |
| Tile.SeamHeightY | Source/CashGen/Private/CGTerrainGeneratorWorker.cpp:423-429 | equal samples under two vertices across a Y seam give them equal heights |
| Tile.SeamNormalY | Source/CashGen/Private/CGTerrainGeneratorWorker.cpp:372-386 | the seam vertices along Y have the same normal |
| Tile.SeamSampleY | Source/CashGen/Private/CGTerrainGeneratorWorker.cpp:119-122 | the sampled grids of neighbouring sectors along Y agree on their three shared rows |
| Tile.DroppedVertex | Source/CashGen/Private/CGTerrainGeneratorWorker.cpp:225-229 | definition only (no contract): a border vertex's X and Y with Z set to −30000 |
| Tile.SkirtVertexStep | Source/CashGen/Private/CGTerrainGeneratorWorker.cpp:223-230 | copying the next skirt vertex from its source keeps every earlier skirt vertex, because sources are tile vertices the skirt never overwrites |
| Tile.SkirtQuadStored | Source/CashGen/Private/CGTerrainGeneratorWorker.cpp:232-241 | storing skirt quad `q` in its six slots keeps the earlier quads, the interior slots and the later slots |
| Tile.SkirtSlotsAllDone | Source/CashGen/Private/CGTerrainGeneratorWorker.cpp:231-359 | once every quad is stored, each skirt slot holds its index from the emission order |
| Tile.SkirtHangsFromBorder | Source/CashGen/Private/CGTerrainGeneratorWorker.cpp:222-324 | after the skirt pass, each skirt vertex is a border vertex dropped to −30000, with that vertex's normal; tile vertices and vertices past the skirt are unchanged |
| Tile.SkirtSlotsStitch | Source/CashGen/Private/CGTerrainGeneratorWorker.cpp:231-359 | after the skirt pass, every skirt index is below the vertex count, no skirt triangle repeats a vertex, each joins the tile to the skirt, and the interior slots and the slots past the skirt are unchanged |
| Tile.StoredTriangleOnSegment | Source/CashGen/Private/CGTerrainGeneratorWorker.cpp:231-359 | a triangle whose three slots hold the skirt's indices uses only the ends of its quad's border segment and their dropped copies |
| Tile.SlotsOnSegments | Source/CashGen/Private/CGTerrainGeneratorWorker.cpp:231-359 | a buffer whose skirt slots hold the skirt's indices has every skirt triangle on its own border segment |
| Tile.SkirtTrianglesHang | Source/CashGen/Private/CGTerrainGeneratorWorker.cpp:231-359 | after the skirt pass, every skirt triangle uses only the two ends of its quad's border segment and skirt vertices dropped from them |
| Tile.SkirtUnderPlacedTile | Source/CashGen/Private/CGTerrainGeneratorWorker.cpp:168-360 | across the block, vertex and skirt passes: each skirt vertex is the interior position of its border vertex dropped to −30000, and carries that vertex's normal |
| Mesh.MeshData.constructor | Source/CashGen/Private/CGTerrainGeneratorWorker.cpp:40-53 | every buffer is freshly allocated at its size and distinct from the others |
| Mesh.MeshData.SizedFor | Source/CashGen/Private/CGTerrainGeneratorWorker.cpp:40-53 | definition only (no contract): the borrowed buffers are large enough for the padded sample grid, the tile and skirt vertices, the interior and skirt slots and, when made, the splat map |
| Generator.StoreQuad | Source/CashGen/Private/CGTerrainGeneratorWorker.cpp:234-240 | six consecutive slot writes replace exactly slots `at .. at+5` with the quad |
| Generator.DropVertex | Source/CashGen/Private/CGTerrainGeneratorWorker.cpp:225-229 | writing the next skirt vertex from its source keeps the skirt-vertex invariant |
| Generator.StoreSkirtQuad | Source/CashGen/Private/CGTerrainGeneratorWorker.cpp:234-240 | storing quad `q` at `FirstSkirtSlot + 6q` keeps the skirt-slot invariant |
| Generator.SkirtBottomVertices | Source/CashGen/Private/CGTerrainGeneratorWorker.cpp:223-230 | the bottom-edge loop drops row 0 into `[NM, NM+N)` |
| Generator.StoreBottomQuad | Source/CashGen/Private/CGTerrainGeneratorWorker.cpp:234-240 | bottom quad `i` is written at the slots of quad `i` |
| Generator.SkirtBottomQuads | Source/CashGen/Private/CGTerrainGeneratorWorker.cpp:232-242 | the bottom-edge triangle loop writes the first `N−1` skirt quads |
| Generator.SkirtTopVertices | Source/CashGen/Private/CGTerrainGeneratorWorker.cpp:246-253 | the top-edge loop drops row `M−1` into `[N(M+1), N(M+2))` |
| Generator.StoreTopQuad | Source/CashGen/Private/CGTerrainGeneratorWorker.cpp:258-264 | top quad `i` is written at the slots of quad `N−1+i` |
| Generator.SkirtTopQuads | Source/CashGen/Private/CGTerrainGeneratorWorker.cpp:256-266 | the top-edge triangle loop writes the next `N−1` quads |
| Generator.SkirtRightVertices | Source/CashGen/Private/CGTerrainGeneratorWorker.cpp:270-277 | the "right" loop drops column 0 without its corners into `[N(M+2), N(M+2)+M−2)` |
| Generator.StoreBottomRightCorner | Source/CashGen/Private/CGTerrainGeneratorWorker.cpp:280-286 | the bottom-right corner is written at the slots of quad `2(N−1)` |
| Generator.StoreTopRightCorner | Source/CashGen/Private/CGTerrainGeneratorWorker.cpp:289-297 | the top-right corner is written at the slots of quad `2(N−1)+1` |
| Generator.StoreMiddleRightQuad | Source/CashGen/Private/CGTerrainGeneratorWorker.cpp:305-311 | middle-right quad `i` is written at the slots of quad `2(N−1)+2+i` |
| Generator.SkirtMiddleRightQuads | Source/CashGen/Private/CGTerrainGeneratorWorker.cpp:303-313 | the middle-right loop writes the `M−3` quads after the right corners |
| Generator.SkirtLeftVertices | Source/CashGen/Private/CGTerrainGeneratorWorker.cpp:317-324 | the "left" loop drops column `N−1` without its corners into the last `M−2` skirt vertices |
| Generator.StoreBottomLeftCorner | Source/CashGen/Private/CGTerrainGeneratorWorker.cpp:327-333 | the bottom-left corner is written at the slots of quad `2(N−1)+M−1` |
| Generator.StoreTopLeftCorner | Source/CashGen/Private/CGTerrainGeneratorWorker.cpp:336-344 | the top-left corner is written at the slots of quad `2(N−1)+M` |
| Generator.StoreMiddleLeftQuad | Source/CashGen/Private/CGTerrainGeneratorWorker.cpp:352-358 | middle-left quad `i` is written at the slots of quad `2(N−1)+M+1+i` |
| Generator.SkirtMiddleLeftQuads | Source/CashGen/Private/CGTerrainGeneratorWorker.cpp:350-359 | the middle-left loop writes the last `M−3` quads |
| Generator.SkirtBottomEdge | Source/CashGen/Private/CGTerrainGeneratorWorker.cpp:222-242 | the bottom section drops `N` vertices and writes `N−1` quads |
| Generator.SkirtTopEdge | Source/CashGen/Private/CGTerrainGeneratorWorker.cpp:244-266 | the top section drops the next `N` vertices and writes the next `N−1` quads |
| Generator.SkirtRightEdge | Source/CashGen/Private/CGTerrainGeneratorWorker.cpp:268-313 | the right section drops `M−2` vertices and writes two corner quads and `M−3` middle quads |
| Generator.SkirtLeftEdge | Source/CashGen/Private/CGTerrainGeneratorWorker.cpp:315-359 | the left section drops the last `M−2` vertices and writes the last `M−1` quads, completing the skirt |
| Generator.SkirtGeometry | Source/CashGen/Private/CGTerrainGeneratorWorker.cpp:212-360 | with `startIndex`/`triStartIndex` advancing section by section, all skirt vertices are dropped copies of their sources and all skirt quads are in their slots; everything else is unchanged |
| Generator.StoreVertexTasks | Source/CashGen/Private/CGTerrainGeneratorWorker.cpp:204-206 | vertex `k` gets its normal and tangent and a new R channel, with G, B and A kept; nothing else changes |
| Generator.TerrainGeneratorWorker.PrepMaps | Source/CashGen/Private/CGTerrainGeneratorWorker.cpp:91-101 | every vertex colour has R = G = B = A = 0, and only the colour buffer changes |
| Generator.TerrainGeneratorWorker.ProcessTerrainMap | Source/CashGen/Private/CGTerrainGeneratorWorker.cpp:103-166 | the height grid is sampled; the splat texels are written only when `GenerateSplatMap` holds at LOD 0, and otherwise the texture is unchanged; only G of the tile vertices changes, and only when there is a biome generator |
| Generator.TerrainGeneratorWorker.SampleHeights | Source/CashGen/Private/CGTerrainGeneratorWorker.cpp:115-124 | every cell `x + exX*y` of the padded grid holds the height at `((sector*units)+x)*u − u`, and the buffer past the grid is unchanged |
| Generator.TerrainGeneratorWorker.WriteSplatMap | Source/CashGen/Private/CGTerrainGeneratorWorker.cpp:127-147 | texel `i`, row-major over `TileYUnits × TileXUnits`, is the splat texel of sample `(x+1, y+1)` with B = `i mod 256` and A = 0; texels past the map are unchanged |
| Generator.TerrainGeneratorWorker.WriteBiomeBlend | Source/CashGen/Private/CGTerrainGeneratorWorker.cpp:149-165 | each tile vertex's colour gets a new G, the clamped biome byte of the noise at its world point; R, B, A and the colours past the tile are unchanged |
| Generator.TerrainGeneratorWorker.PositionCorner | Source/CashGen/Private/CGTerrainGeneratorWorker.cpp:423 | one corner statement sets exactly one vertex to its interior position |
| Generator.TerrainGeneratorWorker.UpdateOneBlockGeometry | Source/CashGen/Private/CGTerrainGeneratorWorker.cpp:403-430 | the four corners of block `(aX, aY)` hold their interior positions and nothing else changes |
| Generator.TerrainGeneratorWorker.ProcessPerBlockGeometry | Source/CashGen/Private/CGTerrainGeneratorWorker.cpp:168-184 | each tile vertex `(vx, vy)` is at `(vx*u, vy*u, HeightMap[(vx+1)+(vy+1)*(rowLength+2)]*Amplitude)`, and vertices past the tile are unchanged |
| Generator.TerrainGeneratorWorker.GetNormalFromHeightMapForVertex | Source/CashGen/Private/CGTerrainGeneratorWorker.cpp:362-401 | the normal is the normalised cross-product sum over the four neighbouring samples, which equals the normalised central-difference gradient |
| Generator.TerrainGeneratorWorker.ProcessPerVertexTasks | Source/CashGen/Private/CGTerrainGeneratorWorker.cpp:186-209 | every tile vertex has its normal, the tangent `(0,1,0)` and the slope of that normal in R, with G, B and A kept; nothing past the tile changes |
| Generator.TerrainGeneratorWorker.ProcessSkirtGeometry | Source/CashGen/Private/CGTerrainGeneratorWorker.cpp:212-360 | all skirt vertices are dropped copies of their border sources and all skirt slots hold the skirt quads; the interior slots, the tile vertices and everything past the skirt are unchanged (the consequences are in `Tile.SkirtHangsFromBorder` and `Tile.SkirtSlotsStitch`) |

## Left out

- The worker's thread loop (`Init`, `Run`, `Stop`, `Exit`), the `IsThreadFinished` flag, `Sleep`, and the job and update queues. They are about concurrency. The model starts from a worker that already holds a job and its buffers.
- Borrowing buffers from the per-LOD object pool, and the shutdown abort. This is foreign code: the model takes the buffers as given (`Mesh.MeshData`), distinct and large enough for the LOD.
- Timing with `std::chrono`, and the cycle-stat macros. They are diagnostics.
- Floating point. Heights, amplitude, positions and normals are exact reals, so no rounding is modelled.
- `FVector::GetSafeNormal` needs a square root. It is the parameter `safeNormal`, applied to the exact cross-product sum.
- 32-bit integer overflow of the world coordinates and buffer offsets. Integers are unbounded; the byte narrowings (splat B, slope R) are modelled exactly.
- The configured unit size is a float; the model assumes it is a whole number and takes it as a positive `int`. Lines 111 and 413 truncate the LOD unit size (`UnitSize`, or `UnitSize * ResolutionDivisor` above LOD 0) to an integer, while the normal pass (line 375) keeps the float value. For a whole-number unit size the three agree. For a non-integral one they differ (300.3 × 2 gives 600 for sample spacing and positions but 600.6 in the normal pass); that case is not modelled.
- The height source (`IWorldHeightInterface::GetHeightAtPoint`, Source/CashGen/Public/WorldHeightInterface.h:26) and the biome noise generator are external callbacks. They are uninterpreted function values in the configuration. The biome generator is an `Option`: `None` when none is set.
- The rendering, material, water, collision and system fields of the configuration, and `TileOffset`. The worker's core never reads them.
- The three field writes (X, Y, Z) of a skirt vertex are one `Vec3` write. The source's order is X, Y, then Z of the same vertex, so the result is the same.
- The tangent flip flag of `FProcMeshTangent`. Tangents are `Vec3`. Skirt vertices' tangents are never written by the worker, and the model does not write them either.
- Non-square tiles. Every stage requires `TileXUnits == TileYUnits`. The sampler sizes its grid from X only, and the later stages read it with the Y count, so a non-square tile is outside the model for every stage.
- Tiles of fewer than two units per side. Every stage requires at least two (`numYVerts >= 3`). The corner triangles need a middle row, and the middle loops run `numYVerts - 3` times.
- The source writes the skirt inline in one function. The model splits it into one method per edge section and one per quad so that each proof stays small. The writes, their order and the `startIndex`/`triStartIndex` offsets are the source's.
