/** The part of the terrain configuration the generator worker reads, and the
    LOD-dependent dimensions it derives from it. */
module Config {
  import opened Grid

  datatype Option<T> = None | Some(value: T)

  /** One level-of-detail tier: how many LOD-0 units one grid step spans. */
  datatype LODConfig = LODConfig(resolutionDivisor: int)

  /** The terrain configuration. The height source and the biome noise are
      external callbacks from integer world coordinates; they are left
      uninterpreted. `unitSize` is the integer the worker truncates the
      configured unit size to. */
  datatype TerrainConfig = TerrainConfig(
    worldHeight: (int, int) -> real,
    tileXUnits: int,
    tileYUnits: int,
    unitSize: int,
    amplitude: real,
    generateSplatMap: bool,
    lods: seq<LODConfig>,
    biomeBlendGenerator: Option<(int, int) -> real>)

  datatype Sector = Sector(x: int, y: int)

  /** A tile request: which sector, at which level of detail. */
  datatype Job = Job(sector: Sector, lod: nat)

  /** LOD 0 never consults its divisor; every other tier needs a positive one. */
  predicate ValidLOD(cfg: TerrainConfig, lod: nat)
  {
    lod == 0 || (lod < |cfg.lods| && cfg.lods[lod].resolutionDivisor > 0)
  }

  /** Grid units along X of a tile at `lod`: the divisor is ignored at LOD 0,
      and otherwise divides with truncation, so a tier never has more units
      than LOD 0. */
  function XUnits(cfg: TerrainConfig, lod: nat): (units: int)
    requires ValidLOD(cfg, lod)
    ensures cfg.tileXUnits >= 0 ==> 0 <= units <= cfg.tileXUnits
  {
    if lod == 0 then cfg.tileXUnits
    else
      DivisionShrinks(cfg.tileXUnits, cfg.lods[lod].resolutionDivisor);
      cfg.tileXUnits / cfg.lods[lod].resolutionDivisor
  }

  function YUnits(cfg: TerrainConfig, lod: nat): (units: int)
    requires ValidLOD(cfg, lod)
    ensures cfg.tileYUnits >= 0 ==> 0 <= units <= cfg.tileYUnits
  {
    if lod == 0 then cfg.tileYUnits
    else
      DivisionShrinks(cfg.tileYUnits, cfg.lods[lod].resolutionDivisor);
      cfg.tileYUnits / cfg.lods[lod].resolutionDivisor
  }

  /** Vertices in one row of the tile (also the skirt's `numXVerts`). */
  function RowLength(cfg: TerrainConfig, lod: nat): (verts: int)
    requires ValidLOD(cfg, lod)
    ensures verts == XUnits(cfg, lod) + 1
  {
    if lod == 0 then cfg.tileXUnits + 1 else cfg.tileXUnits / cfg.lods[lod].resolutionDivisor + 1
  }

  /** Vertices in one column of the tile (the skirt's `numYVerts`). */
  function NumYVerts(cfg: TerrainConfig, lod: nat): (verts: int)
    requires ValidLOD(cfg, lod)
    ensures verts == YUnits(cfg, lod) + 1
  {
    if lod == 0 then cfg.tileYUnits + 1 else cfg.tileYUnits / cfg.lods[lod].resolutionDivisor + 1
  }

  /** Side of the square height-sample grid: one sample beyond the tile on
      each side. */
  function NoiseSamplePoints(cfg: TerrainConfig, lod: nat): (samples: int)
    requires ValidLOD(cfg, lod)
    ensures samples == RowLength(cfg, lod) + 2
  {
    if lod == 0 then cfg.tileXUnits + 3 else cfg.tileXUnits / cfg.lods[lod].resolutionDivisor + 3
  }

  /** World distance between neighbouring vertices at `lod`; never finer
      than at LOD 0. */
  function ExUnitSize(cfg: TerrainConfig, lod: nat): (size: int)
    requires ValidLOD(cfg, lod)
    ensures cfg.unitSize > 0 ==> size >= cfg.unitSize
  {
    if lod == 0 then cfg.unitSize
    else
      var d := cfg.lods[lod].resolutionDivisor;
      assert cfg.unitSize > 0 ==> cfg.unitSize * d >= cfg.unitSize by {
        if cfg.unitSize > 0 { MulMonotone(cfg.unitSize, 1, d); }
      }
      cfg.unitSize * d
  }

  /** Truncating division by a positive divisor never grows a count. */
  lemma DivisionShrinks(a: int, d: int)
    requires d > 0
    ensures a >= 0 ==> 0 <= a / d <= a
  {
    if a >= 0 {
      assert a == d * (a / d) + a % d;
      MulMonotone(a / d, 1, d);
    }
  }

  /** What the worker relies on without checking it: a usable LOD tier, a
      positive unit size, a square tile, and at least two units per side. */
  predicate ValidFor(cfg: TerrainConfig, lod: nat)
  {
    && ValidLOD(cfg, lod)
    && cfg.unitSize > 0
    && cfg.tileXUnits == cfg.tileYUnits
    && XUnits(cfg, lod) >= 2
  }

  /** The sample grid is one row longer than the vertex row on each side, the
      stride every reader of the height map uses; the tile is square. */
  lemma SampleGridIsPaddedVertexGrid(cfg: TerrainConfig, lod: nat)
    requires ValidFor(cfg, lod)
    ensures NoiseSamplePoints(cfg, lod) == RowLength(cfg, lod) + 2 == XUnits(cfg, lod) + 3
    ensures RowLength(cfg, lod) == NumYVerts(cfg, lod) == YUnits(cfg, lod) + 1 >= 3
    ensures ExUnitSize(cfg, lod) > 0
  {
  }

  /** LOD 0 uses the configured units; any other tier uses the largest unit
      count whose tiles, at divisor-scaled spacing, fit in the LOD-0 tile. */
  lemma {:induction false} LODUnits(cfg: TerrainConfig, lod: nat)
    requires ValidFor(cfg, lod)
    ensures lod == 0 ==> XUnits(cfg, lod) == cfg.tileXUnits && ExUnitSize(cfg, lod) == cfg.unitSize
    ensures lod > 0 ==>
      var d := cfg.lods[lod].resolutionDivisor;
      XUnits(cfg, lod) * d <= cfg.tileXUnits < (XUnits(cfg, lod) + 1) * d
  {
    if lod > 0 {
      var d := cfg.lods[lod].resolutionDivisor;
      var t := cfg.tileXUnits;
      assert t == d * (t / d) + t % d;
      assert (t / d + 1) * d == d * (t / d) + d;
    }
  }

  /** A tile's world extent at `lod` (units times spacing) never exceeds the
      LOD-0 extent, and equals it exactly when the divisor divides the units:
      otherwise tiles of different LODs do not line up. */
  lemma {:induction false} LODTileExtent(cfg: TerrainConfig, lod: nat)
    requires ValidFor(cfg, lod)
    ensures XUnits(cfg, lod) * ExUnitSize(cfg, lod) <= cfg.tileXUnits * cfg.unitSize
    ensures XUnits(cfg, lod) * ExUnitSize(cfg, lod) == cfg.tileXUnits * cfg.unitSize
        <==> (lod == 0 || cfg.tileXUnits % cfg.lods[lod].resolutionDivisor == 0)
  {
    if lod > 0 {
      var d := cfg.lods[lod].resolutionDivisor;
      var t := cfg.tileXUnits;
      var u := cfg.unitSize;
      var q, r := t / d, t % d;
      assert t == d * q + r && 0 <= r < d;
      calc {
        XUnits(cfg, lod) * ExUnitSize(cfg, lod);
        q * (u * d);
        u * (d * q);
        u * (t - r);
        u * t - u * r;
      }
      assert u * r >= 0 by { Nonneg(u, r); }
      assert u * r == 0 <==> r == 0 by {
        if r > 0 { Positive(u, r); }
      }
    }
  }

  lemma Nonneg(a: int, b: int)
    requires a >= 0 && b >= 0
    ensures a * b >= 0
  {
  }

  lemma Positive(a: int, b: int)
    requires a > 0 && b > 0
    ensures a * b > 0
  {
  }

  /** World coordinate of height sample `i` along one axis: the sample grid
      starts one unit before the tile's first vertex. */
  function SampleWorldCoord(sector: int, units: int, i: int, unitSize: int): int
  {
    ((sector * units) + i) * unitSize - unitSize
  }

  /** World coordinate of biome sample `i` along one axis. */
  function BiomeWorldCoord(sector: int, units: int, i: int, unitSize: int): int
  {
    ((sector * units) + i) * unitSize
  }

  /** Adjacent sectors share their border samples: sample `i + units` of one
      sector is sample `i` of the next, so both tiles read the same heights. */
  lemma SeamSharing(sector: int, units: int, i: int, unitSize: int)
    ensures SampleWorldCoord(sector, units, i + units, unitSize)
         == SampleWorldCoord(sector + 1, units, i, unitSize)
  {
  }

  /** Height sample `v + 1` (the one under vertex `v`) and biome sample `v`
      both sit at the vertex's world coordinate: the tile origin plus `v` steps. */
  lemma VertexSamplesAligned(sector: int, units: int, v: int, unitSize: int)
    ensures SampleWorldCoord(sector, units, v + 1, unitSize)
         == BiomeWorldCoord(sector, units, v, unitSize)
         == sector * units * unitSize + v * unitSize
  {
  }
}
