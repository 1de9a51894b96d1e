/** The mesh buffers one tile is generated into (FCGMeshData). The buffers are
    allocated once, by the pool, and refilled for every job, so their identity
    never changes: they are `const` references to arrays the worker updates. */
module Mesh {
  import opened Config
  import opened Vectors
  import opened Channels
  import opened Skirt

  class MeshData {
    /** Height samples, row-major on the padded sample grid. */
    const HeightMap: array<real>
    const Positions: array<Vec3>
    const Normals: array<Vec3>
    /** Tangent X direction of each vertex (FProcMeshTangent without its flip flag). */
    const Tangents: array<Vec3>
    /** Vertex colours: R slope, G biome blend. */
    const Colours: array<Colour>
    /** The splat texture's texels. */
    const TextureData: array<Colour>
    const Triangles: array<int>

    /** Distinct buffers: a write to one never shows in another. */
    ghost predicate Valid()
      reads this
    {
      && Positions != Normals && Positions != Tangents && Normals != Tangents
      && Colours != TextureData
    }

    /** The buffers are large enough for a tile of configuration `cfg` at `lod`:
        the padded sample grid, the tile and skirt vertices, the interior and
        skirt index slots, and (when the splat map is made) one texel per unit. */
    ghost predicate SizedFor(cfg: TerrainConfig, lod: nat)
      reads this
      requires ValidFor(cfg, lod)
    {
      var s, n := NoiseSamplePoints(cfg, lod), RowLength(cfg, lod);
      && HeightMap.Length >= s * s
      && Positions.Length >= VertexCount(n, n)
      && Normals.Length >= VertexCount(n, n)
      && Tangents.Length >= n * n
      && Colours.Length >= n * n
      && Triangles.Length >= FirstSkirtSlot(n, n) + SkirtSlotCount(n, n)
      && (cfg.generateSplatMap && lod == 0 ==> TextureData.Length >= cfg.tileXUnits * cfg.tileYUnits)
    }

    /** Allocates every buffer at the given size. */
    constructor (heights: nat, vertices: nat, texels: nat, slots: nat)
      ensures Valid()
      ensures fresh(HeightMap) && fresh(Positions) && fresh(Normals) && fresh(Tangents)
      ensures fresh(Colours) && fresh(TextureData) && fresh(Triangles)
      ensures HeightMap.Length == heights && TextureData.Length == texels && Triangles.Length == slots
      ensures Positions.Length == Normals.Length == Tangents.Length == Colours.Length == vertices
    {
      HeightMap := new real[heights];
      Positions := new Vec3[vertices];
      Normals := new Vec3[vertices];
      Tangents := new Vec3[vertices];
      Colours := new Colour[vertices];
      TextureData := new Colour[texels];
      Triangles := new int[slots];
    }
  }
}
