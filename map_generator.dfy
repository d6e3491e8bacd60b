/**
 * MapGenerator.cs: the configuration fields and their validation, the 2D
 * colour map, the density grid of one terrain chunk and the layout of the
 * chunks of the 3D preview, each of which is meshed by the marching-cubes
 * mesher.
 */
module MapGeneration {
  import opened Geometry
  import opened Biomes
  import opened Wrappers
  import opened Mesher

  // ---------------------------------------------------------------------
  // Configuration (the serialized fields and OnValidate)
  // ---------------------------------------------------------------------

  /**
   * The configuration Noise.GetNoiseAtPoint reads besides the sample point:
   * the map size, seed, scale, falloff mix, octave count, persistence,
   * lacunarity and offset.
   */
  datatype NoiseSettings = NoiseSettings(
    mapWidth: int, mapHeight: int, seed: int, noiseScale: real, mapMix: real,
    octaves: int, persistance: real, lacunarity: real, offset: Vec2)

  /**
   * Noise.GetNoiseAtPoint at a global point (x, z). It reseeds its generator
   * on every call, so it is a deterministic function of its arguments.
   */
  type NoiseFn = (NoiseSettings, real, real) -> real

  /** The bounds OnValidate establishes. */
  predicate WellFormed(s: NoiseSettings) {
    s.mapWidth >= 1 && s.mapHeight >= 1 && s.lacunarity >= 1.0 && s.octaves >= 0
  }

  /**
   * The settings after OnValidate: each field below its bound is raised to
   * the bound, every other field is kept.
   */
  function Validated(s: NoiseSettings): (v: NoiseSettings)
    ensures WellFormed(v)
    ensures WellFormed(s) ==> v == s
    ensures v.mapWidth >= s.mapWidth && (v.mapWidth != s.mapWidth ==> v.mapWidth == 1)
    ensures v.mapHeight >= s.mapHeight && (v.mapHeight != s.mapHeight ==> v.mapHeight == 1)
    ensures v.lacunarity >= s.lacunarity && (v.lacunarity != s.lacunarity ==> v.lacunarity == 1.0)
    ensures v.octaves >= s.octaves && (v.octaves != s.octaves ==> v.octaves == 0)
    ensures v.seed == s.seed && v.noiseScale == s.noiseScale && v.mapMix == s.mapMix
    ensures v.persistance == s.persistance && v.offset == s.offset
  {
    s.(mapWidth := if s.mapWidth < 1 then 1 else s.mapWidth,
       mapHeight := if s.mapHeight < 1 then 1 else s.mapHeight,
       lacunarity := if s.lacunarity < 1.0 then 1.0 else s.lacunarity,
       octaves := if s.octaves < 0 then 0 else s.octaves)
  }

  /** Validating twice is validating once. */
  lemma ValidatedIdempotent(s: NoiseSettings)
    ensures Validated(Validated(s)) == Validated(s)
  {
  }

  // ---------------------------------------------------------------------
  // The density grid of one chunk (GenerateChunkData)
  // ---------------------------------------------------------------------

  /**
   * The density GenerateChunkData stores at local cell (x, y, z) of the chunk
   * at `chunkOffset`: the cell's height above the terrain surface, which lies
   * at noise(globalX, globalZ) * height.
   */
  function ChunkDensity(settings: NoiseSettings, noise: NoiseFn, chunkOffset: Vec3Int, height: int, x: int, y: int, z: int): real
  {
    var globalX := (x + chunkOffset.x) as real;
    var globalZ := (z + chunkOffset.z) as real;
    var currentHeight := noise(settings, globalX, globalZ) * height as real;
    y as real - currentHeight
  }

  /** The (size + 1) x (height + 1) x (size + 1) grid of the chunk at `chunkOffset`. */
  function ChunkGrid(settings: NoiseSettings, noise: NoiseFn, chunkOffset: Vec3Int, size: int, height: int): (grid: Densities)
    requires size + 1 >= 0 && height + 1 >= 0
    ensures HasShape(grid, size + 1, height + 1, size + 1)
    ensures forall x, y, z | 0 <= x <= size && 0 <= y <= height && 0 <= z <= size ::
              grid[x][y][z] == ChunkDensity(settings, noise, chunkOffset, height, x, y, z)
  {
    seq(size + 1, x =>
      seq(height + 1, y =>
        seq(size + 1, z => ChunkDensity(settings, noise, chunkOffset, height, x, y, z))))
  }

  /**
   * Along a column the density grows by exactly one per cell, so it is
   * strictly increasing in y and the surface crosses each column once.
   */
  lemma DensityRisesWithHeight(settings: NoiseSettings, noise: NoiseFn, chunkOffset: Vec3Int, size: int, height: int,
                               x: int, z: int, y1: int, y2: int)
    requires size + 1 >= 0 && height + 1 >= 0
    requires 0 <= x <= size && 0 <= z <= size && 0 <= y1 < y2 <= height
    ensures var grid := ChunkGrid(settings, noise, chunkOffset, size, height);
      && grid[x][y1][z] < grid[x][y2][z]
      && grid[x][y2][z] - grid[x][y1][z] == (y2 - y1) as real
  {
  }

  /**
   * Density depends only on the global column: two chunks at different
   * offsets that sample the same global (x, z) store the same density there.
   */
  lemma DensityIsGlobal(settings: NoiseSettings, noise: NoiseFn, o1: Vec3Int, o2: Vec3Int, height: int,
                        x1: int, z1: int, x2: int, z2: int, y: int)
    requires x1 + o1.x == x2 + o2.x && z1 + o1.z == z2 + o2.z
    ensures ChunkDensity(settings, noise, o1, height, x1, y, z1) == ChunkDensity(settings, noise, o2, height, x2, y, z2)
  {
  }

  /**
   * The last x slice of a chunk is the first x slice of its neighbour at
   * offset + (size, 0, 0): chunks meet without a seam.
   */
  lemma {:induction false} SeamAlongX(settings: NoiseSettings, noise: NoiseFn, chunkOffset: Vec3Int, size: int, height: int)
    requires size >= 0 && height + 1 >= 0
    ensures ChunkGrid(settings, noise, chunkOffset, size, height)[size]
         == ChunkGrid(settings, noise, chunkOffset.Plus(Vec3Int(size, 0, 0)), size, height)[0]
  {
    var here := ChunkGrid(settings, noise, chunkOffset, size, height)[size];
    var next := ChunkGrid(settings, noise, chunkOffset.Plus(Vec3Int(size, 0, 0)), size, height)[0];
    forall y | 0 <= y <= height ensures here[y] == next[y] {
      forall z | 0 <= z <= size ensures here[y][z] == next[y][z] {
        DensityIsGlobal(settings, noise, chunkOffset, chunkOffset.Plus(Vec3Int(size, 0, 0)), height, size, z, 0, z, y);
      }
    }
  }

  /**
   * The last z slice of a chunk is the first z slice of its neighbour at
   * offset + (0, 0, size).
   */
  lemma SeamAlongZ(settings: NoiseSettings, noise: NoiseFn, chunkOffset: Vec3Int, size: int, height: int)
    requires size >= 0 && height + 1 >= 0
    ensures forall x, y | 0 <= x <= size && 0 <= y <= height ::
              ChunkGrid(settings, noise, chunkOffset, size, height)[x][y][size]
              == ChunkGrid(settings, noise, chunkOffset.Plus(Vec3Int(0, 0, size)), size, height)[x][y][0]
  {
    forall x, y | 0 <= x <= size && 0 <= y <= height
      ensures ChunkGrid(settings, noise, chunkOffset, size, height)[x][y][size]
           == ChunkGrid(settings, noise, chunkOffset.Plus(Vec3Int(0, 0, size)), size, height)[x][y][0]
    {
      DensityIsGlobal(settings, noise, chunkOffset, chunkOffset.Plus(Vec3Int(0, 0, size)), height, x, size, x, 0, y);
    }
  }

  // ---------------------------------------------------------------------
  // The 2D colour map (the loop of GenerateMap)
  // ---------------------------------------------------------------------

  /** The colour-map slot of cell (x, y): row-major, `width` cells per row. */
  function FlatIndex(x: int, y: int, width: int, height: int): (k: int)
    requires 0 <= x < width && 0 <= y < height
    ensures 0 <= k < width * height
  {
    MulMonotone(y, height - 1, width);
    y * width + x
  }

  lemma MulMonotone(a: int, b: int, w: int)
    requires a <= b && w >= 0
    ensures a * w <= b * w
  {
    assert b * w - a * w == (b - a) * w;
  }

  /** Distinct cells get distinct slots: no slot is written twice. */
  lemma FlatIndexInjective(x1: int, y1: int, x2: int, y2: int, width: int, height: int)
    requires 0 <= x1 < width && 0 <= y1 < height && 0 <= x2 < width && 0 <= y2 < height
    requires FlatIndex(x1, y1, width, height) == FlatIndex(x2, y2, width, height)
    ensures x1 == x2 && y1 == y2
  {
    if y1 < y2 {
      MulMonotone(y1 + 1, y2, width);
    } else if y2 < y1 {
      MulMonotone(y2 + 1, y1, width);
    }
  }

  /** The slot of cell (x, y) differs from the slot of every other cell. */
  lemma FlatIndexSeparates(x: int, y: int, width: int, height: int)
    requires 0 <= x < width && 0 <= y < height
    ensures forall a, b | 0 <= a < width && 0 <= b < height && (a != x || b != y) ::
              FlatIndex(a, b, width, height) != FlatIndex(x, y, width, height)
  {
    forall a, b | 0 <= a < width && 0 <= b < height && (a != x || b != y)
      ensures FlatIndex(a, b, width, height) != FlatIndex(x, y, width, height)
    {
      if FlatIndex(a, b, width, height) == FlatIndex(x, y, width, height) {
        FlatIndexInjective(a, b, x, y, width, height);
      }
    }
  }

  /** Every slot belongs to a cell: the row is k / width and the column k % width. */
  lemma FlatIndexOnto(k: int, width: int, height: int)
    requires width >= 0 && 0 <= k < width * height
    ensures width > 0 && 0 <= k / width < height && FlatIndex(k % width, k / width, width, height) == k
  {
    if k / width >= height {
      MulMonotone(height, k / width, width);
    }
  }

  /**
   * The colour of a cell of the 2D map: the first band whose height is at
   * least the cell's noise value, or default(Color) when none is, since the
   * map has no white fallback.
   */
  function MapColor(regions: seq<BiomeType>, currentHeight: real): Color
  {
    ColorFor(regions, Finite(currentHeight), Clear)
  }

  /** A cell above every band keeps the default colour; otherwise it takes its first band's colour. */
  lemma MapColorCases(regions: seq<BiomeType>, currentHeight: real)
    ensures (forall i | 0 <= i < |regions| :: currentHeight > regions[i].height) ==> MapColor(regions, currentHeight) == Clear
    ensures forall i | 0 <= i < |regions| ::
              (currentHeight <= regions[i].height && forall j | 0 <= j < i :: currentHeight > regions[j].height)
              ==> MapColor(regions, currentHeight) == regions[i].color
  {
    forall i | 0 <= i < |regions| &&
               (currentHeight <= regions[i].height && forall j | 0 <= j < i :: currentHeight > regions[j].height)
      ensures MapColor(regions, currentHeight) == regions[i].color
    {
      assert IsFirstMatch(regions, Finite(currentHeight), i);
      FirstMatchUnique(regions, Finite(currentHeight), i, FirstRegion(regions, Finite(currentHeight)).value);
    }
  }

  // ---------------------------------------------------------------------
  // The chunk layout of the 3D preview (Generate3DPreview)
  // ---------------------------------------------------------------------

  /** Where a preview chunk's data is sampled from and where its object is placed. */
  datatype Placement = Placement(offset: Vec3Int, worldPosition: Vec3)

  /** The sampling offset of chunk (x, z): x * chunkSize and z * chunkSize, at y = 0. */
  function ChunkOffset(x: int, z: int, chunkSize: int): Vec3Int
  {
    Vec3Int(x * chunkSize, 0, z * chunkSize)
  }

  /** Half the island's side, chunksPerSide * chunkSize / 2 (a float division). */
  function CenterOffset(chunksPerSide: int, chunkSize: int): real
  {
    (chunksPerSide * chunkSize) as real / 2.0
  }

  /** The chunk's world position: its offset shifted so the island is centred on the origin. */
  function WorldPosition(chunkOffset: Vec3Int, centerOffset: real): Vec3
  {
    Vec3(chunkOffset.x as real - centerOffset, 0.0, chunkOffset.z as real - centerOffset)
  }

  function PlacementAt(x: int, z: int, chunksPerSide: int, chunkSize: int): Placement
  {
    var chunkOffset := ChunkOffset(x, z, chunkSize);
    Placement(chunkOffset, WorldPosition(chunkOffset, CenterOffset(chunksPerSide, chunkSize)))
  }

  /** Chunks (x, 0) .. (x, zEnd - 1), in loop order. */
  function LayoutRow(x: int, zEnd: int, chunksPerSide: int, chunkSize: int): (row: seq<Placement>)
    ensures |row| == if zEnd > 0 then zEnd else 0
  {
    if zEnd <= 0 then [] else LayoutRow(x, zEnd - 1, chunksPerSide, chunkSize) + [PlacementAt(x, zEnd - 1, chunksPerSide, chunkSize)]
  }

  /** Rows x = 0 .. xEnd - 1 of the layout, each chunksPerSide chunks long. */
  function Layout(xEnd: int, chunksPerSide: int, chunkSize: int): seq<Placement>
  {
    if xEnd <= 0 then [] else Layout(xEnd - 1, chunksPerSide, chunkSize) + LayoutRow(xEnd - 1, chunksPerSide, chunksPerSide, chunkSize)
  }

  /** Entry z of row x is chunk (x, z). */
  lemma {:induction false} LayoutRowAt(x: int, zEnd: int, chunksPerSide: int, chunkSize: int, z: int)
    requires 0 <= z < zEnd
    ensures LayoutRow(x, zEnd, chunksPerSide, chunkSize)[z] == PlacementAt(x, z, chunksPerSide, chunkSize)
  {
    if z < zEnd - 1 {
      LayoutRowAt(x, zEnd - 1, chunksPerSide, chunkSize, z);
    }
  }

  /**
   * The preview visits chunksPerSide^2 chunks, row by row: entry
   * x * chunksPerSide + z is chunk (x, z).
   */
  lemma {:induction false} LayoutAt(xEnd: int, chunksPerSide: int, chunkSize: int, x: int, z: int)
    requires 0 <= x < xEnd && 0 <= z < chunksPerSide
    ensures |Layout(xEnd, chunksPerSide, chunkSize)| == xEnd * chunksPerSide
    ensures x * chunksPerSide + z < xEnd * chunksPerSide
    ensures Layout(xEnd, chunksPerSide, chunkSize)[x * chunksPerSide + z] == PlacementAt(x, z, chunksPerSide, chunkSize)
  {
    LayoutLength(xEnd - 1, chunksPerSide, chunkSize);
    assert xEnd * chunksPerSide == (xEnd - 1) * chunksPerSide + chunksPerSide;
    if x < xEnd - 1 {
      LayoutAt(xEnd - 1, chunksPerSide, chunkSize, x, z);
    } else {
      LayoutRowAt(x, chunksPerSide, chunksPerSide, chunkSize, z);
    }
  }

  lemma {:induction false} LayoutLength(xEnd: int, chunksPerSide: int, chunkSize: int)
    requires xEnd >= 0 && chunksPerSide >= 0
    ensures |Layout(xEnd, chunksPerSide, chunkSize)| == xEnd * chunksPerSide
  {
    if xEnd > 0 {
      LayoutLength(xEnd - 1, chunksPerSide, chunkSize);
      assert xEnd * chunksPerSide == (xEnd - 1) * chunksPerSide + chunksPerSide;
    }
  }

  /** With a non-zero chunk size, distinct chunks sample distinct offsets. */
  lemma OffsetsDistinct(x1: int, z1: int, x2: int, z2: int, chunkSize: int)
    requires chunkSize != 0 && (x1 != x2 || z1 != z2)
    ensures ChunkOffset(x1, z1, chunkSize) != ChunkOffset(x2, z2, chunkSize)
  {
    if x1 != x2 {
      assert x1 * chunkSize - x2 * chunkSize == (x1 - x2) * chunkSize;
    } else {
      assert z1 * chunkSize - z2 * chunkSize == (z1 - z2) * chunkSize;
    }
  }

  /** Chunk (x + 1, z) sits one chunk size further along x than chunk (x, z), and likewise along z. */
  lemma NeighbourOffsets(x: int, z: int, chunkSize: int)
    ensures ChunkOffset(x + 1, z, chunkSize) == ChunkOffset(x, z, chunkSize).Plus(Vec3Int(chunkSize, 0, 0))
    ensures ChunkOffset(x, z + 1, chunkSize) == ChunkOffset(x, z, chunkSize).Plus(Vec3Int(0, 0, chunkSize))
  {
    assert (x + 1) * chunkSize == x * chunkSize + chunkSize;
    assert (z + 1) * chunkSize == z * chunkSize + chunkSize;
  }

  /** Neighbouring preview chunks share their boundary slice, so the island has no seams. */
  lemma PreviewSeams(settings: NoiseSettings, noise: NoiseFn, x: int, z: int, chunkSize: int, chunkHeight: int)
    requires chunkSize >= 0 && chunkHeight + 1 >= 0
    ensures ChunkGrid(settings, noise, ChunkOffset(x, z, chunkSize), chunkSize, chunkHeight)[chunkSize]
         == ChunkGrid(settings, noise, ChunkOffset(x + 1, z, chunkSize), chunkSize, chunkHeight)[0]
    ensures forall a, y | 0 <= a <= chunkSize && 0 <= y <= chunkHeight ::
              ChunkGrid(settings, noise, ChunkOffset(x, z, chunkSize), chunkSize, chunkHeight)[a][y][chunkSize]
              == ChunkGrid(settings, noise, ChunkOffset(x, z + 1, chunkSize), chunkSize, chunkHeight)[a][y][0]
  {
    NeighbourOffsets(x, z, chunkSize);
    SeamAlongX(settings, noise, ChunkOffset(x, z, chunkSize), chunkSize, chunkHeight);
    SeamAlongZ(settings, noise, ChunkOffset(x, z, chunkSize), chunkSize, chunkHeight);
  }

  /**
   * The island is centred on the origin: chunk (x, z) and chunk
   * (chunksPerSide - 1 - x, chunksPerSide - 1 - z) are mirror images, so the
   * first chunk starts at -centerOffset and the last one ends at +centerOffset.
   */
  lemma IslandCentred(chunksPerSide: int, chunkSize: int, x: int, z: int)
    ensures var p := PlacementAt(x, z, chunksPerSide, chunkSize).worldPosition;
            var q := PlacementAt(chunksPerSide - 1 - x, chunksPerSide - 1 - z, chunksPerSide, chunkSize).worldPosition;
      && p.y == 0.0
      && p.x + (q.x + chunkSize as real) == 0.0
      && p.z + (q.z + chunkSize as real) == 0.0
    ensures PlacementAt(0, 0, chunksPerSide, chunkSize).worldPosition
         == Vec3(-CenterOffset(chunksPerSide, chunkSize), 0.0, -CenterOffset(chunksPerSide, chunkSize))
  {
    var n := chunksPerSide;
    assert (n - 1 - x) * chunkSize + chunkSize == n * chunkSize - x * chunkSize;
    assert (n - 1 - z) * chunkSize + chunkSize == n * chunkSize - z * chunkSize;
  }

  // ---------------------------------------------------------------------
  // The generator (class MapGenerator)
  // ---------------------------------------------------------------------

  class MapGenerator {
    var mapWidth: int
    var mapHeight: int
    var noiseScale: real
    var octaves: int
    var persistance: real
    var lacunarity: real
    var seed: int
    var offset: Vec2
    var regions: seq<BiomeType>
    var mapMix: real

    /** The fields passed to Noise.GetNoiseAtPoint. */
    function Settings(): NoiseSettings
      reads this
    {
      NoiseSettings(mapWidth, mapHeight, seed, noiseScale, mapMix, octaves, persistance, lacunarity, offset)
    }

    constructor (settings: NoiseSettings, regions: seq<BiomeType>)
      ensures Settings() == settings && this.regions == regions
    {
      mapWidth, mapHeight, seed := settings.mapWidth, settings.mapHeight, settings.seed;
      noiseScale, mapMix, octaves := settings.noiseScale, settings.mapMix, settings.octaves;
      persistance, lacunarity, offset := settings.persistance, settings.lacunarity, settings.offset;
      this.regions := regions;
    }

    /** Clamps the map size, the lacunarity and the octave count to their lower bounds. */
    method OnValidate()
      modifies this
      ensures Settings() == Validated(old(Settings()))
      ensures regions == old(regions)
    {
      if mapWidth < 1 { mapWidth := 1; }
      if mapHeight < 1 { mapHeight := 1; }
      if lacunarity < 1.0 { lacunarity := 1.0; }
      if octaves < 0 { octaves := 0; }
    }

    /**
     * The colour-map loop of GenerateMap over the noise map
     * Noise.GenerateNoiseMap returns (mapWidth x mapHeight, indexed [x, y]).
     * Cell (x, y) goes to slot y * mapWidth + x and takes the colour of the
     * first band whose height is at least its noise value; a cell no band
     * covers keeps default(Color).
     */
    method GenerateMap(noiseMap: array2<real>) returns (colorMap: array<Color>)
      requires noiseMap.Length0 == mapWidth && noiseMap.Length1 == mapHeight
      ensures fresh(colorMap) && colorMap.Length == mapWidth * mapHeight
      ensures forall x, y | 0 <= x < mapWidth && 0 <= y < mapHeight ::
                colorMap[FlatIndex(x, y, mapWidth, mapHeight)] == MapColor(regions, noiseMap[x, y])
    {
      hide FlatIndex;
      hide MapColor;
      colorMap := new Color[mapWidth * mapHeight](_ => Clear);
      for y := 0 to mapHeight
        invariant RowsColored(colorMap, noiseMap, y) && RowsBlank(colorMap, y)
      {
        ColorRow(colorMap, noiseMap, y);
      }
    }

    /** Rows 0 .. rows - 1 of the colour map hold their cells' band colours. */
    predicate RowsColored(colorMap: array<Color>, noiseMap: array2<real>, rows: int)
      reads this, colorMap, noiseMap
    {
      && noiseMap.Length0 == mapWidth && noiseMap.Length1 == mapHeight && colorMap.Length == mapWidth * mapHeight
      && forall a, b | 0 <= a < mapWidth && 0 <= b < rows && b < mapHeight ::
           colorMap[FlatIndex(a, b, mapWidth, mapHeight)] == MapColor(regions, noiseMap[a, b])
    }

    /** Rows rows .. mapHeight - 1 of the colour map are still default(Color). */
    predicate RowsBlank(colorMap: array<Color>, rows: int)
      reads this, colorMap
    {
      && colorMap.Length == mapWidth * mapHeight
      && forall a, b | 0 <= a < mapWidth && 0 <= b < mapHeight && rows <= b ::
           colorMap[FlatIndex(a, b, mapWidth, mapHeight)] == Clear
    }

    /** One pass of the outer loop of GenerateMap: row y of the colour map. */
    method ColorRow(colorMap: array<Color>, noiseMap: array2<real>, y: int)
      requires 0 <= y < mapHeight
      requires RowsColored(colorMap, noiseMap, y) && RowsBlank(colorMap, y)
      modifies colorMap
      ensures RowsColored(colorMap, noiseMap, y + 1) && RowsBlank(colorMap, y + 1)
    {
      hide FlatIndex;
      hide MapColor;
      var width, height := mapWidth, mapHeight;
      for x := 0 to width
        invariant forall a | 0 <= a < x :: colorMap[FlatIndex(a, y, width, height)] == MapColor(regions, noiseMap[a, y])
        invariant forall a | x <= a < width :: colorMap[FlatIndex(a, y, width, height)] == Clear
        invariant forall a, b | 0 <= a < width && 0 <= b < height && b != y ::
                    colorMap[FlatIndex(a, b, width, height)] == old(colorMap[FlatIndex(a, b, width, height)])
      {
        FlatIndexSeparates(x, y, width, height);
        ColorCell(colorMap, noiseMap, x, y);
      }
    }

    /**
     * The body of the colour-map loop for cell (x, y): the band search with
     * its break on the first match.
     */
    method ColorCell(colorMap: array<Color>, noiseMap: array2<real>, x: int, y: int)
      requires noiseMap.Length0 == mapWidth && noiseMap.Length1 == mapHeight && colorMap.Length == mapWidth * mapHeight
      requires 0 <= x < mapWidth && 0 <= y < mapHeight
      requires colorMap[FlatIndex(x, y, mapWidth, mapHeight)] == Clear
      modifies colorMap
      ensures colorMap[..] == old(colorMap[..])[FlatIndex(x, y, mapWidth, mapHeight) := MapColor(regions, noiseMap[x, y])]
    {
      hide FirstRegion;
      hide FirstRegionFrom;
      var currentHeight := noiseMap[x, y];
      ghost var k := FlatIndex(x, y, mapWidth, mapHeight);
      ghost var sample := Finite(currentHeight);
      ColorForCases(regions, sample, Clear);
      for i := 0 to |regions|
        invariant colorMap[..] == old(colorMap[..])
        invariant forall j | 0 <= j < i :: !AtMost(sample, regions[j].height)
      {
        if currentHeight <= regions[i].height {
          assert IsFirstMatch(regions, sample, i);
          colorMap[y * mapWidth + x] := regions[i].color;
          return;
        }
      }
      assert old(colorMap[..])[k := Clear] == old(colorMap[..]);
    }

    /**
     * GenerateChunkData: the (size + 1) x (height + 1) x (size + 1) density
     * grid of the chunk at `chunkOffset`, one sample beyond the chunk on x and
     * z so that neighbouring chunks share their boundary.
     */
    method GenerateChunkData(noise: NoiseFn, chunkOffset: Vec3Int, size: int, height: int) returns (heights: array3<real>)
      requires size + 1 >= 0 && height + 1 >= 0
      ensures fresh(heights)
      ensures heights.Length0 == size + 1 && heights.Length1 == height + 1 && heights.Length2 == size + 1
      ensures Snapshot(heights) == ChunkGrid(Settings(), noise, chunkOffset, size, height)
    {
      heights := new real[size + 1, height + 1, size + 1];
      for x := 0 to size + 1
        invariant forall a, b, c | 0 <= a < x && 0 <= b <= height && 0 <= c <= size ::
                    heights[a, b, c] == ChunkDensity(Settings(), noise, chunkOffset, height, a, b, c)
      {
        for z := 0 to size + 1
          invariant forall a, b, c | 0 <= a < x && 0 <= b <= height && 0 <= c <= size ::
                      heights[a, b, c] == ChunkDensity(Settings(), noise, chunkOffset, height, a, b, c)
          invariant forall b, c | 0 <= b <= height && 0 <= c < z ::
                      heights[x, b, c] == ChunkDensity(Settings(), noise, chunkOffset, height, x, b, c)
        {
          var globalX := (x + chunkOffset.x) as real;
          var globalZ := (z + chunkOffset.z) as real;
          var noiseVal := noise(Settings(), globalX, globalZ);
          var currentHeight := noiseVal * height as real;
          for y := 0 to height + 1
            invariant forall a, b, c | 0 <= a < x && 0 <= b <= height && 0 <= c <= size ::
                        heights[a, b, c] == ChunkDensity(Settings(), noise, chunkOffset, height, a, b, c)
            invariant forall b, c | 0 <= b <= height && 0 <= c < z ::
                        heights[x, b, c] == ChunkDensity(Settings(), noise, chunkOffset, height, x, b, c)
            invariant forall b | 0 <= b < y :: heights[x, b, z] == ChunkDensity(Settings(), noise, chunkOffset, height, x, b, z)
          {
            heights[x, y, z] := y as real - currentHeight;
          }
        }
      }
      SnapshotIs(heights, ChunkGrid(Settings(), noise, chunkOffset, size, height));
    }

    /**
     * `mesh` holds this generator's bands and exactly the mesh of the density
     * grid of the chunk at `chunkOffset`, with consistent buffers.
     */
    predicate ChunkMeshed(table: CubeTable, noise: NoiseFn, mesh: MarchingCubesMesh, chunkOffset: Vec3Int,
                          chunkSize: int, chunkHeight: int, threshold: real)
      reads this, mesh
    {
      && chunkSize + 1 >= 0 && chunkHeight + 1 >= 0
      && mesh.Valid() && mesh.biomeRegions == regions && mesh.worldMaxHeight == chunkHeight
      && mesh.vertices == MeshVertices(table, ChunkGrid(Settings(), noise, chunkOffset, chunkSize, chunkHeight),
                                       chunkSize, chunkHeight, threshold)
    }

    /**
     * The chunk loop of Generate3DPreview: for every chunk (x, z) of the
     * chunksPerSide x chunksPerSide island, in row order, the chunk's
     * placement and a fresh mesh built from its density grid.
     */
    method Generate3DPreview(table: CubeTable, noise: NoiseFn, chunksPerSide: int, chunkSize: int, chunkHeight: int, threshold: real)
      returns (placements: seq<Placement>, meshes: seq<MarchingCubesMesh>)
      requires chunksPerSide <= 0 || (chunkSize + 1 >= 0 && chunkHeight + 1 >= 0)
      ensures placements == Layout(chunksPerSide, chunksPerSide, chunkSize)
      ensures |meshes| == |placements|
      ensures forall k | 0 <= k < |meshes| ::
                && fresh(meshes[k]) && meshes[k].Valid()
                && meshes[k].biomeRegions == regions && meshes[k].worldMaxHeight == chunkHeight
      ensures forall k | 0 <= k < |meshes| ::
                meshes[k].vertices == MeshVertices(table, ChunkGrid(Settings(), noise, placements[k].offset, chunkSize, chunkHeight),
                                                   chunkSize, chunkHeight, threshold)
    {
      hide MeshVertices;
      hide ChunkGrid;
      hide LayoutRow;
      hide MarchingCubesMesh.Valid;
      var centerOffset := CenterOffset(chunksPerSide, chunkSize);
      placements, meshes := [], [];
      var x := 0;
      while x < chunksPerSide
        invariant 0 <= x && (chunksPerSide > 0 ==> x <= chunksPerSide) && (chunksPerSide <= 0 ==> x == 0)
        invariant placements == Layout(x, chunksPerSide, chunkSize)
        invariant |meshes| == |placements|
        invariant forall k | 0 <= k < |meshes| ::
                    fresh(meshes[k]) && ChunkMeshed(table, noise, meshes[k], placements[k].offset, chunkSize, chunkHeight, threshold)
      {
        var row, rowMeshes := PreviewRow(table, noise, x, chunksPerSide, centerOffset, chunkSize, chunkHeight, threshold);
        placements := placements + row;
        meshes := meshes + rowMeshes;
        x := x + 1;
      }
    }

    /** The inner loop of Generate3DPreview: the chunks (x, 0) .. (x, chunksPerSide - 1). */
    method PreviewRow(table: CubeTable, noise: NoiseFn, x: int, chunksPerSide: int, centerOffset: real,
                      chunkSize: int, chunkHeight: int, threshold: real)
      returns (row: seq<Placement>, rowMeshes: seq<MarchingCubesMesh>)
      requires centerOffset == CenterOffset(chunksPerSide, chunkSize)
      requires chunksPerSide <= 0 || (chunkSize + 1 >= 0 && chunkHeight + 1 >= 0)
      ensures row == LayoutRow(x, chunksPerSide, chunksPerSide, chunkSize)
      ensures |rowMeshes| == |row|
      ensures forall k | 0 <= k < |rowMeshes| ::
                fresh(rowMeshes[k]) && ChunkMeshed(table, noise, rowMeshes[k], row[k].offset, chunkSize, chunkHeight, threshold)
    {
      hide MeshVertices;
      hide ChunkGrid;
      hide MarchingCubesMesh.Valid;
      row, rowMeshes := [], [];
      var z := 0;
      while z < chunksPerSide
        invariant 0 <= z && (chunksPerSide > 0 ==> z <= chunksPerSide) && (chunksPerSide <= 0 ==> z == 0)
        invariant row == LayoutRow(x, z, chunksPerSide, chunkSize)
        invariant |rowMeshes| == |row|
        invariant forall k | 0 <= k < |rowMeshes| ::
                    fresh(rowMeshes[k]) && ChunkMeshed(table, noise, rowMeshes[k], row[k].offset, chunkSize, chunkHeight, threshold)
      {
        var chunkOffset := Vec3Int(x * chunkSize, 0, z * chunkSize);
        var worldPosition := Vec3(chunkOffset.x as real - centerOffset, 0.0, chunkOffset.z as real - centerOffset);
        var mesh := BuildPreviewChunk(table, noise, chunkOffset, chunkSize, chunkHeight, threshold);
        row := row + [Placement(chunkOffset, worldPosition)];
        rowMeshes := rowMeshes + [mesh];
        z := z + 1;
      }
    }

    /**
     * One iteration of the chunk loop of Generate3DPreview: the chunk's
     * density grid, meshed by a fresh MarchingCubesMesh with this generator's
     * bands.
     */
    method BuildPreviewChunk(table: CubeTable, noise: NoiseFn, chunkOffset: Vec3Int, chunkSize: int, chunkHeight: int, threshold: real)
      returns (mesh: MarchingCubesMesh)
      requires chunkSize + 1 >= 0 && chunkHeight + 1 >= 0
      ensures fresh(mesh) && mesh.Valid() && mesh.biomeRegions == regions && mesh.worldMaxHeight == chunkHeight
      ensures mesh.vertices == MeshVertices(table, ChunkGrid(Settings(), noise, chunkOffset, chunkSize, chunkHeight),
                                            chunkSize, chunkHeight, threshold)
    {
      hide MeshVertices;
      hide MarchingCubesMesh.Valid;
      var data := GenerateChunkData(noise, chunkOffset, chunkSize, chunkHeight);
      mesh := new MarchingCubesMesh(table);
      mesh.BuildChunk(data, chunkSize, chunkHeight, threshold, regions);
    }
  }
}
