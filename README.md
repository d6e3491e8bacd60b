# Little-Rock terrain core in Dafny

This project models the terrain core of Little-Rock, a Unity island generator. The model covers two parts:

- **MarchingCubesMesh.** It turns a 3D density grid into a triangle mesh by marching cubes and gives each vertex a biome colour.
- **MapGenerator.** It holds the generator's configuration and validates it in `OnValidate`. It builds the 2D biome colour map, samples the density grid of a terrain chunk, and lays out the chunks of the 3D island preview.

The noise function is a parameter, and the Unity engine calls are left out.

Files:

- `wrappers.dfy`: the `Option` type.
- `geometry.dfy`: Unity's `Vector2`, `Vector3` and `Vector3Int` as value types.
- `biomes.dfy`:
  - `Color`, `BiomeType`, and the first-match band lookup shared by the mesh and the 2D map.
  - Single-precision division by zero, which yields an infinity or NaN rather than throwing.
- `marching_cubes.dfy`: module `Mesher`.
  - The shape of the marching-cubes tables.
  - The configuration index.
  - The vertices one cube emits.
  - Specification functions for the whole mesh of a grid.
  - The class `MarchingCubesMesh`: its `vertices`, `triangles` and `colors` buffers are `seq` fields that the methods reassign. Its density grid is an `array3<real>`.
- `map_generator.dfy`: module `MapGeneration`.
  - The configuration (`NoiseSettings`) and `OnValidate`.
  - The chunk density grid and its seam and monotonicity lemmas.
  - The row-major colour-map index.
  - The preview layout.
  - The class `MapGenerator`, whose methods build the colour map and the chunk grid in place, on arrays.

Each imperative method is proved against a pure specification function:

- `MarchCubes` ends with `vertices == MeshVertices(...)` of the grid.
- `GenerateChunkData` returns an array whose contents are `ChunkGrid(...)`.

The properties are then proved about those functions.

The class invariant `MarchingCubesMesh.Valid` states that the three buffers are parallel. It also states that `triangles[k] == k` and that `colors[k]` is the biome colour of `vertices[k]`. Every method that changes the buffers preserves it.

The source's nested loops are split into methods, one per loop level:

- `MarchCubes` → `MarchSlab` → `MarchRow` → `ReadCubeCorners` / `MarchCube` → `EmitVertex`.
- `GenerateMap` → `ColorRow` → `ColorCell`.
- `Generate3DPreview` → `PreviewRow` → `BuildPreviewChunk`.

Each of these methods is the body of one loop of the source, with the same statements in the same order.

Notes on the code's behaviour:

- **Configuration 0.** It means every corner is *at or below* the threshold. The test is `cubeCorners[i] > threshold` (MarchingCubesMesh.cs:150), so it is not strictly below.
- **No band matches.** The two lookups differ. A mesh vertex gets `Color.white` (MarchingCubesMesh.cs:131). A 2D colour-map cell is never written (MapGenerator.cs:39-45), so it keeps `default(Color)` from the array allocation (MapGenerator.cs:34), which is transparent black.
- **Small chunk dimensions.** They are not rejected. `GenerateChunkData` loops with `x <= size` and `y <= height` (MapGenerator.cs:134-135, 156), so a size of 0 still samples one column, and a height of 0 one cell per column. A size or height of -1 gives an empty grid. A size or height of -2 or less makes `new float[size + 1, height + 1, size + 1]` (MapGenerator.cs:132) throw `OverflowException`. That case is excluded by a precondition (see "Left out").
- **Height zero or less.** `MarchCubes` visits no cube (its `y < noiseHeight` loop, MarchingCubesMesh.cs:53), so the mesh is empty (`FlatChunkIsEmpty`). `GetBiomeColorAtVertex` therefore never divides by zero (MarchingCubesMesh.cs:120) when it is reached from `BuildChunk`. The zero-divisor cases of `Divide` and `VertexColorCases` state what the division would yield. `BuildChunk` never reaches them.

## Model

| member | source | states |
|---|---|---|
| Biomes.Divide | Assets/Scripts/Terrain/MarchingCubesMesh.cs:120 | `vertex.y / (float)worldMaxHeight` is finite exactly when the divisor is non-zero, and then it is the real quotient. It is NaN exactly for 0/0. It is +infinity for a positive dividend over zero, and -infinity for a negative one. |
| Biomes.FirstRegionFrom | Assets/Scripts/Terrain/MarchingCubesMesh.cs:123-129 | The band scan from index `from`. It returns the first index whose height is at least the sample, and None exactly when every remaining band is exceeded. |
| Biomes.FirstRegion | Assets/Scripts/Terrain/MarchingCubesMesh.cs:123-129 | The band found is the first match in table order. None exactly when no band matches. |
| Biomes.FirstMatchUnique | Assets/Scripts/Terrain/MarchingCubesMesh.cs:123-129 | At most one band is the first match. |
| Biomes.ColorFor | Assets/Scripts/Terrain/MarchingCubesMesh.cs:123-131 | The band lookup shared by both loops: the colour of `FirstRegion`'s band, or the fallback. `ColorForCases` states what it yields. |
| Biomes.ColorForCases | Assets/Scripts/Terrain/MapGenerator.cs:39-45 | The lookup yields the first matching band's colour, and the fallback when no band matches. |
| Biomes.FirstMatchWins | Assets/Scripts/Terrain/MarchingCubesMesh.cs:123-131 | The match is by table order, not by closeness. A band listed out of order shadows later ones. A sample above every band gets white. |
| Mesher.ConfigurationIndexOf | Assets/Scripts/Terrain/MarchingCubesMesh.cs:144-157 | The configuration index of eight corners lies in [0, 255]. |
| Mesher.PrefixIndexBits | Assets/Scripts/Terrain/MarchingCubesMesh.cs:148-154 | After the first n corners, the index is below 2^n. Its bit j is set iff corner j exceeds the threshold. |
| Mesher.ConfigurationIndexBits | Assets/Scripts/Terrain/MarchingCubesMesh.cs:144-157 | Bit i of the index is set iff `cubeCorners[i] > threshold`. |
| Mesher.DegenerateConfigurations | Assets/Scripts/Terrain/MarchingCubesMesh.cs:148-154 | The index is 255 iff every corner exceeds the threshold. It is 0 iff every corner is at or below it. |
| Mesher.OrFreshBit | Assets/Scripts/Terrain/MarchingCubesMesh.cs:152 | `configIndex \|= 1 << i` on an index with only lower bits set adds 2^i. |
| Mesher.EdgesFrom | Assets/Scripts/Terrain/MarchingCubesMesh.cs:93-98 | Reading a triangulation row from slot k stops at the -1 sentinel or at slot 15. Every entry read is an edge index in [0, 12). |
| Mesher.TableEdges | Assets/Scripts/Terrain/MarchingCubesMesh.cs:84-99 | The edges MarchCube uses are a prefix of the row, at most 15 long, ended by -1 unless all 15 slots are used. |
| Mesher.EdgeMidpoint | Assets/Scripts/Terrain/MarchingCubesMesh.cs:101-105 | `(edgeStart + edgeEnd) / 2` for table edge e of the cube at `position`. `MidpointInCube` states where it lies. |
| Mesher.MidpointInCube | Assets/Scripts/Terrain/MarchingCubesMesh.cs:101-105 | The vertex of an edge is its midpoint, and it lies in the unit cube at `position`. |
| Mesher.Midpoints | Assets/Scripts/Terrain/MarchingCubesMesh.cs:101-106 | One vertex per listed edge. |
| Mesher.MidpointsPointwise | Assets/Scripts/Terrain/MarchingCubesMesh.cs:101-106 | Vertex j is the midpoint of listed edge j. |
| Mesher.CubeVertices | Assets/Scripts/Terrain/MarchingCubesMesh.cs:77-115 | A cube emits at most 15 vertices, and none for configurations 0 and 255. |
| Mesher.CubeVerticesInCube | Assets/Scripts/Terrain/MarchingCubesMesh.cs:101-106 | Every vertex a cube emits lies inside that cube. |
| Mesher.Indices | Assets/Scripts/Terrain/MarchingCubesMesh.cs:107 | The triangle buffer has one entry per vertex. |
| Mesher.IndicesSequential | Assets/Scripts/Terrain/MarchingCubesMesh.cs:107 | `triangles[k] == k`: each vertex is its own triangle index. |
| Mesher.CubeCorners | Assets/Scripts/Terrain/MarchingCubesMesh.cs:57-63 | Eight densities. Density i is read at (x, y, z) + `Corners[i]`. |
| Mesher.VertexColor | Assets/Scripts/Terrain/MarchingCubesMesh.cs:118-132 | The band lookup on `vertex.y / worldMaxHeight` with white as the fallback. `VertexColorCases` states what it yields. |
| Mesher.VertexColors | Assets/Scripts/Terrain/MarchingCubesMesh.cs:110 | One colour per vertex. |
| Mesher.VertexColorsPointwise | Assets/Scripts/Terrain/MarchingCubesMesh.cs:110 | `colors[k]` is the biome colour of `vertices[k]`. |
| Mesher.VertexColorCases | Assets/Scripts/Terrain/MarchingCubesMesh.cs:118-132 | With a non-zero height, a vertex is coloured by its relative height. In a chunk of height zero, a vertex at or above the floor is white (+infinity or NaN). A vertex below the floor takes the first band (-infinity). |
| Mesher.CubeAt | Assets/Scripts/Terrain/MarchingCubesMesh.cs:57-65 | The vertices of the cube at (x, y, z): `CubeVertices` of its configuration index at that position. |
| Mesher.RowVertices | Assets/Scripts/Terrain/MarchingCubesMesh.cs:55-67 | The vertices of the cubes (x, y, 0) .. (x, y, zEnd - 1), in loop order. |
| Mesher.SlabVertices | Assets/Scripts/Terrain/MarchingCubesMesh.cs:53-68 | The rows y = 0 .. yEnd - 1 of slab x, in loop order. |
| Mesher.GridVertices | Assets/Scripts/Terrain/MarchingCubesMesh.cs:51-69 | The slabs x = 0 .. xEnd - 1, in loop order. |
| Mesher.MeshVertices | Assets/Scripts/Terrain/MarchingCubesMesh.cs:51-69 | The whole mesh of a chunk: every cube in [0, noiseWidth) x [0, noiseHeight) x [0, noiseWidth), in the loops' order. `MeshWithinChunk`, `MeshSize` and `FlatChunkIsEmpty` state its properties. |
| Mesher.FlatChunkIsEmpty | Assets/Scripts/Terrain/MarchingCubesMesh.cs:51-55 | A chunk of height zero or less has no vertices. So every coloured vertex has a positive `worldMaxHeight`, and its relative height is finite. |
| Mesher.MeshWithinChunk | Assets/Scripts/Terrain/MarchingCubesMesh.cs:51-65 | Every vertex of a chunk's mesh lies in [0, noiseWidth] x [0, noiseHeight] x [0, noiseWidth]. |
| Mesher.MeshSize | Assets/Scripts/Terrain/MarchingCubesMesh.cs:84-90 | At most five triangles per cube, so a chunk has at most 15 * noiseWidth^2 * noiseHeight vertices. |
| Mesher.MarchingCubesMesh.constructor | Assets/Scripts/Terrain/MarchingCubesMesh.cs:12-14 | A new mesher has empty, consistent buffers. |
| Mesher.MarchingCubesMesh.BuildChunk | Assets/Scripts/Terrain/MarchingCubesMesh.cs:24-37 | Stores the grid, the bands and the height as the colour scale. The buffers then hold exactly the mesh of the grid, and the buffer invariant holds. |
| Mesher.MarchingCubesMesh.MarchCubes | Assets/Scripts/Terrain/MarchingCubesMesh.cs:45-70 | Clears the buffers, then marches every cube in loop order. The result is exactly `MeshVertices` of the grid, with parallel triangles and colours. |
| Mesher.MarchingCubesMesh.MarchSlab | Assets/Scripts/Terrain/MarchingCubesMesh.cs:53-68 | Appends the vertices of slab x, row by row, and keeps the buffer invariant. |
| Mesher.MarchingCubesMesh.MarchRow | Assets/Scripts/Terrain/MarchingCubesMesh.cs:55-67 | Appends the vertices of row (x, y), cube by cube, and keeps the buffer invariant. Every corner read is in bounds. |
| Mesher.MarchingCubesMesh.ReadCubeCorners | Assets/Scripts/Terrain/MarchingCubesMesh.cs:57-63 | A fresh 8-element array holding the cube's corner densities, read in bounds. |
| Mesher.MarchingCubesMesh.MarchCube | Assets/Scripts/Terrain/MarchingCubesMesh.cs:77-115 | Appends exactly `CubeVertices`, which is nothing for 0 or 255 and stops at the -1 sentinel. The old buffers are kept as prefixes, and the buffer invariant is preserved. |
| Mesher.MarchingCubesMesh.EmitVertex | Assets/Scripts/Terrain/MarchingCubesMesh.cs:101-112 | Appends the edge midpoint, its index and its biome colour to the three buffers. |
| Mesher.MarchingCubesMesh.GetBiomeColorAtVertex | Assets/Scripts/Terrain/MarchingCubesMesh.cs:118-132 | The colour of the first band at or above `vertex.y / worldMaxHeight`, or white. |
| Mesher.MarchingCubesMesh.GetConfigurationIndex | Assets/Scripts/Terrain/MarchingCubesMesh.cs:144-157 | The index is in [0, 255], and bit i is set iff corner i exceeds the threshold. |
| MapGeneration.Validated | Assets/Scripts/Terrain/MapGenerator.cs:68-73 | The result is well formed: map size ≥ 1, lacunarity ≥ 1, octaves ≥ 0. Valid settings are unchanged. A clamped field only rises, and only to its bound. Every other field is kept. |
| MapGeneration.ValidatedIdempotent | Assets/Scripts/Terrain/MapGenerator.cs:68-73 | Validating twice is validating once. |
| MapGeneration.MapGenerator.OnValidate | Assets/Scripts/Terrain/MapGenerator.cs:68-73 | The new settings are `Validated` of the old ones, and the bands are untouched. |
| MapGeneration.ChunkDensity | Assets/Scripts/Terrain/MapGenerator.cs:137-157 | The density of cell (x, y, z): y minus the noise at the global column times the chunk height. `ChunkGrid` and the lemmas after it state its properties. |
| MapGeneration.ChunkGrid | Assets/Scripts/Terrain/MapGenerator.cs:129-162 | The grid is (size+1) x (height+1) x (size+1). Cell (x, y, z) is y minus noise(x + offset.x, z + offset.z) * height. |
| MapGeneration.DensityRisesWithHeight | Assets/Scripts/Terrain/MapGenerator.cs:154-158 | Along a column, density rises by exactly one per cell, so it strictly increases in y. |
| MapGeneration.DensityIsGlobal | Assets/Scripts/Terrain/MapGenerator.cs:137-144 | Density depends only on the global column, not on which chunk samples it. |
| MapGeneration.SeamAlongX | Assets/Scripts/Terrain/MapGenerator.cs:132-138 | The last x slice of a chunk equals the first x slice of the chunk at offset + (size, 0, 0). |
| MapGeneration.SeamAlongZ | Assets/Scripts/Terrain/MapGenerator.cs:132-138 | The last z slice of a chunk equals the first z slice of the chunk at offset + (0, 0, size). |
| MapGeneration.MapGenerator.GenerateChunkData | Assets/Scripts/Terrain/MapGenerator.cs:129-162 | A fresh array of dimensions (size+1, height+1, size+1) whose contents are exactly `ChunkGrid`. |
| MapGeneration.FlatIndex | Assets/Scripts/Terrain/MapGenerator.cs:42 | The slot `y * mapWidth + x` of an in-range cell is in [0, mapWidth * mapHeight). |
| MapGeneration.FlatIndexInjective | Assets/Scripts/Terrain/MapGenerator.cs:42 | Distinct cells get distinct slots. |
| MapGeneration.FlatIndexSeparates | Assets/Scripts/Terrain/MapGenerator.cs:42 | The slot of cell (x, y) differs from every other cell's slot. |
| MapGeneration.FlatIndexOnto | Assets/Scripts/Terrain/MapGenerator.cs:34-42 | Every slot of the map is the slot of cell (k % width, k / width), so every slot has a cell. |
| MapGeneration.MapColor | Assets/Scripts/Terrain/MapGenerator.cs:39-45 | The band lookup on a finite height with `default(Color)` as the fallback. `MapColorCases` states what it yields. |
| MapGeneration.MapColorCases | Assets/Scripts/Terrain/MapGenerator.cs:39-45 | A map cell takes the colour of its first band in table order. It keeps `default(Color)` when its height exceeds every band. |
| MapGeneration.MapGenerator.GenerateMap | Assets/Scripts/Terrain/MapGenerator.cs:34-47 | A fresh map of mapWidth * mapHeight slots. Cell (x, y) at slot y * mapWidth + x holds its first matching band's colour, or `default(Color)`. |
| MapGeneration.MapGenerator.ColorRow | Assets/Scripts/Terrain/MapGenerator.cs:36-46 | With rows before y coloured and rows from y on still default, colouring row y extends the coloured rows to y + 1 and leaves the rows after it default. |
| MapGeneration.MapGenerator.ColorCell | Assets/Scripts/Terrain/MapGenerator.cs:37-45 | Only cell (x, y)'s slot changes. It becomes the first match's colour, and stays default when nothing matches (the break leaves the loop after the first write). |
| MapGeneration.ChunkOffset | Assets/Scripts/Terrain/MapGenerator.cs:108 | The sampling offset of chunk (x, z) is (x * chunkSize, 0, z * chunkSize). |
| MapGeneration.CenterOffset | Assets/Scripts/Terrain/MapGenerator.cs:95-100 | Half the island's width, `chunksPerSide * chunkSize / 2`. |
| MapGeneration.WorldPosition | Assets/Scripts/Terrain/MapGenerator.cs:111 | A chunk is placed at its offset shifted by -centerOffset along x and z, at height 0. |
| MapGeneration.PlacementAt | Assets/Scripts/Terrain/MapGenerator.cs:108-111 | Chunk (x, z)'s offset and world position. `LayoutAt`, `NeighbourOffsets` and `IslandCentred` state its properties. |
| MapGeneration.Layout | Assets/Scripts/Terrain/MapGenerator.cs:103-111 | The placements of rows 0 .. xEnd - 1 in loop order. `LayoutLength` and `LayoutAt` state its properties. |
| MapGeneration.LayoutRow | Assets/Scripts/Terrain/MapGenerator.cs:105-108 | A row of the preview has one chunk per z in [0, chunksPerSide). |
| MapGeneration.LayoutRowAt | Assets/Scripts/Terrain/MapGenerator.cs:105-111 | Entry z of row x is chunk (x, z). |
| MapGeneration.LayoutLength | Assets/Scripts/Terrain/MapGenerator.cs:103-106 | The preview has chunksPerSide^2 chunks. |
| MapGeneration.LayoutAt | Assets/Scripts/Terrain/MapGenerator.cs:103-111 | Entry x * chunksPerSide + z is chunk (x, z): offset (x*chunkSize, 0, z*chunkSize) and world position offset - centerOffset. |
| MapGeneration.OffsetsDistinct | Assets/Scripts/Terrain/MapGenerator.cs:108 | With a non-zero chunk size, distinct chunks sample distinct offsets. |
| MapGeneration.NeighbourOffsets | Assets/Scripts/Terrain/MapGenerator.cs:108 | Chunk (x+1, z) is one chunk size along x from chunk (x, z), and likewise along z. |
| MapGeneration.PreviewSeams | Assets/Scripts/Terrain/MapGenerator.cs:108-117 | Neighbouring preview chunks share their boundary slice, along x and along z. |
| MapGeneration.IslandCentred | Assets/Scripts/Terrain/MapGenerator.cs:95-111 | The island is centred on the origin. Chunk (x, z) and its mirror chunk are symmetric about 0. The first chunk starts at -centerOffset. |
| MapGeneration.MapGenerator.constructor | Assets/Scripts/Terrain/MapGenerator.cs:10-26 | The generator holds the given configuration and bands. |
| MapGeneration.MapGenerator.Generate3DPreview | Assets/Scripts/Terrain/MapGenerator.cs:82-127 | The placements are exactly the layout, in loop order. Each chunk gets a fresh mesher with the generator's bands and the chunk height as its colour scale. Its vertices are exactly the mesh of that chunk's `ChunkGrid`, and its buffers are consistent. |
| MapGeneration.MapGenerator.PreviewRow | Assets/Scripts/Terrain/MapGenerator.cs:105-125 | The chunks (x, 0) .. (x, chunksPerSide - 1) in order. Each placement is the layout's, and each chunk has a fresh mesher holding exactly its grid's mesh, coloured against the chunk height. |
| MapGeneration.MapGenerator.BuildPreviewChunk | Assets/Scripts/Terrain/MapGenerator.cs:113-124 | A chunk's density grid, meshed by a fresh mesher with the generator's bands and the chunk height as its colour scale. |

## Left out

- Noise.cs is not part of this model.
  - `Noise.GetNoiseAtPoint` is a parameter of type `NoiseFn`: a deterministic function of the settings and the global column.
  - `Noise.GenerateNoiseMap` is the noise-map argument of `GenerateMap`.
  - MarchingTable.cs is not part of this model either: the tables are a parameter whose shape is checked by `MarchingTable.Valid`, not their actual entries.
- `SetMesh`, `GetComponent`, `Instantiate`, `new GameObject`, `FindObjectOfType`, `DestroyImmediate` and the `MapDisplay`/`TextureGenerator` calls are engine I/O. Only the buffers they read are modelled.
- `MapGeneration.MapGenerator.GenerateMap`:
  - it receives the noise map instead of calling `Noise.GenerateNoiseMap`;
  - the `drawMode` display branches are left out. One of them calls `Generate3DPreview`, which is modelled as its own method.
- `MapGeneration.MapGenerator.Generate3DPreview`:
  - it returns the placements and the meshers instead of parenting GameObjects;
  - it assumes the prefab always has a `MarchingCubesMesh`, so the `meshBuilder != null` check is not modelled.
- `MapGeneration.MapGenerator.GenerateChunkData` and `MapGeneration.MapGenerator.Generate3DPreview` do not model the `OverflowException` that `Noise.GetNoiseAtPoint` throws for a negative octave count, when it allocates its octave-offset array. Before `OnValidate` has clamped `octaves`, the source's chunk sampling throws for every column it samples. The model's `NoiseFn` is total, so it returns `ChunkGrid` instead.
- `MapGeneration.MapGenerator.GenerateChunkData` requires `size + 1 >= 0` and `height + 1 >= 0`. The source throws `OverflowException` when it allocates an array with a negative dimension, and that exception is not modelled.
- `MapGeneration.ChunkGrid` and `MapGeneration.MapGenerator.BuildPreviewChunk` carry the same requirement, for the same reason.
- `MapGeneration.MapGenerator.Generate3DPreview` and `MapGeneration.MapGenerator.PreviewRow` require it only when some chunk is built (`chunksPerSide > 0`). The source's exception from the first chunk is not modelled.
- `Mesher.MarchingCubesMesh.BuildChunk` requires the grid to cover every cube the loops visit. The source would throw `IndexOutOfRangeException` otherwise, and that exception is not modelled.
- `Mesher.MarchingCubesMesh.MarchCubes` and its helpers take a ghost copy of the density grid that mirrors the array. It only names the array's contents in the specification.
- `Mesher.MarchingCubesMesh.GetConfigurationIndex` accumulates in an 8-bit vector. The source uses an `int`, but both take the same values for eight bits.
- The model uses reals, not single-precision floats, so rounding is not modelled. Division by zero in the vertex colour is modelled (infinities and NaN). A NaN or infinite noise value is not: noise is a real.
- 32-bit overflow of `mapWidth * mapHeight`, `chunksPerSide * chunkSize` and `x * chunkSize` is not modelled. Integers are unbounded.
- The field `autoUpdate` and the `IslandManager` reference are editor plumbing. `Generate3DPreview` receives the chunk settings as arguments instead.
- IslandManager1.cs repeats the preview layout for the game-time island and is not part of this model.
