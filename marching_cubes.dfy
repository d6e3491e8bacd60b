/**
 * The marching-cubes mesher of MarchingCubesMesh.cs: for every unit cube of a
 * density grid it builds an 8-bit configuration index from the corners above
 * the threshold and emits the midpoints of the edges the triangulation table
 * lists for that index, each as a fresh vertex with a sequential triangle
 * index and a biome colour.
 */
module Mesher {
  import opened Geometry
  import opened Biomes
  import opened Wrappers

  // ---------------------------------------------------------------------
  // The lookup tables (the static class MarchingTable)
  // ---------------------------------------------------------------------

  /**
   * MarchingTable.Corners (8 integer corner offsets), MarchingTable.Edges
   * (12 edges given by the positions of their two endpoints) and
   * MarchingTable.Triangles (one row of edge indices per configuration,
   * read up to a -1 sentinel).
   */
  datatype MarchingTable = MarchingTable(corners: seq<Vec3Int>, edges: seq<(Vec3, Vec3)>, triangles: seq<seq<int>>) {
    /** The shape the mesher relies on when it indexes the tables. */
    predicate Valid() {
      && |corners| == 8
      && (forall i | 0 <= i < 8 :: IsUnitOffset(corners[i]))
      && |edges| == 12
      && (forall e | 0 <= e < 12 :: IsUnitCorner(edges[e].0) && IsUnitCorner(edges[e].1))
      && |triangles| == 256
      && (forall c | 0 <= c < 256 :: ValidRow(triangles[c]))
    }
  }

  /** A triangulation row: at least 15 slots, each the sentinel -1 or an edge index. */
  predicate ValidRow(row: seq<int>) {
    |row| >= 15 && forall k | 0 <= k < 15 :: row[k] == -1 || 0 <= row[k] < 12
  }

  /** The tables proper are not part of this model, only their shape. */
  type CubeTable = t: MarchingTable | t.Valid()
    witness MarchingTable(
      seq(8, _ => Vec3Int(0, 0, 0)),
      seq(12, _ => (Vec3(0.0, 0.0, 0.0), Vec3(1.0, 1.0, 1.0))),
      seq(256, _ => seq(15, _ => -1)))

  // ---------------------------------------------------------------------
  // The configuration index (GetConfigurationIndex)
  // ---------------------------------------------------------------------

  function Pow2(n: nat): (p: nat)
    ensures p >= 1
  {
    if n == 0 then 1 else 2 * Pow2(n - 1)
  }

  /** Bit `i` of a non-negative integer. */
  predicate IsBitSet(index: int, i: nat)
    decreases i
  {
    if i == 0 then index % 2 == 1 else IsBitSet(index / 2, i - 1)
  }

  /** What corner `i` adds to the index: 2^i when its density is above the threshold. */
  function CornerWeight(density: real, threshold: real, i: nat): nat
  {
    if density > threshold then Pow2(i) else 0
  }

  /** The configuration index built from the first `n` corners. */
  function PrefixIndex(corners: seq<real>, threshold: real, n: nat): int
    requires n <= |corners|
  {
    if n == 0 then 0 else PrefixIndex(corners, threshold, n - 1) + CornerWeight(corners[n - 1], threshold, n - 1)
  }

  /** Adding b * 2^m to a value below 2^m sets bit m to b and keeps the lower bits. */
  lemma {:induction false} AddHighBit(low: int, b: int, m: nat)
    requires 0 <= low < Pow2(m) && (b == 0 || b == 1)
    ensures IsBitSet(low + b * Pow2(m), m) <==> b == 1
    ensures forall j | 0 <= j < m :: IsBitSet(low + b * Pow2(m), j) <==> IsBitSet(low, j)
  {
    if m > 0 {
      var v := low + b * Pow2(m);
      assert v % 2 == low % 2 && v / 2 == low / 2 + b * Pow2(m - 1);
      AddHighBit(low / 2, b, m - 1);
      forall j | 0 < j < m ensures IsBitSet(v, j) <==> IsBitSet(low, j) {
      }
    }
  }

  /** The first n corners give an n-bit index whose bit j records corner j. */
  lemma {:induction false} PrefixIndexBits(corners: seq<real>, threshold: real, n: nat)
    requires n <= |corners|
    ensures 0 <= PrefixIndex(corners, threshold, n) < Pow2(n)
    ensures forall j | 0 <= j < n :: IsBitSet(PrefixIndex(corners, threshold, n), j) <==> corners[j] > threshold
  {
    if n > 0 {
      PrefixIndexBits(corners, threshold, n - 1);
      var b := if corners[n - 1] > threshold then 1 else 0;
      assert PrefixIndex(corners, threshold, n) == PrefixIndex(corners, threshold, n - 1) + b * Pow2(n - 1);
      AddHighBit(PrefixIndex(corners, threshold, n - 1), b, n - 1);
    }
  }

  /** The configuration index of a cube with the given corner densities. */
  function ConfigurationIndexOf(corners: seq<real>, threshold: real): (index: int)
    requires |corners| == 8
    ensures 0 <= index < 256
  {
    PrefixIndexBits(corners, threshold, |corners|);
    PrefixIndex(corners, threshold, |corners|)
  }

  /** Bit i of the configuration index is set exactly when corner i is strictly above the threshold. */
  lemma ConfigurationIndexBits(corners: seq<real>, threshold: real)
    requires |corners| == 8
    ensures forall i | 0 <= i < 8 :: IsBitSet(ConfigurationIndexOf(corners, threshold), i) <==> corners[i] > threshold
  {
    PrefixIndexBits(corners, threshold, |corners|);
  }

  lemma {:induction false} UniformPrefix(corners: seq<real>, threshold: real, n: nat)
    requires n <= |corners|
    ensures (forall j | 0 <= j < n :: corners[j] > threshold) ==> PrefixIndex(corners, threshold, n) == Pow2(n) - 1
    ensures (forall j | 0 <= j < n :: corners[j] <= threshold) ==> PrefixIndex(corners, threshold, n) == 0
  {
    if n > 0 {
      UniformPrefix(corners, threshold, n - 1);
    }
  }

  /** Every one of the low n bits of 2^n - 1 is set. */
  lemma {:induction false} AllOnes(n: nat, ones: int)
    requires ones == Pow2(n) - 1
    ensures forall j | 0 <= j < n :: IsBitSet(ones, j)
  {
    if n > 0 {
      AllOnes(n - 1, ones / 2);
    }
  }

  /**
   * The two degenerate configurations: 255 exactly when every corner is above
   * the threshold, 0 exactly when none is (a corner equal to the threshold
   * counts as not above).
   */
  lemma DegenerateConfigurations(corners: seq<real>, threshold: real)
    requires |corners| == 8
    ensures ConfigurationIndexOf(corners, threshold) == 255 <==> forall i | 0 <= i < 8 :: corners[i] > threshold
    ensures ConfigurationIndexOf(corners, threshold) == 0 <==> forall i | 0 <= i < 8 :: corners[i] <= threshold
  {
    UniformPrefix(corners, threshold, 8);
    ConfigurationIndexBits(corners, threshold);
    AllOnes(8, 255);
    assert Pow2(8) == 256;
    forall i | 0 <= i < 8 ensures !IsBitSet(0, i) {
      ZeroHasNoBits(i);
    }
  }

  /** No bit of 0 is set. */
  lemma {:induction false} ZeroHasNoBits(i: nat)
    ensures !IsBitSet(0, i)
  {
    if i > 0 {
      ZeroHasNoBits(i - 1);
    }
  }

  /** 2^i for the eight corner positions, as constants. */
  function CornerMask(i: nat): (mask: int)
    requires i < 8
    ensures mask == Pow2(i)
  {
    assert Pow2(1) == 2 && Pow2(2) == 4 && Pow2(3) == 8 && Pow2(4) == 16;
    assert Pow2(5) == 32 && Pow2(6) == 64 && Pow2(7) == 128;
    match i
    case 0 => 1 case 1 => 2 case 2 => 4 case 3 => 8
    case 4 => 16 case 5 => 32 case 6 => 64 case _ => 128
  }

  /** Or-ing bit i into an 8-bit value below 2^i adds 2^i. */
  lemma OrFreshBit(bits: bv8, i: nat)
    requires i < 8 && bits as int < CornerMask(i)
    ensures (bits | (1 << i)) as int == bits as int + CornerMask(i)
  {
    if i == 0 {
      assert bits == 0;
    } else if i < 4 {
      assert bits < (1 << i) && (bits | (1 << i)) == bits + (1 << i);
    } else {
      assert bits < (1 << i) && (bits | (1 << i)) == bits + (1 << i);
    }
  }

  // ---------------------------------------------------------------------
  // What one cube emits (MarchCube)
  // ---------------------------------------------------------------------

  /** Every entry is one of the twelve cube edges. */
  predicate IsEdgeList(edges: seq<int>) {
    forall j | 0 <= j < |edges| :: 0 <= edges[j] < 12
  }

  /** The entries of `row` from slot `k` up to the first -1 or slot 15. */
  function EdgesFrom(row: seq<int>, k: nat): (edges: seq<int>)
    requires k <= 15 && ValidRow(row)
    ensures k + |edges| <= 15 && edges == row[k..k + |edges|]
    ensures IsEdgeList(edges)
    ensures k + |edges| < 15 ==> row[k + |edges|] == -1
    decreases 15 - k
  {
    if k == 15 || row[k] == -1 then [] else [row[k]] + EdgesFrom(row, k + 1)
  }

  /**
   * The edges a triangulation row lists: its first slots up to the -1
   * sentinel, or all 15 slots when there is none. At most five triangles.
   */
  function TableEdges(row: seq<int>): (edges: seq<int>)
    requires ValidRow(row)
    ensures |edges| <= 15 && edges == row[..|edges|]
    ensures IsEdgeList(edges)
    ensures |edges| < 15 ==> row[|edges|] == -1
  {
    EdgesFrom(row, 0)
  }

  /** The vertex emitted for edge `e` of the cube at `position`: the edge's midpoint. */
  function EdgeMidpoint(table: CubeTable, position: Vec3, e: int): Vec3
    requires 0 <= e < 12
  {
    var edgeStart := position.Plus(table.edges[e].0);
    var edgeEnd := position.Plus(table.edges[e].1);
    edgeStart.Plus(edgeEnd).Half()
  }

  /** A midpoint lies in the unit cube at `position`. */
  lemma MidpointInCube(table: CubeTable, position: Vec3, e: int)
    requires 0 <= e < 12
    ensures InBox(EdgeMidpoint(table, position, e), position, Vec3(1.0, 1.0, 1.0))
  {
    assert IsUnitCorner(table.edges[e].0) && IsUnitCorner(table.edges[e].1);
  }

  /** The midpoints of the first `n` listed edges, in list order. */
  function Midpoints(table: CubeTable, position: Vec3, edges: seq<int>, n: nat): (vs: seq<Vec3>)
    requires IsEdgeList(edges) && n <= |edges|
    ensures |vs| == n
  {
    if n == 0 then [] else Midpoints(table, position, edges, n - 1) + [EdgeMidpoint(table, position, edges[n - 1])]
  }

  /** Vertex j is the midpoint of listed edge j. */
  lemma {:induction false} MidpointsPointwise(table: CubeTable, position: Vec3, edges: seq<int>, n: nat)
    requires IsEdgeList(edges) && n <= |edges|
    ensures forall j | 0 <= j < n :: Midpoints(table, position, edges, n)[j] == EdgeMidpoint(table, position, edges[j])
  {
    if n > 0 {
      MidpointsPointwise(table, position, edges, n - 1);
    }
  }

  /**
   * The vertices MarchCube appends for the cube at `position` with the given
   * configuration: nothing for 0 and 255, otherwise the midpoints of the
   * row's edges in table order.
   */
  function CubeVertices(table: CubeTable, position: Vec3, configIndex: int): (vs: seq<Vec3>)
    requires 0 <= configIndex < 256
    ensures |vs| <= 15
    ensures configIndex == 0 || configIndex == 255 ==> vs == []
  {
    if configIndex == 0 || configIndex == 255 then []
    else
      var edges := TableEdges(table.triangles[configIndex]);
      Midpoints(table, position, edges, |edges|)
  }

  /** Every vertex a cube emits lies inside that cube. */
  lemma CubeVerticesInCube(table: CubeTable, position: Vec3, configIndex: int)
    requires 0 <= configIndex < 256
    ensures forall j | 0 <= j < |CubeVertices(table, position, configIndex)| ::
              InBox(CubeVertices(table, position, configIndex)[j], position, Vec3(1.0, 1.0, 1.0))
  {
    if configIndex != 0 && configIndex != 255 {
      var edges := TableEdges(table.triangles[configIndex]);
      MidpointsPointwise(table, position, edges, |edges|);
      forall j | 0 <= j < |edges| ensures InBox(EdgeMidpoint(table, position, edges[j]), position, Vec3(1.0, 1.0, 1.0)) {
        MidpointInCube(table, position, edges[j]);
      }
    }
  }

  lemma AppendAssociative<T>(a: seq<T>, b: seq<T>, c: seq<T>)
    ensures a + b + c == a + (b + c)
  {
  }

  /** The triangle indices of a buffer holding `n` vertices: 0, 1, ..., n-1. */
  function Indices(n: nat): (r: seq<int>)
    ensures |r| == n
  {
    if n == 0 then [] else Indices(n - 1) + [n - 1]
  }

  /** Index k of Indices(n) is k: every vertex is used exactly once, in order. */
  lemma {:induction false} IndicesSequential(n: nat)
    ensures forall k | 0 <= k < n :: Indices(n)[k] == k
  {
    if n > 0 {
      IndicesSequential(n - 1);
    }
  }

  // ---------------------------------------------------------------------
  // The density grid and the vertices MarchCubes emits for it
  // ---------------------------------------------------------------------

  /** A chunk's densities, heights[x, y, z] read as grid[x][y][z]. */
  type Densities = seq<seq<seq<real>>>

  /** The density stored at (a, b, c), or 0.0 outside the grid (never read by the mesher). */
  function Cell(grid: Densities, a: nat, b: nat, c: nat): real {
    if a < |grid| && b < |grid[a]| && c < |grid[a][b]| then grid[a][b][c] else 0.0
  }

  /** `grid` holds exactly the current contents of the density array `h`. */
  predicate Mirrors(grid: Densities, h: array3<real>)
    reads h
  {
    forall a: nat, b: nat, c: nat | a < h.Length0 && b < h.Length1 && c < h.Length2 :: Cell(grid, a, b, c) == h[a, b, c]
  }

  /** The current contents of the density array `h`, as a value. */
  ghost function Snapshot(h: array3<real>): (grid: Densities)
    reads h
    ensures Mirrors(grid, h)
  {
    seq(h.Length0, a requires 0 <= a < h.Length0 reads h =>
      seq(h.Length1, b requires 0 <= b < h.Length1 reads h =>
        seq(h.Length2, c requires 0 <= c < h.Length2 reads h => h[a, b, c])))
  }

  /** `grid` is an n0 x n1 x n2 block. */
  predicate HasShape(grid: Densities, n0: int, n1: int, n2: int) {
    && |grid| == n0
    && forall a | 0 <= a < |grid| :: |grid[a]| == n1 && forall b | 0 <= b < |grid[a]| :: |grid[a][b]| == n2
  }

  /** A grid of the array's shape that agrees with it cell by cell is its snapshot. */
  lemma SnapshotIs(h: array3<real>, grid: Densities)
    requires HasShape(grid, h.Length0, h.Length1, h.Length2)
    requires forall a, b, c | 0 <= a < h.Length0 && 0 <= b < h.Length1 && 0 <= c < h.Length2 :: grid[a][b][c] == h[a, b, c]
    ensures Snapshot(h) == grid
  {
    var s := Snapshot(h);
    forall a | 0 <= a < |grid| ensures s[a] == grid[a] {
      forall b | 0 <= b < |grid[a]| ensures s[a][b] == grid[a][b] {
        assert |s[a][b]| == |grid[a][b]|;
      }
      assert |s[a]| == |grid[a]|;
    }
    assert |s| == |grid|;
  }

  /** The density at corner `i` of the cube at (x, y, z). */
  function Corner(table: CubeTable, grid: Densities, x: nat, y: nat, z: nat, i: nat): real
    requires i < 8
  {
    var c := table.corners[i];
    Cell(grid, x + c.x, y + c.y, z + c.z)
  }

  /** The eight corner densities of the cube at (x, y, z), in table order. */
  function CubeCorners(table: CubeTable, grid: Densities, x: nat, y: nat, z: nat): (cs: seq<real>)
    ensures |cs| == 8 && forall i | 0 <= i < 8 :: cs[i] == Corner(table, grid, x, y, z, i)
  {
    seq(8, i requires 0 <= i < 8 => Corner(table, grid, x, y, z, i))
  }

  /** What the cube at (x, y, z) emits. */
  function CubeAt(table: CubeTable, grid: Densities, x: nat, y: nat, z: nat, threshold: real): seq<Vec3>
  {
    CubeVertices(table, Vec3(x as real, y as real, z as real), ConfigurationIndexOf(CubeCorners(table, grid, x, y, z), threshold))
  }

  /** Cubes (x, y, 0) .. (x, y, zEnd - 1), in loop order. */
  function RowVertices(table: CubeTable, grid: Densities, x: nat, y: nat, zEnd: int, threshold: real): seq<Vec3>
  {
    if zEnd <= 0 then [] else RowVertices(table, grid, x, y, zEnd - 1, threshold) + CubeAt(table, grid, x, y, zEnd - 1, threshold)
  }

  /** Rows y = 0 .. yEnd - 1 of the slab at x, each `width` cubes long. */
  function SlabVertices(table: CubeTable, grid: Densities, x: nat, yEnd: int, width: int, threshold: real): seq<Vec3>
  {
    if yEnd <= 0 then []
    else SlabVertices(table, grid, x, yEnd - 1, width, threshold) + RowVertices(table, grid, x, yEnd - 1, width, threshold)
  }

  /** Slabs x = 0 .. xEnd - 1. */
  function GridVertices(table: CubeTable, grid: Densities, xEnd: nat, width: int, height: int, threshold: real): seq<Vec3>
  {
    if xEnd == 0 then []
    else GridVertices(table, grid, xEnd - 1, width, height, threshold) + SlabVertices(table, grid, xEnd - 1, height, width, threshold)
  }

  /** Every vertex MarchCubes emits for a noiseWidth x noiseHeight x noiseWidth chunk, in loop order. */
  function MeshVertices(table: CubeTable, grid: Densities, noiseWidth: int, noiseHeight: int, threshold: real): seq<Vec3>
  {
    if noiseWidth <= 0 then []
    else GridVertices(table, grid, noiseWidth, noiseWidth, noiseHeight, threshold)
  }

  /** The colour of a vertex: band lookup on vertex.y / worldMaxHeight, white when no band matches. */
  function VertexColor(regions: seq<BiomeType>, worldMaxHeight: int, vertex: Vec3): Color
  {
    ColorFor(regions, Divide(vertex.y, worldMaxHeight as real), White)
  }

  /** The biome colour of each vertex, in order. */
  function VertexColors(regions: seq<BiomeType>, worldMaxHeight: int, vs: seq<Vec3>): (cs: seq<Color>)
    ensures |cs| == |vs|
  {
    if vs == [] then [] else VertexColors(regions, worldMaxHeight, vs[..|vs| - 1]) + [VertexColor(regions, worldMaxHeight, vs[|vs| - 1])]
  }

  /** Colour k belongs to vertex k. */
  lemma {:induction false} VertexColorsPointwise(regions: seq<BiomeType>, worldMaxHeight: int, vs: seq<Vec3>)
    ensures forall k | 0 <= k < |vs| :: VertexColors(regions, worldMaxHeight, vs)[k] == VertexColor(regions, worldMaxHeight, vs[k])
  {
    if vs != [] {
      VertexColorsPointwise(regions, worldMaxHeight, vs[..|vs| - 1]);
    }
  }

  /**
   * A chunk of height zero divides by zero: a vertex at or above the floor
   * samples +infinity or NaN and is white, a vertex below it samples
   * -infinity and takes the first band. Otherwise the sample is the
   * vertex's relative height.
   */
  lemma VertexColorCases(regions: seq<BiomeType>, worldMaxHeight: int, vertex: Vec3)
    ensures worldMaxHeight != 0 ==>
              VertexColor(regions, worldMaxHeight, vertex) == ColorFor(regions, Finite(vertex.y / worldMaxHeight as real), White)
    ensures worldMaxHeight == 0 && vertex.y >= 0.0 ==> VertexColor(regions, worldMaxHeight, vertex) == White
    ensures worldMaxHeight == 0 && vertex.y < 0.0 && |regions| > 0 ==> VertexColor(regions, worldMaxHeight, vertex) == regions[0].color
  {
    var sample := Divide(vertex.y, worldMaxHeight as real);
    ColorForCases(regions, sample, White);
    if worldMaxHeight == 0 && vertex.y < 0.0 && |regions| > 0 {
      assert IsFirstMatch(regions, sample, 0);
    }
  }

  // ---------------------------------------------------------------------
  // Properties of a whole chunk's mesh
  // ---------------------------------------------------------------------

  /** Every vertex lies in the box [0, size] on each axis. */
  predicate AllWithin(vs: seq<Vec3>, size: Vec3) {
    forall k | 0 <= k < |vs| :: InBox(vs[k], Vec3(0.0, 0.0, 0.0), size)
  }

  lemma AllWithinAppend(a: seq<Vec3>, b: seq<Vec3>, size: Vec3)
    requires AllWithin(a, size) && AllWithin(b, size)
    ensures AllWithin(a + b, size)
  {
    forall k | 0 <= k < |a + b| ensures InBox((a + b)[k], Vec3(0.0, 0.0, 0.0), size) {
      if k >= |a| {
        assert (a + b)[k] == b[k - |a|];
      }
    }
  }

  lemma {:induction false} RowWithin(table: CubeTable, grid: Densities, x: nat, y: nat, zEnd: int, threshold: real, size: Vec3)
    requires x as real + 1.0 <= size.x && y as real + 1.0 <= size.y && zEnd as real <= size.z
    ensures AllWithin(RowVertices(table, grid, x, y, zEnd, threshold), size)
  {
    hide ConfigurationIndexOf;
    hide CubeCorners;
    hide Midpoints;
    hide TableEdges;
    if zEnd > 0 {
      RowWithin(table, grid, x, y, zEnd - 1, threshold, size);
      var position := Vec3(x as real, y as real, (zEnd - 1) as real);
      var configIndex := ConfigurationIndexOf(CubeCorners(table, grid, x, y, zEnd - 1), threshold);
      CubeVerticesInCube(table, position, configIndex);
      AllWithinAppend(RowVertices(table, grid, x, y, zEnd - 1, threshold), CubeAt(table, grid, x, y, zEnd - 1, threshold), size);
    }
  }

  lemma {:induction false} SlabWithin(table: CubeTable, grid: Densities, x: nat, yEnd: int, width: int, threshold: real, size: Vec3)
    requires x as real + 1.0 <= size.x && yEnd as real <= size.y && width as real <= size.z
    ensures AllWithin(SlabVertices(table, grid, x, yEnd, width, threshold), size)
  {
    hide RowVertices;
    hide CubeAt;
    if yEnd > 0 {
      SlabWithin(table, grid, x, yEnd - 1, width, threshold, size);
      RowWithin(table, grid, x, yEnd - 1, width, threshold, size);
      AllWithinAppend(SlabVertices(table, grid, x, yEnd - 1, width, threshold), RowVertices(table, grid, x, yEnd - 1, width, threshold), size);
    }
  }

  lemma {:induction false} GridWithin(table: CubeTable, grid: Densities, xEnd: nat, width: int, height: int, threshold: real, size: Vec3)
    requires xEnd as real <= size.x && height as real <= size.y && width as real <= size.z
    ensures AllWithin(GridVertices(table, grid, xEnd, width, height, threshold), size)
  {
    hide SlabVertices;
    hide RowVertices;
    if xEnd > 0 {
      GridWithin(table, grid, xEnd - 1, width, height, threshold, size);
      SlabWithin(table, grid, xEnd - 1, height, width, threshold, size);
      AllWithinAppend(GridVertices(table, grid, xEnd - 1, width, height, threshold), SlabVertices(table, grid, xEnd - 1, height, width, threshold), size);
    }
  }

  /** Every vertex of a chunk's mesh lies inside the chunk [0, noiseWidth] x [0, noiseHeight] x [0, noiseWidth]. */
  lemma MeshWithinChunk(table: CubeTable, grid: Densities, noiseWidth: int, noiseHeight: int, threshold: real)
    ensures AllWithin(MeshVertices(table, grid, noiseWidth, noiseHeight, threshold),
                      Vec3(noiseWidth as real, noiseHeight as real, noiseWidth as real))
  {
    hide GridVertices;
    if noiseWidth > 0 {
      GridWithin(table, grid, noiseWidth, noiseWidth, noiseHeight, threshold,
                 Vec3(noiseWidth as real, noiseHeight as real, noiseWidth as real));
    }
  }

  lemma {:induction false} RowSize(table: CubeTable, grid: Densities, x: nat, y: nat, zEnd: int, threshold: real)
    requires zEnd >= 0
    ensures |RowVertices(table, grid, x, y, zEnd, threshold)| <= 15 * zEnd
  {
    hide CubeVertices;
    hide ConfigurationIndexOf;
    hide CubeCorners;
    if zEnd > 0 {
      RowSize(table, grid, x, y, zEnd - 1, threshold);
    }
  }

  lemma {:induction false} SlabSize(table: CubeTable, grid: Densities, x: nat, yEnd: int, width: int, threshold: real)
    requires yEnd >= 0 && width >= 0
    ensures |SlabVertices(table, grid, x, yEnd, width, threshold)| <= 15 * width * yEnd
  {
    hide RowVertices;
    hide CubeAt;
    if yEnd > 0 {
      SlabSize(table, grid, x, yEnd - 1, width, threshold);
      RowSize(table, grid, x, yEnd - 1, width, threshold);
      assert 15 * width * yEnd == 15 * width * (yEnd - 1) + 15 * width;
    }
  }

  lemma {:induction false} GridSize(table: CubeTable, grid: Densities, xEnd: nat, width: int, height: int, threshold: real)
    requires width >= 0 && height >= 0
    ensures |GridVertices(table, grid, xEnd, width, height, threshold)| <= 15 * width * height * xEnd
  {
    hide SlabVertices;
    hide RowVertices;
    if xEnd > 0 {
      GridSize(table, grid, xEnd - 1, width, height, threshold);
      SlabSize(table, grid, xEnd - 1, height, width, threshold);
      assert 15 * width * height * xEnd == 15 * width * height * (xEnd - 1) + 15 * width * height;
    }
  }

  /** At most five triangles (15 vertices) per cube: a chunk has at most 15 * noiseWidth^2 * noiseHeight vertices. */
  lemma MeshSize(table: CubeTable, grid: Densities, noiseWidth: int, noiseHeight: int, threshold: real)
    requires noiseHeight >= 0
    ensures |MeshVertices(table, grid, noiseWidth, noiseHeight, threshold)| <= if noiseWidth > 0 then 15 * noiseWidth * noiseWidth * noiseHeight else 0
  {
    hide GridVertices;
    hide SlabVertices;
    if noiseWidth > 0 {
      GridSize(table, grid, noiseWidth, noiseWidth, noiseHeight, threshold);
    }
  }

  lemma {:induction false} FlatGrid(table: CubeTable, grid: Densities, xEnd: nat, width: int, height: int, threshold: real)
    requires height <= 0
    ensures GridVertices(table, grid, xEnd, width, height, threshold) == []
  {
    hide RowVertices;
    if xEnd > 0 {
      FlatGrid(table, grid, xEnd - 1, width, height, threshold);
    }
  }

  /**
   * A chunk of height zero or less has no vertices: MarchCubes visits no
   * cube. So every vertex BuildChunk colours has worldMaxHeight > 0, and the
   * division in GetBiomeColorAtVertex is finite.
   */
  lemma FlatChunkIsEmpty(table: CubeTable, grid: Densities, noiseWidth: int, noiseHeight: int, threshold: real)
    ensures noiseHeight <= 0 ==> MeshVertices(table, grid, noiseWidth, noiseHeight, threshold) == []
    ensures |MeshVertices(table, grid, noiseWidth, noiseHeight, threshold)| > 0 ==> noiseHeight > 0
    ensures forall k | 0 <= k < |MeshVertices(table, grid, noiseWidth, noiseHeight, threshold)| ::
              Divide(MeshVertices(table, grid, noiseWidth, noiseHeight, threshold)[k].y, noiseHeight as real).Finite?
  {
    hide GridVertices;
    if noiseHeight <= 0 && noiseWidth > 0 {
      FlatGrid(table, grid, noiseWidth, noiseWidth, noiseHeight, threshold);
    }
  }

  // ---------------------------------------------------------------------
  // The mesher (class MarchingCubesMesh)
  // ---------------------------------------------------------------------

  class MarchingCubesMesh {
    const table: CubeTable
    var heights: array3<real>
    var vertices: seq<Vec3>
    var triangles: seq<int>
    var colors: seq<Color>
    var biomeRegions: seq<BiomeType>
    var worldMaxHeight: int

    /**
     * The three mesh buffers are parallel, the triangle indices are
     * sequential and every colour is the biome colour of its vertex.
     */
    predicate Valid()
      reads this
    {
      && triangles == Indices(|vertices|)
      && colors == VertexColors(biomeRegions, worldMaxHeight, vertices)
    }

    constructor (table: CubeTable)
      ensures this.table == table
      ensures Valid() && vertices == [] && biomeRegions == [] && worldMaxHeight == 0
    {
      this.table := table;
      heights := new real[0, 0, 0];
      vertices, triangles, colors := [], [], [];
      biomeRegions, worldMaxHeight := [], 0;
    }

    /** The grid is large enough for every cube the loops of MarchCubes visit. */
    predicate Covers(noiseWidth: int, noiseHeight: int)
      reads this`heights
    {
      noiseWidth <= 0 || noiseHeight <= 0 ||
      (noiseWidth < heights.Length0 && noiseHeight < heights.Length1 && noiseWidth < heights.Length2)
    }

    /**
     * Reads the table and the grid at BuildChunk's arguments, rebuilds the
     * three buffers and leaves the mesh submission (SetMesh) out.
     */
    method BuildChunk(data: array3<real>, width: int, height: int, threshold: real, regions: seq<BiomeType>)
      requires width <= 0 || height <= 0 || (width < data.Length0 && height < data.Length1 && width < data.Length2)
      modifies this
      ensures heights == data && biomeRegions == regions && worldMaxHeight == height
      ensures Valid() && Covers(width, height)
      ensures vertices == MeshVertices(table, Snapshot(heights), width, height, threshold)
    {
      this.heights := data;
      this.biomeRegions := regions;
      this.worldMaxHeight := height;
      ghost var grid := Snapshot(heights);
      MarchCubes(grid, width, height, threshold);
    }

    /**
     * Clears the buffers, then marches every cube x, z in [0, noiseWidth),
     * y in [0, noiseHeight). Every corner read is in bounds.
     */
    method MarchCubes(ghost grid: Densities, noiseWidth: int, noiseHeight: int, threshold: real)
      requires Covers(noiseWidth, noiseHeight) && Mirrors(grid, heights)
      modifies this`vertices, this`triangles, this`colors
      ensures Valid()
      ensures vertices == MeshVertices(table, grid, noiseWidth, noiseHeight, threshold)
    {
      hide CubeVertices;
      hide ConfigurationIndexOf;
      hide SlabVertices;
      hide Indices;
      hide VertexColors;
      vertices := [];
      triangles := [];
      colors := [];

      var x := 0;
      while x < noiseWidth
        invariant 0 <= x && (noiseWidth > 0 ==> x <= noiseWidth) && (noiseWidth <= 0 ==> x == 0)
        invariant Valid()
        invariant vertices == GridVertices(table, grid, x, noiseWidth, noiseHeight, threshold)
      {
        MarchSlab(grid, x, noiseWidth, noiseHeight, threshold);
        x := x + 1;
      }
    }

    /**
     * The middle loop of MarchCubes: marches the rows y = 0 .. noiseHeight - 1
     * of the slab at x.
     */
    method MarchSlab(ghost grid: Densities, x: nat, noiseWidth: nat, noiseHeight: int, threshold: real)
      requires Valid() && Mirrors(grid, heights)
      requires noiseHeight > 0 ==> x + 1 < heights.Length0 && noiseHeight < heights.Length1 && noiseWidth < heights.Length2
      modifies this`vertices, this`triangles, this`colors
      ensures Valid()
      ensures vertices == old(vertices) + SlabVertices(table, grid, x, noiseHeight, noiseWidth, threshold)
    {
      hide CubeVertices;
      hide ConfigurationIndexOf;
      hide Valid;
      var y := 0;
      while y < noiseHeight
        invariant 0 <= y && (noiseHeight > 0 ==> y <= noiseHeight) && (noiseHeight <= 0 ==> y == 0)
        invariant Valid()
        invariant vertices == old(vertices) + SlabVertices(table, grid, x, y, noiseWidth, threshold)
      {
        MarchRow(grid, x, y, noiseWidth, threshold);
        AppendAssociative(old(vertices), SlabVertices(table, grid, x, y, noiseWidth, threshold),
                          RowVertices(table, grid, x, y, noiseWidth, threshold));
        y := y + 1;
      }
    }

    /**
     * The innermost loop of MarchCubes: marches the cubes (x, y, 0) ..
     * (x, y, noiseWidth - 1) in order.
     */
    method MarchRow(ghost grid: Densities, x: nat, y: nat, noiseWidth: nat, threshold: real)
      requires Valid() && Mirrors(grid, heights)
      requires x + 1 < heights.Length0 && y + 1 < heights.Length1 && noiseWidth < heights.Length2
      modifies this`vertices, this`triangles, this`colors
      ensures Valid()
      ensures vertices == old(vertices) + RowVertices(table, grid, x, y, noiseWidth, threshold)
    {
      hide CubeVertices;
      hide ConfigurationIndexOf;
      hide Valid;
      var z := 0;
      while z < noiseWidth
        invariant 0 <= z <= noiseWidth
        invariant Valid()
        invariant vertices == old(vertices) + RowVertices(table, grid, x, y, z, threshold)
      {
        var cubeCorners := ReadCubeCorners(grid, x, y, z);
        var configIndex := GetConfigurationIndex(cubeCorners, threshold);
        ghost var before := vertices;
        MarchCube(Vec3(x as real, y as real, z as real), configIndex);
        assert vertices == before + CubeAt(table, grid, x, y, z, threshold);
        AppendAssociative(old(vertices), RowVertices(table, grid, x, y, z, threshold), CubeAt(table, grid, x, y, z, threshold));
        z := z + 1;
      }
    }

    /** Reads the eight corner densities of the cube at (x, y, z) into a fresh array, in table order. */
    method ReadCubeCorners(ghost grid: Densities, x: nat, y: nat, z: nat) returns (cubeCorners: array<real>)
      requires Mirrors(grid, heights) && x + 1 < heights.Length0 && y + 1 < heights.Length1 && z + 1 < heights.Length2
      ensures fresh(cubeCorners) && cubeCorners.Length == 8
      ensures cubeCorners[..] == CubeCorners(table, grid, x, y, z)
    {
      cubeCorners := new real[8];
      for i := 0 to 8
        invariant forall j | 0 <= j < i :: cubeCorners[j] == Corner(table, grid, x, y, z, j)
      {
        var corner := Vec3Int(x, y, z).Plus(table.corners[i]);
        assert IsUnitOffset(table.corners[i]);
        cubeCorners[i] := heights[corner.x, corner.y, corner.z];
      }
    }

    /**
     * Appends the vertices of one cube: nothing for configuration 0 or 255,
     * otherwise one fresh vertex per table entry before the -1 sentinel, each
     * with the next triangle index and its biome colour.
     */
    method MarchCube(position: Vec3, configIndex: int)
      requires Valid() && 0 <= configIndex < 256
      modifies this`vertices, this`triangles, this`colors
      ensures Valid()
      ensures vertices == old(vertices) + CubeVertices(table, position, configIndex)
      ensures old(triangles) <= triangles && old(colors) <= colors
    {
      hide Valid;
      hide TableEdges;
      hide EdgesFrom;
      hide EdgeMidpoint;
      hide VertexColors;
      if configIndex == 0 || configIndex == 255 {
        return;
      }
      ghost var edges := TableEdges(table.triangles[configIndex]);
      var edgeIndex := 0;

      for t := 0 to 5
        invariant edgeIndex == 3 * t && edgeIndex <= |edges|
        invariant Valid()
        invariant vertices == old(vertices) + Midpoints(table, position, edges, edgeIndex)
        invariant old(triangles) <= triangles && old(colors) <= colors
      {
        for v := 0 to 3
          invariant edgeIndex == 3 * t + v && edgeIndex <= |edges|
          invariant Valid()
          invariant vertices == old(vertices) + Midpoints(table, position, edges, edgeIndex)
          invariant old(triangles) <= triangles && old(colors) <= colors
        {
          var triTableValue := table.triangles[configIndex][edgeIndex];
          assert edgeIndex < |edges| ==> edges[edgeIndex] == triTableValue && 0 <= edges[edgeIndex] < 12;
          if triTableValue == -1 {
            return;
          }
          EmitVertex(position, triTableValue);
          edgeIndex := edgeIndex + 1;
        }
      }
    }

    /**
     * Appends the midpoint of edge `e` of the cube at `position` as a fresh
     * vertex, with the next triangle index and its biome colour.
     */
    method EmitVertex(position: Vec3, e: int)
      requires Valid() && 0 <= e < 12
      modifies this`vertices, this`triangles, this`colors
      ensures Valid()
      ensures vertices == old(vertices) + [EdgeMidpoint(table, position, e)]
      ensures old(triangles) <= triangles && old(colors) <= colors
    {
      var edgeStart := position.Plus(table.edges[e].0);
      var edgeEnd := position.Plus(table.edges[e].1);
      var vertex := edgeStart.Plus(edgeEnd).Half();
      ghost var previous := vertices;
      vertices := vertices + [vertex];
      triangles := triangles + [|vertices| - 1];
      var color := GetBiomeColorAtVertex(vertex);
      colors := colors + [color];
      assert vertices[..|vertices| - 1] == previous;
      assert colors == VertexColors(biomeRegions, worldMaxHeight, vertices);
    }

    /**
     * The colour of the first band whose height is at least
     * vertex.y / worldMaxHeight, or white when there is none.
     */
    method GetBiomeColorAtVertex(vertex: Vec3) returns (color: Color)
      ensures color == VertexColor(biomeRegions, worldMaxHeight, vertex)
    {
      var yPercent := Divide(vertex.y, worldMaxHeight as real);
      var biomeSampleValue := yPercent;

      for i := 0 to |biomeRegions|
        invariant forall j | 0 <= j < i :: !AtMost(biomeSampleValue, biomeRegions[j].height)
      {
        if AtMost(biomeSampleValue, biomeRegions[i].height) {
          assert FirstRegion(biomeRegions, biomeSampleValue) == Some(i);
          return biomeRegions[i].color;
        }
      }
      return White;
    }

    /** Bit i of the result is set iff cubeCorners[i] is strictly above the threshold. */
    method GetConfigurationIndex(cubeCorners: array<real>, threshold: real) returns (configIndex: int)
      requires cubeCorners.Length == 8
      ensures 0 <= configIndex < 256
      ensures configIndex == ConfigurationIndexOf(cubeCorners[..], threshold)
      ensures forall i | 0 <= i < 8 :: IsBitSet(configIndex, i) <==> cubeCorners[i] > threshold
    {
      var bits: bv8 := 0;
      for i := 0 to 8
        invariant bits as int == PrefixIndex(cubeCorners[..], threshold, i)
      {
        PrefixIndexBits(cubeCorners[..], threshold, i);
        if cubeCorners[i] > threshold {
          OrFreshBit(bits, i);
          bits := bits | (1 << i);
        }
      }
      configIndex := bits as int;
      PrefixIndexBits(cubeCorners[..], threshold, 8);
    }
  }
}
