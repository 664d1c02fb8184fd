/**
 * One terrain chunk (src/TerrainChunk.cpp): the heightmap mesh built by
 * `generateHeightmap`, the model translation set by the constructor, and the
 * material decision taken by `draw`.
 *
 * Floats are modelled as reals.  The noise generator (FastNoiseLite's
 * `GetNoise`) is an arbitrary deterministic function `Sampler`.  Buffers are
 * sequences; their upload to the GPU (`setupMesh`) is not modelled.
 */
module ChunkMesh {
  import opened GridIndex
  import opened TextureRegistry

  /** `FastNoiseLite::GetNoise(x, y)`: deterministic, otherwise unknown. */
  type Sampler = (real, real) -> real

  /** The inputs a chunk's mesh depends on. */
  datatype ChunkParams = ChunkParams(chunkX: int, chunkZ: int, size: int, noiseFreq: real, noiseAmp: real)

  /** Number of grid vertices along one edge of a chunk of `size` cells. */
  function Side(size: int): int { size + 1 }

  /** World grid coordinate of local column `x`: `chunkX * size + x`. */
  function WorldX(p: ChunkParams, x: int): int { p.chunkX * p.size + x }

  /** World grid coordinate of local row `z`: `chunkZ * size + z`. */
  function WorldZ(p: ChunkParams, z: int): int { p.chunkZ * p.size + z }

  /** Sampler input for world grid coordinate `w`: `w * noiseFreq`. */
  function NoiseCoord(w: int, freq: real): real { (w as real) * freq }

  /** One amplitude scaling: `h * noiseAmp`. */
  function Amplify(h: real, amp: real): real { h * amp }

  /** Height of grid vertex (x, z): the noise sample scaled by the amplitude, and then scaled again. */
  function HeightAt(p: ChunkParams, noise: Sampler, x: int, z: int): real {
    Amplify(Amplify(noise(NoiseCoord(WorldX(p, x), p.noiseFreq), NoiseCoord(WorldZ(p, z), p.noiseFreq)), p.noiseAmp), p.noiseAmp)
  }

  /** Texture coordinate of grid position `c`: `c * (1 / size) * 2`. */
  function TexCoord(size: int, c: int): real
    requires size > 0
  {
    (c as real) * (1.0 / (size as real)) * 2.0
  }

  /** Attribute `slot` of vertex `k` (row-major): x, height, z, u, v. */
  function VertexAttr(p: ChunkParams, noise: Sampler, k: int, slot: int): real
    requires p.size > 0 && 0 <= slot < 5
  {
    var n := Side(p.size);
    var x := k % n;
    var z := k / n;
    if slot == 0 then x as real
    else if slot == 1 then HeightAt(p, noise, x, z)
    else if slot == 2 then z as real
    else if slot == 3 then TexCoord(p.size, x)
    else TexCoord(p.size, z)
  }

  /** Vertex index emitted at `corner` (0..5) of cell `cell` (row-major over a size x size grid of cells). */
  function IndexAt(size: int, cell: int, corner: int): int
    requires size > 0 && 0 <= corner < 6
  {
    var x := cell % size;
    var z := cell / size;
    var topLeft := z * (size + 1) + x;
    var topRight := topLeft + 1;
    var bottomLeft := (z + 1) * (size + 1) + x;
    var bottomRight := bottomLeft + 1;
    [topLeft, bottomLeft, topRight, topRight, bottomLeft, bottomRight][corner]
  }

  /** The first m entries of the `heights` buffer: one height per grid vertex, row-major. */
  function HeightPrefix(p: ChunkParams, noise: Sampler, m: nat): (r: seq<real>)
    requires p.size > 0
    ensures |r| == m
  {
    var n := Side(p.size);
    seq(m, k requires 0 <= k < m => HeightAt(p, noise, k % n, k / n))
  }

  /** The first 5m entries of the `vertices` buffer: five floats for each of the first m vertices. */
  function VertexPrefix(p: ChunkParams, noise: Sampler, m: nat): (r: seq<real>)
    requires p.size > 0
    ensures |r| == 5 * m
  {
    seq(5 * m, i requires 0 <= i < 5 * m => VertexAttr(p, noise, i / 5, i % 5))
  }

  /** The first 6m entries of the `indices` buffer: six indices for each of the first m cells. */
  function IndexPrefix(size: int, m: nat): (r: seq<int>)
    requires size > 0
    ensures |r| == 6 * m
  {
    seq(6 * m, i requires 0 <= i < 6 * m => IndexAt(size, i / 6, i % 6))
  }

  /** The `heights` buffer of a chunk: (size + 1)^2 heights. */
  function Heights(p: ChunkParams, noise: Sampler): (r: seq<real>)
    requires p.size > 0
    ensures |r| == Side(p.size) * Side(p.size)
  {
    HeightPrefix(p, noise, Side(p.size) * Side(p.size))
  }

  /** The `vertices` buffer: 5 * (size + 1)^2 floats. */
  function Vertices(p: ChunkParams, noise: Sampler): (r: seq<real>)
    requires p.size > 0
    ensures |r| == 5 * (Side(p.size) * Side(p.size))
  {
    VertexPrefix(p, noise, Side(p.size) * Side(p.size))
  }

  /** The `indices` buffer: 6 * size^2 indices, two triangles per cell. */
  function Indices(size: int): (r: seq<int>)
    requires size > 0
    ensures |r| == 6 * (size * size)
  {
    IndexPrefix(size, size * size)
  }

  /** Pushing vertex m's height extends the height prefix by one. */
  lemma HeightPrefixStep(p: ChunkParams, noise: Sampler, m: nat)
    requires p.size > 0
    ensures HeightPrefix(p, noise, m + 1) ==
      HeightPrefix(p, noise, m) + [HeightAt(p, noise, m % Side(p.size), m / Side(p.size))]
  {
  }

  /** Pushing vertex m's five attributes extends the vertex prefix by five. */
  lemma VertexPrefixStep(p: ChunkParams, noise: Sampler, m: nat)
    requires p.size > 0
    ensures VertexPrefix(p, noise, m + 1) == VertexPrefix(p, noise, m) +
      [VertexAttr(p, noise, m, 0), VertexAttr(p, noise, m, 1), VertexAttr(p, noise, m, 2),
       VertexAttr(p, noise, m, 3), VertexAttr(p, noise, m, 4)]
  {
    var next := VertexPrefix(p, noise, m + 1);
    var attrs := [VertexAttr(p, noise, m, 0), VertexAttr(p, noise, m, 1), VertexAttr(p, noise, m, 2),
                  VertexAttr(p, noise, m, 3), VertexAttr(p, noise, m, 4)];
    assert next[..5 * m] == VertexPrefix(p, noise, m);
    var tail := next[5 * m..];
    assert tail[0] == attrs[0] by { RowMajor(m, 0, 5); }
    assert tail[1] == attrs[1] by { RowMajor(m, 1, 5); }
    assert tail[2] == attrs[2] by { RowMajor(m, 2, 5); }
    assert tail[3] == attrs[3] by { RowMajor(m, 3, 5); }
    assert tail[4] == attrs[4] by { RowMajor(m, 4, 5); }
    assert tail == attrs;
    assert next == next[..5 * m] + tail;
  }

  /** Entry 6m + j of a prefix covering cell m is corner j of cell m. */
  lemma IndexSlot(size: int, m: nat, j: int)
    requires size > 0 && 0 <= j < 6
    ensures 6 * m + j < |IndexPrefix(size, m + 1)|
    ensures IndexPrefix(size, m + 1)[6 * m + j] == IndexAt(size, m, j)
  {
    RowMajor(m, j, 6);
  }

  /** Pushing cell m's six indices extends the index prefix by six. */
  lemma IndexPrefixStep(size: int, m: nat)
    requires size > 0
    ensures IndexPrefix(size, m + 1) == IndexPrefix(size, m) +
      [IndexAt(size, m, 0), IndexAt(size, m, 1), IndexAt(size, m, 2),
       IndexAt(size, m, 3), IndexAt(size, m, 4), IndexAt(size, m, 5)]
  {
    var next := IndexPrefix(size, m + 1);
    var cell := [IndexAt(size, m, 0), IndexAt(size, m, 1), IndexAt(size, m, 2),
                 IndexAt(size, m, 3), IndexAt(size, m, 4), IndexAt(size, m, 5)];
    assert next[..6 * m] == IndexPrefix(size, m);
    var tail := next[6 * m..];
    assert tail[0] == cell[0] by { IndexSlot(size, m, 0); }
    assert tail[1] == cell[1] by { IndexSlot(size, m, 1); }
    assert tail[2] == cell[2] by { IndexSlot(size, m, 2); }
    assert tail[3] == cell[3] by { IndexSlot(size, m, 3); }
    assert tail[4] == cell[4] by { IndexSlot(size, m, 4); }
    assert tail[5] == cell[5] by { IndexSlot(size, m, 5); }
    assert tail == cell;
    assert next == next[..6 * m] + tail;
  }

  /** Vertex k = z * (size + 1) + x lies at grid position (x, z). */
  function GridPos(size: int, k: int): (int, int)
    requires size >= 0
  {
    (k % Side(size), k / Side(size))
  }

  /** Twice the signed area of a triangle in the (x, z) grid plane. */
  function Orientation(a: (int, int), b: (int, int), c: (int, int)): int {
    (b.0 - a.0) * (c.1 - a.1) - (b.1 - a.1) * (c.0 - a.0)
  }

  /** Cell c = z * size + x is the cell in column x of row z. */
  lemma CellDecode(size: int, x: int, z: int)
    requires size > 0 && 0 <= x < size && 0 <= z < size
    ensures 0 <= z * size + x < size * size
    ensures IndexAt(size, z * size + x, 0) == z * (size + 1) + x
    ensures IndexAt(size, z * size + x, 1) == (z + 1) * (size + 1) + x
    ensures IndexAt(size, z * size + x, 2) == z * (size + 1) + x + 1
    ensures IndexAt(size, z * size + x, 3) == z * (size + 1) + x + 1
    ensures IndexAt(size, z * size + x, 4) == (z + 1) * (size + 1) + x
    ensures IndexAt(size, z * size + x, 5) == (z + 1) * (size + 1) + x + 1
  {
    RowMajorBound(z, x, size, size);
    RowMajor(z, x, size);
  }

  /**
   * Cell (x, z)'s six indices, at offset 6 * (z * size + x), are topLeft,
   * bottomLeft, topRight, topRight, bottomLeft, bottomRight, with
   * topLeft = z * (size + 1) + x and bottomLeft = topLeft + size + 1.
   */
  lemma CellLayout(size: int, x: int, z: int)
    requires size > 0 && 0 <= x < size && 0 <= z < size
    ensures 0 <= 6 * (z * size + x) && 6 * (z * size + x) + 5 < |Indices(size)|
    ensures var o, topLeft := 6 * (z * size + x), z * (size + 1) + x;
      var bottomLeft := topLeft + size + 1;
      Indices(size)[o .. o + 6] == [topLeft, bottomLeft, topLeft + 1, topLeft + 1, bottomLeft, bottomLeft + 1]
  {
    CellDecode(size, x, z);
    assert (z + 1) * (size + 1) == z * (size + 1) + size + 1;
  }

  /** The index at corner `corner` of cell `cell` names an existing vertex. */
  lemma IndexAtInRange(size: int, cell: int, corner: int)
    requires size > 0 && 0 <= cell < size * size && 0 <= corner < 6
    ensures 0 <= IndexAt(size, cell, corner) < Side(size) * Side(size)
  {
    var n := Side(size);
    RowOf(cell, size, size);
    var x, z := cell % size, cell / size;
    RowMajorBound(z + 1, x + 1, n, n);
    assert (z + 1) * n == z * n + n;
  }

  /** Every emitted index names an existing vertex: 0 <= index < (size + 1)^2. */
  lemma IndicesInRange(size: int)
    requires size > 0
    ensures forall i :: 0 <= i < |Indices(size)| ==> 0 <= Indices(size)[i] < Side(size) * Side(size)
  {
    forall i | 0 <= i < |Indices(size)| ensures 0 <= Indices(size)[i] < Side(size) * Side(size) {
      RowOf(i, 6, size * size);
      IndexAtInRange(size, i / 6, i % 6);
    }
  }

  /** Grid position of vertex z * (size + 1) + x. */
  lemma GridPosOf(size: int, x: int, z: int)
    requires size >= 0 && 0 <= x <= size
    ensures GridPos(size, z * Side(size) + x) == (x, z)
  {
    RowMajor(z, x, Side(size));
  }

  /** The two triangles of a unit grid cell, in emission order, both have orientation -1. */
  lemma UnitCellOrientation(x: int, z: int)
    ensures Orientation((x, z), (x, z + 1), (x + 1, z)) == -1
    ensures Orientation((x + 1, z), (x, z + 1), (x + 1, z + 1)) == -1
  {
  }

  /**
   * The six indices of cell (x, z) in terms of its top-left vertex
   * z * (size + 1) + x and its bottom-left vertex (z + 1) * (size + 1) + x.
   */
  lemma CellCorners(size: int, x: int, z: int)
    requires size > 0 && 0 <= x < size && 0 <= z < size
    ensures var o, n := 6 * (z * size + x), Side(size);
      && 0 <= o && o + 5 < |Indices(size)|
      && Indices(size)[o] == z * n + x && Indices(size)[o + 1] == (z + 1) * n + x
      && Indices(size)[o + 2] == z * n + x + 1 && Indices(size)[o + 3] == z * n + x + 1
      && Indices(size)[o + 4] == (z + 1) * n + x && Indices(size)[o + 5] == (z + 1) * n + x + 1
  {
    var n := Side(size);
    var o := 6 * (z * size + x);
    CellLayout(size, x, z);
    assert (z + 1) * n == z * n + size + 1;
    var cell := Indices(size)[o .. o + 6];
    assert Indices(size)[o] == cell[0];
    assert Indices(size)[o + 1] == cell[1];
    assert Indices(size)[o + 2] == cell[2];
    assert Indices(size)[o + 3] == cell[3];
    assert Indices(size)[o + 4] == cell[4];
    assert Indices(size)[o + 5] == cell[5];
  }

  /** The four corner vertices of cell (x, z) sit at the cell's four grid corners. */
  lemma CellCornerPositions(size: int, x: int, z: int)
    requires size > 0 && 0 <= x < size && 0 <= z < size
    ensures var n := Side(size);
      && GridPos(size, z * n + x) == (x, z) && GridPos(size, z * n + x + 1) == (x + 1, z)
      && GridPos(size, (z + 1) * n + x) == (x, z + 1) && GridPos(size, (z + 1) * n + x + 1) == (x + 1, z + 1)
  {
    GridPosOf(size, x, z);
    GridPosOf(size, x + 1, z);
    GridPosOf(size, x, z + 1);
    GridPosOf(size, x + 1, z + 1);
  }

  /** Both triangles of cell (x, z) have orientation -1 in the (x, z) grid. */
  lemma CellWinding(size: int, x: int, z: int)
    requires size > 0 && 0 <= x < size && 0 <= z < size
    ensures var o := 6 * (z * size + x);
      && 0 <= o && o + 5 < |Indices(size)|
      && Orientation(GridPos(size, Indices(size)[o]), GridPos(size, Indices(size)[o + 1]),
                     GridPos(size, Indices(size)[o + 2])) == -1
      && Orientation(GridPos(size, Indices(size)[o + 3]), GridPos(size, Indices(size)[o + 4]),
                     GridPos(size, Indices(size)[o + 5])) == -1
  {
    CellCorners(size, x, z);
    CellCornerPositions(size, x, z);
    UnitCellOrientation(x, z);
  }

  /**
   * Winding is consistent: each of the 2 * size^2 triangles has orientation
   * -1 in the (x, z) grid.
   */
  lemma WindingConsistent(size: int)
    requires size > 0
    ensures forall t :: 0 <= t < 2 * (size * size) ==>
      Orientation(GridPos(size, Indices(size)[3 * t]),
                  GridPos(size, Indices(size)[3 * t + 1]),
                  GridPos(size, Indices(size)[3 * t + 2])) == -1
  {
    forall t | 0 <= t < 2 * (size * size)
      ensures Orientation(GridPos(size, Indices(size)[3 * t]),
                          GridPos(size, Indices(size)[3 * t + 1]),
                          GridPos(size, Indices(size)[3 * t + 2])) == -1
    {
      TriangleWinding(size, t);
    }
  }

  /** Triangle t is the first (t even) or second (t odd) triangle of cell t / 2. */
  lemma TriangleWinding(size: int, t: int)
    requires size > 0 && 0 <= t < 2 * (size * size)
    ensures 3 * t + 2 < |Indices(size)|
    ensures Orientation(GridPos(size, Indices(size)[3 * t]),
                        GridPos(size, Indices(size)[3 * t + 1]),
                        GridPos(size, Indices(size)[3 * t + 2])) == -1
  {
    var x, z := TriangleCell(size, t);
    CellWinding(size, x, z);
  }

  /** Triangle t starts at offset 3t, the first or second half of cell (x, z)'s six indices. */
  lemma TriangleCell(size: int, t: int) returns (x: int, z: int)
    requires size > 0 && 0 <= t < 2 * (size * size)
    ensures 0 <= x < size && 0 <= z < size
    ensures 3 * t == 6 * (z * size + x) || 3 * t == 6 * (z * size + x) + 3
  {
    RowOf(t, 2, size * size);
    var cell := t / 2;
    RowOf(cell, size, size);
    x, z := cell % size, cell / size;
  }

  /** Slot `slot` of vertex k holds attribute `slot` of that vertex. */
  lemma VertexSlot(p: ChunkParams, noise: Sampler, k: int, slot: int)
    requires p.size > 0 && 0 <= k < Side(p.size) * Side(p.size) && 0 <= slot < 5
    ensures 5 * k + slot < |Vertices(p, noise)|
    ensures Vertices(p, noise)[5 * k + slot] == VertexAttr(p, noise, k, slot)
  {
    RowMajor(k, slot, 5);
    assert (5 * k + slot) / 5 == k && (5 * k + slot) % 5 == slot;
  }

  /** The attributes of vertex z * (size + 1) + x are those of grid position (x, z). */
  lemma VertexAttrs(p: ChunkParams, noise: Sampler, x: int, z: int)
    requires p.size > 0 && 0 <= x <= p.size
    ensures var k := z * Side(p.size) + x;
      && VertexAttr(p, noise, k, 0) == x as real && VertexAttr(p, noise, k, 1) == HeightAt(p, noise, x, z)
      && VertexAttr(p, noise, k, 2) == z as real && VertexAttr(p, noise, k, 3) == TexCoord(p.size, x)
      && VertexAttr(p, noise, k, 4) == TexCoord(p.size, z)
  {
    var k := z * Side(p.size) + x;
    RowMajor(z, x, Side(p.size));
    assert k % Side(p.size) == x && k / Side(p.size) == z;
  }

  /**
   * Vertex k = z * (size + 1) + x stores x at slot 5k, its height at slot
   * 5k + 1 and z at slot 5k + 2, then its texture coordinates.
   */
  lemma VertexLayout(p: ChunkParams, noise: Sampler, x: int, z: int)
    requires p.size > 0 && 0 <= x <= p.size && 0 <= z <= p.size
    ensures var k := z * Side(p.size) + x;
      && 0 <= k < |Heights(p, noise)|
      && 5 * k + 4 < |Vertices(p, noise)|
      && Vertices(p, noise)[5 * k] == x as real
      && Vertices(p, noise)[5 * k + 1] == Heights(p, noise)[k]
      && Vertices(p, noise)[5 * k + 2] == z as real
      && Vertices(p, noise)[5 * k + 3] == TexCoord(p.size, x)
      && Vertices(p, noise)[5 * k + 4] == TexCoord(p.size, z)
  {
    var n := Side(p.size);
    var k := z * n + x;
    RowMajorBound(z, x, n, n);
    VertexAttrs(p, noise, x, z);
    assert Heights(p, noise)[k] == HeightAt(p, noise, x, z);
    VertexSlot(p, noise, k, 0);
    VertexSlot(p, noise, k, 1);
    VertexSlot(p, noise, k, 2);
    VertexSlot(p, noise, k, 3);
    VertexSlot(p, noise, k, 4);
  }

  /**
   * The height of vertex k = z * (size + 1) + x is the noise sample at
   * (worldX * freq, worldZ * freq), with worldX = chunkX * size + x and
   * worldZ = chunkZ * size + z, multiplied by the amplitude twice.
   */
  lemma HeightFormula(p: ChunkParams, noise: Sampler, x: int, z: int)
    requires p.size > 0 && 0 <= x <= p.size && 0 <= z <= p.size
    ensures var k := z * Side(p.size) + x;
      && 0 <= k < |Heights(p, noise)|
      && Heights(p, noise)[k] ==
           (noise(((p.chunkX * p.size + x) as real) * p.noiseFreq,
                  ((p.chunkZ * p.size + z) as real) * p.noiseFreq) * p.noiseAmp) * p.noiseAmp
  {
    HeightEntry(p, noise, x, z);
    HeightAtFormula(p, noise, x, z);
  }

  /** Entry z * (size + 1) + x of the heights buffer is the height of grid vertex (x, z). */
  lemma HeightEntry(p: ChunkParams, noise: Sampler, x: int, z: int)
    requires p.size > 0 && 0 <= x <= p.size && 0 <= z <= p.size
    ensures var k := z * Side(p.size) + x;
      0 <= k < |Heights(p, noise)| && Heights(p, noise)[k] == HeightAt(p, noise, x, z)
  {
    var n := Side(p.size);
    RowMajorBound(z, x, n, n);
    RowMajor(z, x, n);
  }

  /** `HeightAt` written out: the sample scaled by the amplitude twice. */
  lemma HeightAtFormula(p: ChunkParams, noise: Sampler, x: int, z: int)
    ensures HeightAt(p, noise, x, z) ==
      (noise(((p.chunkX * p.size + x) as real) * p.noiseFreq,
             ((p.chunkZ * p.size + z) as real) * p.noiseFreq) * p.noiseAmp) * p.noiseAmp
  {
    assert NoiseCoord(WorldX(p, x), p.noiseFreq) == ((p.chunkX * p.size + x) as real) * p.noiseFreq;
    assert NoiseCoord(WorldZ(p, z), p.noiseFreq) == ((p.chunkZ * p.size + z) as real) * p.noiseFreq;
  }

  /** The sampler that returns `s` everywhere. */
  function ConstantSampler(s: real): Sampler {
    (_, _) => s
  }

  /** A constant sampler s with amplitude a gives every vertex the height s * a * a. */
  lemma ConstantSamplerHeights(p: ChunkParams, s: real)
    requires p.size > 0
    ensures forall k :: 0 <= k < |Heights(p, ConstantSampler(s))| ==>
      Heights(p, ConstantSampler(s))[k] == s * p.noiseAmp * p.noiseAmp
  {
  }

  /** A chunk of size 2 has 9 vertices, 45 vertex floats and 24 indices (4 triangles). */
  lemma SizeTwoCounts(p: ChunkParams, noise: Sampler)
    requires p.size == 2
    ensures |Heights(p, noise)| == 9 && |Vertices(p, noise)| == 45 && |Indices(p.size)| == 24
  {
  }

  /** `draw` takes the PBR path exactly when all four material sets are registered. */
  predicate UsesPBR(tm: TextureManager)
    reads tm
  {
    tm.HasPBRTextureSet("sand") && tm.HasPBRTextureSet("grass") &&
    tm.HasPBRTextureSet("rock") && tm.HasPBRTextureSet("snow")
  }

  /** The texture binds `draw` issues for the registry's current state. */
  function DrawBinds(tm: TextureManager): seq<Bind>
    reads tm
  {
    if UsesPBR(tm) then
      tm.PBRBinds("sand", 0) + tm.PBRBinds("grass", 4) + tm.PBRBinds("rock", 8) + tm.PBRBinds("snow", 12)
    else
      tm.TextureBinds("fallback", 0)
  }

  /** Units of a bind trace strictly increase, so no unit is bound twice. */
  predicate UnitsIncreasing(binds: seq<Bind>) {
    forall i, j :: 0 <= i < j < |binds| ==> binds[i].unit < binds[j].unit
  }

  /** The binds of one material set lie in [start, start + 4) with increasing units. */
  lemma PBRBindsWithin(tm: TextureManager, name: string, start: nat)
    ensures |tm.PBRBinds(name, start)| <= 4
    ensures UnitsIncreasing(tm.PBRBinds(name, start))
    ensures forall i :: 0 <= i < |tm.PBRBinds(name, start)| ==>
      start <= tm.PBRBinds(name, start)[i].unit < start + 4
  {
    if name in tm.pbrTextures {
      BindsForConsecutive(tm.pbrTextures[name], BindOrder, start);
    }
  }

  /**
   * On the PBR path the four sets occupy units 0-3, 4-7, 8-11 and 12-15 and
   * never share a unit; on the fallback path at most unit 0 is bound.
   */
  lemma DrawBindsDisjointUnits(tm: TextureManager)
    ensures UnitsIncreasing(DrawBinds(tm))
    ensures forall i :: 0 <= i < |DrawBinds(tm)| ==> 0 <= DrawBinds(tm)[i].unit < 16
    ensures !UsesPBR(tm) ==> |DrawBinds(tm)| <= 1
  {
    PBRBindsWithin(tm, "sand", 0);
    PBRBindsWithin(tm, "grass", 4);
    PBRBindsWithin(tm, "rock", 8);
    PBRBindsWithin(tm, "snow", 12);
  }

  class TerrainChunk {
    const chunkX: int
    const chunkZ: int
    const size: int
    const noiseFreq: real
    const noiseAmp: real
    /** The chunk's noise generator (Perlin, no fractal; the same settings in every chunk). */
    const noise: Sampler
    /** The model matrix's translation, `(chunkX * size, 0, chunkZ * size)`. */
    const translation: (int, int, int)

    var heights: seq<real>
    var vertices: seq<real>
    var indices: seq<int>

    function Params(): ChunkParams {
      ChunkParams(chunkX, chunkZ, size, noiseFreq, noiseAmp)
    }

    /** The buffers hold the mesh of the chunk's parameters. */
    ghost predicate Valid()
      reads this
    {
      size > 0 &&
      heights == Heights(Params(), noise) &&
      vertices == Vertices(Params(), noise) &&
      indices == Indices(size)
    }

    /** The constructor places the chunk and generates its mesh at once. */
    constructor (chunkX: int, chunkZ: int, size: int, noiseFreq: real, noiseAmp: real, noise: Sampler)
      requires size > 0
      ensures this.chunkX == chunkX && this.chunkZ == chunkZ && this.size == size
      ensures this.noiseFreq == noiseFreq && this.noiseAmp == noiseAmp && this.noise == noise
      ensures translation == (chunkX * size, 0, chunkZ * size)
      ensures Valid()
    {
      this.chunkX, this.chunkZ, this.size := chunkX, chunkZ, size;
      this.noiseFreq, this.noiseAmp, this.noise := noiseFreq, noiseAmp, noise;
      translation := (chunkX * size, 0, chunkZ * size);
      heights, vertices, indices := [], [], [];
      new;
      GenerateHeightmap();
    }

    /**
     * `generateHeightmap`: clear the three buffers, then push one height and
     * five vertex floats per grid vertex and six indices per grid cell.  The
     * result depends only on the parameters, never on the old contents.
     */
    method GenerateHeightmap()
      requires size > 0
      modifies this
      ensures heights == Heights(Params(), noise)
      ensures vertices == Vertices(Params(), noise)
      ensures indices == Indices(size)
    {
      vertices, heights, indices := [], [], [];
      PushGridVertices();
      PushGridCells();
    }

    /** The first pair of loops of `generateHeightmap`: one height and five vertex floats per grid vertex, row by row. */
    method PushGridVertices()
      requires size > 0 && heights == [] && vertices == []
      modifies this
      ensures heights == Heights(Params(), noise)
      ensures vertices == Vertices(Params(), noise)
      ensures indices == old(indices)
    {
      ghost var p := Params();
      var n := size + 1;
      var texScale := 1.0 / (size as real);

      var z := 0;
      while z <= size
        invariant 0 <= z <= n
        invariant heights == HeightPrefix(p, noise, z * n)
        invariant vertices == VertexPrefix(p, noise, z * n)
        invariant indices == old(indices)
      {
        var x := 0;
        while x <= size
          invariant 0 <= x <= n
          invariant heights == HeightPrefix(p, noise, z * n + x)
          invariant vertices == VertexPrefix(p, noise, z * n + x)
          invariant indices == old(indices)
        {
          var worldX := (chunkX * size + x) as real;
          var worldZ := (chunkZ * size + z) as real;
          var height := noise(worldX * noiseFreq, worldZ * noiseFreq) * noiseAmp;
          height := height * noiseAmp;
          ghost var k := z * n + x;
          PushVertex(p, noise, x, z);
          assert worldX * noiseFreq == NoiseCoord(WorldX(p, x), p.noiseFreq);
          assert worldZ * noiseFreq == NoiseCoord(WorldZ(p, z), p.noiseFreq);
          assert height == HeightAt(p, noise, x, z);
          assert (x as real) * texScale * 2.0 == TexCoord(p.size, x);
          assert (z as real) * texScale * 2.0 == TexCoord(p.size, z);
          var attrs := [x as real, height, z as real, (x as real) * texScale * 2.0, (z as real) * texScale * 2.0];
          assert attrs == [x as real, HeightAt(p, noise, x, z), z as real, TexCoord(p.size, x), TexCoord(p.size, z)];
          assert k + 1 == z * n + (x + 1);
          heights := heights + [height];
          vertices := vertices + attrs;
          x := x + 1;
        }
        assert z * n + n == (z + 1) * n;
        z := z + 1;
      }
    }

    /** The second pair of loops of `generateHeightmap`: two triangles (six indices) per grid cell, row by row. */
    method PushGridCells()
      requires size > 0 && indices == []
      modifies this
      ensures indices == Indices(size)
      ensures heights == old(heights) && vertices == old(vertices)
    {
      var z := 0;
      while z < size
        invariant 0 <= z <= size
        invariant indices == IndexPrefix(size, z * size)
        invariant heights == old(heights) && vertices == old(vertices)
      {
        var x := 0;
        while x < size
          invariant 0 <= x <= size
          invariant indices == IndexPrefix(size, z * size + x)
          invariant heights == old(heights) && vertices == old(vertices)
        {
          var topLeft := z * (size + 1) + x;
          var topRight := topLeft + 1;
          var bottomLeft := (z + 1) * (size + 1) + x;
          var bottomRight := bottomLeft + 1;
          ghost var c := z * size + x;
          PushCell(size, x, z);
          indices := indices + [topLeft, bottomLeft, topRight, topRight, bottomLeft, bottomRight];
          assert c + 1 == z * size + (x + 1);
          x := x + 1;
        }
        assert z * size + size == (z + 1) * size;
        z := z + 1;
      }
    }

    /** `draw`: the texture binds for the current registry state, then one indexed draw of all indices. */
    method Draw(tm: TextureManager) returns (binds: seq<Bind>, indexCount: int)
      ensures binds == DrawBinds(tm)
      ensures UsesPBR(tm) ==>
        binds == tm.PBRBinds("sand", 0) + tm.PBRBinds("grass", 4) + tm.PBRBinds("rock", 8) + tm.PBRBinds("snow", 12)
      ensures !UsesPBR(tm) ==> binds == tm.TextureBinds("fallback", 0)
      ensures indexCount == |indices|
    {
      var hasSandPBR := tm.HasPBRTextureSet("sand");
      var hasGrassPBR := tm.HasPBRTextureSet("grass");
      var hasRockPBR := tm.HasPBRTextureSet("rock");
      var hasSnowPBR := tm.HasPBRTextureSet("snow");
      if hasSandPBR && hasGrassPBR && hasRockPBR && hasSnowPBR {
        var sand := tm.BindPBRTextures("sand", 0);
        var grass := tm.BindPBRTextures("grass", 4);
        var rock := tm.BindPBRTextures("rock", 8);
        var snow := tm.BindPBRTextures("snow", 12);
        binds := sand + grass + rock + snow;
      } else {
        binds := tm.BindTexture("fallback", 0);
      }
      indexCount := |indices|;
    }
  }

  /** Pushing grid vertex (x, z), number k = z * (size + 1) + x, extends both vertex-side prefixes. */
  lemma PushVertex(p: ChunkParams, noise: Sampler, x: int, z: int)
    requires p.size > 0 && 0 <= x <= p.size && 0 <= z
    ensures var k := z * Side(p.size) + x;
      && k >= 0
      && HeightPrefix(p, noise, k + 1) == HeightPrefix(p, noise, k) + [HeightAt(p, noise, x, z)]
      && VertexPrefix(p, noise, k + 1) == VertexPrefix(p, noise, k) +
           [x as real, HeightAt(p, noise, x, z), z as real, TexCoord(p.size, x), TexCoord(p.size, z)]
  {
    var k := z * Side(p.size) + x;
    RowMajor(z, x, Side(p.size));
    HeightPrefixStep(p, noise, k);
    VertexPrefixStep(p, noise, k);
  }

  /** Pushing cell (x, z), number c = z * size + x, extends the index prefix by its six corners. */
  lemma PushCell(size: int, x: int, z: int)
    requires size > 0 && 0 <= x < size && 0 <= z
    ensures var c, topLeft, bottomLeft := z * size + x, z * (size + 1) + x, (z + 1) * (size + 1) + x;
      && c >= 0
      && IndexPrefix(size, c + 1) == IndexPrefix(size, c) +
           [topLeft, bottomLeft, topLeft + 1, topLeft + 1, bottomLeft, bottomLeft + 1]
  {
    RowMajor(z, x, size);
    IndexPrefixStep(size, z * size + x);
  }

  /** Regenerating a chunk's mesh leaves identical buffers (they are cleared, not appended to). */
  method RegenerateIsIdempotent(c: TerrainChunk)
    requires c.Valid()
    modifies c
    ensures c.Valid()
    ensures c.heights == old(c.heights) && c.vertices == old(c.vertices) && c.indices == old(c.indices)
  {
    c.GenerateHeightmap();
  }
}
