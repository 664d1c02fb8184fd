/**
 * The streaming manager: it packs a chunk coordinate into a 64-bit key,
 * finds the chunk under the viewer, and keeps every chunk of the square
 * window around it resident, building missing chunks on first access. It
 * never evicts a chunk.
 */
module ChunkRegistry {
  import opened GridIndex
  import opened TextureRegistry
  import opened ChunkMesh

  const Two31: int := 0x8000_0000
  const Two32: int := 0x1_0000_0000
  const Two63: int := 0x8000_0000_0000_0000

  predicate IsInt32(v: int) {
    -Two31 <= v < Two31
  }

  predicate IsInt64(v: int) {
    -Two63 <= v < Two63
  }

  /** `hash`: x shifted into the high 32 bits, or-ed with the 32-bit pattern of z. */
  function Hash(x: int, z: int): int {
    x * Two32 + z % Two32
  }

  /**
   * The low 32 bits of `x << 32` are zero, so the or is an addition: the
   * key's high half is x and its low half is z's 32-bit pattern, and for
   * `int` inputs it fits a `long long`.
   */
  lemma HashFields(x: int, z: int)
    ensures Hash(x, z) / Two32 == x && Hash(x, z) % Two32 == z % Two32
    ensures IsInt32(x) && IsInt32(z) ==> IsInt64(Hash(x, z))
  {
    RowMajor(x, z % Two32, Two32);
    if IsInt32(x) {
      MulMono(-Two31, x, Two32);
      MulMono(x, Two31 - 1, Two32);
    }
  }

  /** Reads a 32-bit pattern as a two's-complement `int`. */
  function Signed32(u: int): int {
    if u < Two31 then u else u - Two32
  }

  /** Splits a key back into the coordinate that produced it. */
  function Unhash(k: int): (int, int) {
    (k / Two32, Signed32(k % Two32))
  }

  /** Every pair of `int`s is recovered from its key. */
  lemma UnhashHash(x: int, z: int)
    requires IsInt32(z)
    ensures Unhash(Hash(x, z)) == (x, z)
  {
    HashFields(x, z);
    if z < 0 {
      assert (z + Two32) % Two32 == z % Two32;
      assert z % Two32 == z + Two32;
    }
  }

  /** Two coordinates share a key exactly when they are equal. */
  lemma HashInjective(x1: int, z1: int, x2: int, z2: int)
    requires IsInt32(z1) && IsInt32(z2)
    ensures Hash(x1, z1) == Hash(x2, z2) <==> x1 == x2 && z1 == z2
  {
    UnhashHash(x1, z1);
    UnhashHash(x2, z2);
  }

  /** Only the low 32 bits of z reach the key: outside the `int` range coordinates collide. */
  lemma HashKeepsLow32BitsOfZ(x: int, z: int)
    ensures Hash(x, z) == Hash(x, z + Two32)
  {
    assert (z + Two32) % Two32 == z % Two32;
  }

  /** Scaling by a positive factor keeps order. */
  lemma ScaleMono(a: real, b: real, f: real)
    requires a <= b && f > 0.0
    ensures a * f <= b * f
  {
    assert b * f - a * f == (b - a) * f;
  }

  /** Scaling by a positive factor keeps strict order. */
  lemma ScaleStrict(a: real, b: real, f: real)
    requires a < b && f > 0.0
    ensures a * f < b * f
  {
    assert b * f - a * f == (b - a) * f;
  }

  /** The floor of pos / cs, scaled back by cs, brackets pos. */
  lemma FloorSpan(pos: real, cs: real)
    requires cs > 0.0
    ensures ((pos / cs).Floor as real) * cs <= pos < (((pos / cs).Floor + 1) as real) * cs
  {
    var y := pos / cs;
    var f := y.Floor;
    assert y * cs == pos;
    assert (f as real) * cs <= pos by {
      ScaleMono(f as real, y, cs);
    }
    assert pos < ((f + 1) as real) * cs by {
      assert (f + 1) as real == f as real + 1.0;
      assert y < (f + 1) as real;
      ScaleStrict(y, (f + 1) as real, cs);
    }
  }

  /** `floor(position / chunkSize)`: the chunk whose span [c * size, (c + 1) * size) holds the position. */
  function ViewerChunk(pos: real, chunkSize: int): (c: int)
    requires chunkSize > 0
    ensures (c as real) * (chunkSize as real) <= pos < ((c + 1) as real) * (chunkSize as real)
  {
    FloorSpan(pos, chunkSize as real);
    (pos / chunkSize as real).Floor
  }

  /** A span starting at or below pos begins no later than any span ending above it. */
  lemma SpanBelow(pos: real, cs: real, c: int, v: int)
    requires cs > 0.0
    requires (c as real) * cs <= pos < ((v + 1) as real) * cs
    ensures c <= v
  {
    if c > v {
      ScaleMono((v + 1) as real, c as real, cs);
    }
  }

  /** The span condition pins the viewer chunk down: no other chunk's span holds the position. */
  lemma ViewerChunkUnique(pos: real, chunkSize: int, c: int)
    requires chunkSize > 0
    requires (c as real) * (chunkSize as real) <= pos < ((c + 1) as real) * (chunkSize as real)
    ensures c == ViewerChunk(pos, chunkSize)
  {
    var v := ViewerChunk(pos, chunkSize);
    SpanBelow(pos, chunkSize as real, c, v);
    SpanBelow(pos, chunkSize as real, v, c);
  }

  /** Moving the viewer by one chunk size moves its chunk by exactly one. */
  lemma ViewerChunkShift(pos: real, chunkSize: int)
    requires chunkSize > 0
    ensures ViewerChunk(pos + chunkSize as real, chunkSize) == ViewerChunk(pos, chunkSize) + 1
  {
    var v := ViewerChunk(pos, chunkSize);
    var cs := chunkSize as real;
    assert ((v + 1) as real) * cs == (v as real) * cs + cs;
    assert ((v + 2) as real) * cs == ((v + 1) as real) * cs + cs;
    ViewerChunkUnique(pos + cs, chunkSize, v + 1);
  }

  /** The floor rounds down, not toward zero: just left of the origin is chunk -1. */
  lemma ViewerChunkNegative()
    ensures ViewerChunk(-0.5, 32) == -1
    ensures ViewerChunk(0.0, 32) == 0
    ensures ViewerChunk(31.5, 32) == 0
  {
    ViewerChunkUnique(-0.5, 32, -1);
    ViewerChunkUnique(0.0, 32, 0);
    ViewerChunkUnique(31.5, 32, 0);
  }

  /** Chunks per side of the window for render distance r: 2r + 1, or none when r is negative. */
  function WindowSide(r: int): nat {
    if r >= 0 then 2 * r + 1 else 0
  }

  /** Coordinate c lies within r chunks of (cx, cz) along both axes. */
  predicate InBox(cx: int, cz: int, r: int, c: (int, int)) {
    cx - r <= c.0 <= cx + r && cz - r <= c.1 <= cz + r
  }

  /** The i-th coordinate `update` visits: rows of dz outside, dx inside, both from -r to r. */
  function WindowCoord(cx: int, cz: int, r: int, i: int): (int, int)
    requires r >= 0
  {
    var s := 2 * r + 1;
    (cx + i % s - r, cz + i / s - r)
  }

  /** The coordinates `update` visits, in visiting order. */
  function WindowCoords(cx: int, cz: int, r: int): (w: seq<(int, int)>)
    ensures |w| == WindowSide(r) * WindowSide(r)
  {
    if r < 0 then []
    else
      var s := 2 * r + 1;
      seq(s * s, i requires 0 <= i < s * s => WindowCoord(cx, cz, r, i))
  }

  /** The visit with offsets (dx, dz) is number (dz + r) * (2r + 1) + (dx + r). */
  lemma WindowAt(cx: int, cz: int, r: int, dx: int, dz: int)
    requires -r <= dx <= r && -r <= dz <= r
    ensures var i := (dz + r) * WindowSide(r) + (dx + r);
      0 <= i < |WindowCoords(cx, cz, r)| && WindowCoords(cx, cz, r)[i] == (cx + dx, cz + dz)
  {
    var s := WindowSide(r);
    RowMajorBound(dz + r, dx + r, s, s);
    RowMajor(dz + r, dx + r, s);
  }

  /** The keys of the row at z, columns cx - r .. cx + r, in visiting order. */
  function RowKeys(cx: int, z: int, r: int): (keys: seq<int>)
    ensures |keys| == WindowSide(r)
  {
    seq(WindowSide(r), i requires 0 <= i < WindowSide(r) => Hash(cx - r + i, z))
  }

  /** Visiting column cx + dx extends the row's keys by that column's key. */
  lemma RowStep(cx: int, z: int, r: int, dx: int)
    requires -r <= dx <= r
    ensures var row := RowKeys(cx, z, r);
      row[..dx + r] + [Hash(cx + dx, z)] == row[..dx + r + 1]
  {
    var row := RowKeys(cx, z, r);
    assert row[dx + r] == Hash(cx + dx, z);
  }

  /** The window's keys are its rows' keys, one row after another. */
  lemma WindowRow(cx: int, cz: int, r: int, dz: int, m: int)
    requires -r <= dz <= r
    requires m == (dz + r) * WindowSide(r)
    ensures 0 <= m && m + WindowSide(r) <= |WindowKeys(cx, cz, r)|
    ensures m + WindowSide(r) == (dz + 1 + r) * WindowSide(r)
    ensures WindowKeys(cx, cz, r)[..m] + RowKeys(cx, cz + dz, r) == WindowKeys(cx, cz, r)[..m + WindowSide(r)]
  {
    var w := WindowKeys(cx, cz, r);
    var s := 2 * r + 1;
    assert WindowSide(r) == s;
    var row := RowKeys(cx, cz + dz, r);
    MulMono(dz + r, 2 * r, s);
    assert 2 * r * s + s == s * s;
    assert m + s == (dz + 1 + r) * s;
    forall j | 0 <= j < s
      ensures w[m + j] == row[j]
    {
      RowMajor(dz + r, j, s);
    }
    assert w[..m] + row == w[..m + s];
  }

  /** When the row loop stops, every visit of the window has been made. */
  lemma WindowEnd(r: int, dz: int, m: int)
    requires -r <= dz && (dz == r + 1 || dz == -r) && !(dz <= r)
    requires m == (dz + r) * WindowSide(r)
    ensures m == WindowSide(r) * WindowSide(r)
  {
  }

  /** The visited coordinates are exactly those of the (2r + 1) x (2r + 1) box. */
  lemma WindowMembership(cx: int, cz: int, r: int, c: (int, int))
    ensures c in WindowCoords(cx, cz, r) <==> InBox(cx, cz, r, c)
  {
    var w := WindowCoords(cx, cz, r);
    if c in w {
      var i :| 0 <= i < |w| && w[i] == c;
      RowOf(i, WindowSide(r), WindowSide(r));
    }
    if InBox(cx, cz, r, c) {
      WindowAt(cx, cz, r, c.0 - cx, c.1 - cz);
    }
  }

  /** No coordinate is visited twice. */
  lemma WindowDistinct(cx: int, cz: int, r: int)
    ensures var w := WindowCoords(cx, cz, r);
      forall i, j :: 0 <= i < j < |w| ==> w[i] != w[j]
  {
    var w := WindowCoords(cx, cz, r);
    forall i, j | 0 <= i < j < |w|
      ensures w[i] != w[j]
    {
      var s := WindowSide(r);
      RowOf(i, s, s);
      RowOf(j, s, s);
    }
  }

  /** The whole window, and so every coordinate `update` computes, lies in the `int` range. */
  predicate WindowFits(cx: int, cz: int, r: int) {
    IsInt32(cx) && IsInt32(cz) &&
    (r >= 0 ==> IsInt32(cx - r) && IsInt32(cx + r) && IsInt32(cz - r) && IsInt32(cz + r))
  }

  /** The keys `update` looks up and draws, in order. */
  function WindowKeys(cx: int, cz: int, r: int): (keys: seq<int>)
    ensures |keys| == WindowSide(r) * WindowSide(r)
  {
    var w := WindowCoords(cx, cz, r);
    seq(|w|, i requires 0 <= i < |w| => Hash(w[i].0, w[i].1))
  }

  /** The elements of a sequence of keys. */
  function Elems(s: seq<int>): set<int> {
    set k | k in s
  }

  /** A window key is the key of a coordinate inside the box, and every such key is one. */
  lemma WindowKeyMembership(cx: int, cz: int, r: int, k: int)
    requires WindowFits(cx, cz, r)
    ensures k in WindowKeys(cx, cz, r) <==>
      Hash(Unhash(k).0, Unhash(k).1) == k && InBox(cx, cz, r, Unhash(k))
  {
    var w := WindowCoords(cx, cz, r);
    var keys := WindowKeys(cx, cz, r);
    if k in keys {
      var i :| 0 <= i < |keys| && keys[i] == k;
      WindowMembership(cx, cz, r, w[i]);
      UnhashHash(w[i].0, w[i].1);
    }
    var c := Unhash(k);
    if Hash(c.0, c.1) == k && InBox(cx, cz, r, c) {
      WindowMembership(cx, cz, r, c);
      var i :| 0 <= i < |w| && w[i] == c;
      assert keys[i] == k;
    }
  }

  /** No key is drawn twice in one update. */
  lemma WindowKeysDistinct(cx: int, cz: int, r: int)
    requires WindowFits(cx, cz, r)
    ensures var keys := WindowKeys(cx, cz, r);
      forall i, j :: 0 <= i < j < |keys| ==> keys[i] != keys[j]
  {
    var w := WindowCoords(cx, cz, r);
    var keys := WindowKeys(cx, cz, r);
    WindowDistinct(cx, cz, r);
    forall i, j | 0 <= i < j < |keys|
      ensures keys[i] != keys[j]
    {
      WindowMembership(cx, cz, r, w[i]);
      WindowMembership(cx, cz, r, w[j]);
      HashInjective(w[i].0, w[i].1, w[j].0, w[j].1);
    }
  }

  /** The window holds (2r + 1)^2 different keys. */
  lemma WindowKeyCount(cx: int, cz: int, r: int)
    requires WindowFits(cx, cz, r)
    ensures |Elems(WindowKeys(cx, cz, r))| == WindowSide(r) * WindowSide(r)
  {
    WindowKeysDistinct(cx, cz, r);
    DistinctElems(WindowKeys(cx, cz, r));
  }

  /** A sequence without repeats has as many elements as entries. */
  lemma {:induction false} DistinctElems(s: seq<int>)
    requires forall i, j :: 0 <= i < j < |s| ==> s[i] != s[j]
    ensures |Elems(s)| == |s|
    decreases |s|
  {
    if |s| > 0 {
      var init := s[..|s| - 1];
      DistinctElems(init);
      assert Elems(s) == Elems(init) + {s[|s| - 1]};
      assert s[|s| - 1] !in Elems(init);
    }
  }

  /** The keys of column a, rows cz - r .. cz + r. */
  function ColumnKeys(a: int, cz: int, r: int): (keys: seq<int>)
    ensures |keys| == WindowSide(r)
  {
    seq(WindowSide(r), i requires 0 <= i < WindowSide(r) => Hash(a, cz - r + i))
  }

  /** A column key is the key of a coordinate of that column, and every such key is one. */
  lemma ColumnKeyMembership(a: int, cz: int, r: int, k: int)
    requires r >= 0 && IsInt32(cz - r) && IsInt32(cz + r)
    ensures k in ColumnKeys(a, cz, r) <==>
      Hash(Unhash(k).0, Unhash(k).1) == k && Unhash(k).0 == a && cz - r <= Unhash(k).1 <= cz + r
  {
    var keys := ColumnKeys(a, cz, r);
    if k in keys {
      var i :| 0 <= i < |keys| && keys[i] == k;
      UnhashHash(a, cz - r + i);
    }
    var c := Unhash(k);
    if Hash(c.0, c.1) == k && c.0 == a && cz - r <= c.1 <= cz + r {
      assert keys[c.1 - (cz - r)] == k;
    }
  }

  /**
   * Moving the window one chunk along x brings in exactly one new column,
   * the one at x = cx + r + 1.
   */
  lemma WindowShiftX(cx: int, cz: int, r: int)
    requires r >= 0 && WindowFits(cx, cz, r) && WindowFits(cx + 1, cz, r)
    ensures Elems(WindowKeys(cx + 1, cz, r)) - Elems(WindowKeys(cx, cz, r)) == Elems(ColumnKeys(cx + r + 1, cz, r))
  {
    var shifted, window, column := Elems(WindowKeys(cx + 1, cz, r)), Elems(WindowKeys(cx, cz, r)), Elems(ColumnKeys(cx + r + 1, cz, r));
    forall k | k in shifted - window
      ensures k in column
    {
      WindowKeyMembership(cx + 1, cz, r, k);
      WindowKeyMembership(cx, cz, r, k);
      ColumnKeyMembership(cx + r + 1, cz, r, k);
    }
    forall k | k in column
      ensures k in shifted - window
    {
      WindowKeyMembership(cx + 1, cz, r, k);
      WindowKeyMembership(cx, cz, r, k);
      ColumnKeyMembership(cx + r + 1, cz, r, k);
    }
  }

  /** A column of the window holds 2r + 1 different keys. */
  lemma ColumnCount(a: int, cz: int, r: int)
    requires r >= 0 && IsInt32(cz - r) && IsInt32(cz + r)
    ensures |Elems(ColumnKeys(a, cz, r))| == 2 * r + 1
  {
    var col := ColumnKeys(a, cz, r);
    forall i, j | 0 <= i < j < |col|
      ensures col[i] != col[j]
    {
      HashInjective(a, cz - r + i, a, cz - r + j);
    }
    DistinctElems(col);
  }

  /**
   * `after` keeps every chunk of `before` under its key, and every chunk it
   * adds was built with the given size and noise settings.
   */
  ghost predicate Grown(after: map<int, TerrainChunk>, before: map<int, TerrainChunk>,
                        size: int, noiseFreq: real, noiseAmp: real, noise: Sampler)
  {
    (forall k :: k in before ==> k in after && after[k] == before[k]) &&
    (forall k :: k in after && k !in before ==>
      after[k].size == size && after[k].noise == noise &&
      after[k].noiseFreq == noiseFreq && after[k].noiseAmp == noiseAmp)
  }

  /** Growth that adds no key leaves the map as it was. */
  lemma NothingNew(after: map<int, TerrainChunk>, before: map<int, TerrainChunk>,
                   size: int, noiseFreq: real, noiseAmp: real, noise: Sampler)
    requires Grown(after, before, size, noiseFreq, noiseAmp, noise) && after.Keys <= before.Keys
    ensures after == before
  {
    forall k | k in before
      ensures k in after && after[k] == before[k]
    {
    }
    assert after.Keys == before.Keys;
    forall k | k in after
      ensures after[k] == before[k]
    {
    }
  }

  /** A map over exactly `keys` has as many entries as `keys`. */
  lemma KeyCount(mp: map<int, TerrainChunk>, keys: set<int>, n: int)
    requires mp.Keys == keys && |keys| == n
    ensures |mp| == n
  {
  }

  /**
   * Keys `start` extended by window `w0` and then by window `w1` gain, in the
   * second step, exactly what `w1` has beyond `w0` and beyond `start`.
   */
  lemma NewKeys(start: set<int>, before: set<int>, after: set<int>, w0: set<int>, w1: set<int>, gained: set<int>)
    requires before == start + w0 && after == before + w1 && w1 - w0 == gained
    ensures before <= after && after - before == gained - start
  {
  }

  /** Appending x to s adds x to its elements. */
  lemma ElemsSnoc(s: seq<int>, x: int)
    ensures Elems(s + [x]) == Elems(s) + {x}
  {
  }

  /** One chunk's `draw`: the texture binds it issued and the number of indices it drew. */
  datatype DrawCall = DrawCall(binds: seq<Bind>, indexCount: int)

  /**
   * `draws[i]` is the draw of the chunk resident under `keys[i]`: the given
   * binds, and all 6 * size^2 indices of that chunk's mesh.
   */
  ghost predicate DrewEach(chunks: map<int, TerrainChunk>, keys: seq<int>, draws: seq<DrawCall>, binds: seq<Bind>) {
    |draws| == |keys| &&
    forall i :: 0 <= i < |keys| ==>
      keys[i] in chunks && draws[i] == DrawCall(binds, 6 * (chunks[keys[i]].size * chunks[keys[i]].size))
  }

  /** Draws recorded against a map stay valid once the map only grows. */
  lemma DrewEachGrown(after: map<int, TerrainChunk>, before: map<int, TerrainChunk>,
                      keys: seq<int>, draws: seq<DrawCall>, binds: seq<Bind>)
    requires DrewEach(before, keys, draws, binds)
    requires forall k :: k in before ==> k in after && after[k] == before[k]
    ensures DrewEach(after, keys, draws, binds)
  {
    forall i | 0 <= i < |keys|
      ensures keys[i] in after && after[keys[i]] == before[keys[i]]
    {
      var k := keys[i];
      assert k in before;
      assert k in after && after[k] == before[k];
    }
  }

  /** Two runs of recorded draws concatenate. */
  lemma DrewEachAppend(chunks: map<int, TerrainChunk>, k0: seq<int>, d0: seq<DrawCall>,
                       k1: seq<int>, d1: seq<DrawCall>, binds: seq<Bind>)
    requires DrewEach(chunks, k0, d0, binds) && DrewEach(chunks, k1, d1, binds)
    ensures DrewEach(chunks, k0 + k1, d0 + d1, binds)
  {
    forall i | 0 <= i < |k0 + k1|
      ensures (k0 + k1)[i] in chunks
      ensures (d0 + d1)[i] == DrawCall(binds, 6 * (chunks[(k0 + k1)[i]].size * chunks[(k0 + k1)[i]].size))
    {
      if i >= |k0| {
        assert (k0 + k1)[i] == k1[i - |k0|] && (d0 + d1)[i] == d1[i - |k0|];
      }
    }
  }

  class TerrainManager {
    /** Resident chunks by key; nothing is ever removed. */
    var chunks: map<int, TerrainChunk>
    var chunkSize: int
    var renderDistance: int
    var noiseFreq: real
    var noiseAmp: real
    /** The noise every chunk's generator computes (each chunk builds one with identical settings). */
    const noise: Sampler

    /** Each resident chunk sits under the key of its own coordinate and holds its mesh. */
    ghost predicate Valid()
      reads this, chunks.Values
    {
      forall k :: k in chunks ==>
        IsInt32(chunks[k].chunkX) && IsInt32(chunks[k].chunkZ) &&
        Hash(chunks[k].chunkX, chunks[k].chunkZ) == k && chunks[k].Valid()
    }

    /** No chunks yet; chunk size 32, render distance 6, frequency 0.7, amplitude 8. */
    constructor (noise: Sampler)
      ensures chunks == map[] && this.noise == noise
      ensures chunkSize == 32 && renderDistance == 6 && noiseFreq == 0.7 && noiseAmp == 8.0
      ensures Valid()
    {
      chunks := map[];
      chunkSize, renderDistance := 32, 6;
      noiseFreq, noiseAmp := 0.7, 8.0;
      this.noise := noise;
    }

    /**
     * `update`: visit the window around the viewer's chunk row by row,
     * build each missing chunk, and draw every chunk of the window.
     * Returns the keys drawn, in drawing order.
     */
    method Update(posX: real, posZ: real, tm: TextureManager) returns (drawn: seq<int>, draws: seq<DrawCall>)
      requires Valid() && chunkSize > 0
      requires WindowFits(ViewerChunk(posX, chunkSize), ViewerChunk(posZ, chunkSize), renderDistance)
      modifies this
      ensures chunkSize == old(chunkSize) && renderDistance == old(renderDistance)
      ensures noiseFreq == old(noiseFreq) && noiseAmp == old(noiseAmp)
      ensures drawn == WindowKeys(ViewerChunk(posX, chunkSize), ViewerChunk(posZ, chunkSize), renderDistance)
      ensures chunks.Keys == old(chunks.Keys) + Elems(drawn)
      ensures Grown(chunks, old(chunks), chunkSize, noiseFreq, noiseAmp, noise)
      ensures forall k :: k in chunks && k !in old(chunks) ==> fresh(chunks[k])
      ensures DrewEach(chunks, drawn, draws, DrawBinds(tm))
      ensures Valid()
    {
      var camChunkX := ViewerChunk(posX, chunkSize);
      var camChunkZ := ViewerChunk(posZ, chunkSize);
      ghost var r := renderDistance;
      ghost var w := WindowKeys(camChunkX, camChunkZ, r);
      ghost var s := WindowSide(r);
      ghost var m := 0;
      drawn, draws := [], [];

      var dz := -renderDistance;
      while dz <= renderDistance
        invariant renderDistance == r && chunkSize == old(chunkSize)
        invariant noiseFreq == old(noiseFreq) && noiseAmp == old(noiseAmp)
        invariant -r <= dz && (dz <= r + 1 || dz == -r)
        invariant m == (dz + r) * s && 0 <= m <= |w|
        invariant drawn == w[..m]
        invariant chunks.Keys == old(chunks.Keys) + Elems(drawn)
        invariant Grown(chunks, old(chunks), chunkSize, noiseFreq, noiseAmp, noise)
        invariant forall k :: k in chunks && k !in old(chunks) ==> fresh(chunks[k])
        invariant DrewEach(chunks, drawn, draws, DrawBinds(tm))
        invariant Valid()
      {
        ghost var before := chunks;
        var rowKeys, rowDraws := VisitRow(camChunkX, camChunkZ + dz, tm);
        WindowRow(camChunkX, camChunkZ, r, dz, m);
        DrewEachGrown(chunks, before, drawn, draws, DrawBinds(tm));
        DrewEachAppend(chunks, drawn, draws, rowKeys, rowDraws, DrawBinds(tm));
        drawn, draws := drawn + rowKeys, draws + rowDraws;
        m := m + s;
        dz := dz + 1;
      }
      WindowEnd(r, dz, m);
    }

    /**
     * The inner loop of `update`: visit the chunks (cx - r .. cx + r, cz)
     * in order of increasing x. Returns the keys drawn.
     */
    method VisitRow(cx: int, cz: int, tm: TextureManager) returns (rowKeys: seq<int>, rowDraws: seq<DrawCall>)
      requires Valid() && chunkSize > 0 && IsInt32(cz)
      requires renderDistance >= 0 ==> IsInt32(cx - renderDistance) && IsInt32(cx + renderDistance)
      modifies this
      ensures rowKeys == RowKeys(cx, cz, renderDistance)
      ensures chunkSize == old(chunkSize) && renderDistance == old(renderDistance)
      ensures noiseFreq == old(noiseFreq) && noiseAmp == old(noiseAmp)
      ensures chunks.Keys == old(chunks.Keys) + Elems(rowKeys)
      ensures Grown(chunks, old(chunks), chunkSize, noiseFreq, noiseAmp, noise)
      ensures forall k :: k in chunks && k !in old(chunks) ==> fresh(chunks[k])
      ensures DrewEach(chunks, rowKeys, rowDraws, DrawBinds(tm))
      ensures Valid()
    {
      ghost var row := RowKeys(cx, cz, renderDistance);
      rowKeys, rowDraws := [], [];
      var dx := -renderDistance;
      while dx <= renderDistance
        invariant chunkSize == old(chunkSize) && renderDistance == old(renderDistance)
        invariant noiseFreq == old(noiseFreq) && noiseAmp == old(noiseAmp)
        invariant -renderDistance <= dx && (dx <= renderDistance + 1 || dx == -renderDistance)
        invariant 0 <= dx + renderDistance <= |row|
        invariant rowKeys == row[..dx + renderDistance]
        invariant chunks.Keys == old(chunks.Keys) + Elems(rowKeys)
        invariant Grown(chunks, old(chunks), chunkSize, noiseFreq, noiseAmp, noise)
        invariant forall k :: k in chunks && k !in old(chunks) ==> fresh(chunks[k])
        invariant DrewEach(chunks, rowKeys, rowDraws, DrawBinds(tm))
        invariant Valid()
      {
        ghost var before := chunks;
        var key, call := VisitChunk(cx + dx, cz, tm);
        RowStep(cx, cz, renderDistance, dx);
        ElemsSnoc(rowKeys, key);
        DrewEachGrown(chunks, before, rowKeys, rowDraws, DrawBinds(tm));
        DrewEachAppend(chunks, rowKeys, rowDraws, [key], [call], DrawBinds(tm));
        rowKeys, rowDraws := rowKeys + [key], rowDraws + [call];
        dx := dx + 1;
      }
    }

    /**
     * One visit of `update`'s inner loop: look the coordinate's key up, build
     * the chunk if it is missing, and draw it.
     */
    method VisitChunk(cx: int, cz: int, tm: TextureManager) returns (key: int, call: DrawCall)
      requires Valid() && chunkSize > 0 && IsInt32(cx) && IsInt32(cz)
      modifies this
      ensures key == Hash(cx, cz)
      ensures chunkSize == old(chunkSize) && renderDistance == old(renderDistance)
      ensures noiseFreq == old(noiseFreq) && noiseAmp == old(noiseAmp)
      ensures chunks.Keys == old(chunks.Keys) + {key}
      ensures Grown(chunks, old(chunks), chunkSize, noiseFreq, noiseAmp, noise)
      ensures key !in old(chunks) ==> fresh(chunks[key])
      ensures chunks[key].chunkX == cx && chunks[key].chunkZ == cz
      ensures call == DrawCall(DrawBinds(tm), 6 * (chunks[key].size * chunks[key].size))
      ensures Valid()
    {
      key := Hash(cx, cz);
      if key !in chunks {
        var chunk := new TerrainChunk(cx, cz, chunkSize, noiseFreq, noiseAmp, noise);
        chunks := chunks[key := chunk];
      }
      HashInjective(chunks[key].chunkX, chunks[key].chunkZ, cx, cz);
      var binds, indexCount := chunks[key].Draw(tm);
      call := DrawCall(binds, indexCount);
    }
  }

  /** A resident chunk's coordinate is the one its key encodes. */
  lemma ResidentCoordinate(m: TerrainManager, k: int)
    requires m.Valid() && k in m.chunks
    ensures (m.chunks[k].chunkX, m.chunks[k].chunkZ) == Unhash(k)
    ensures m.chunks[k].Valid()
  {
    UnhashHash(m.chunks[k].chunkX, m.chunks[k].chunkZ);
  }

  /**
   * Window completeness: once the window's keys are resident, every
   * coordinate of the box has its own chunk, with that coordinate.
   */
  lemma WindowResident(m: TerrainManager, cx: int, cz: int, r: int, a: int, b: int)
    requires m.Valid() && WindowFits(cx, cz, r)
    requires Elems(WindowKeys(cx, cz, r)) <= m.chunks.Keys
    requires InBox(cx, cz, r, (a, b))
    ensures Hash(a, b) in m.chunks
    ensures m.chunks[Hash(a, b)].chunkX == a && m.chunks[Hash(a, b)].chunkZ == b
  {
    WindowMembership(cx, cz, r, (a, b));
    var w := WindowCoords(cx, cz, r);
    var i :| 0 <= i < |w| && w[i] == (a, b);
    assert WindowKeys(cx, cz, r)[i] == Hash(a, b);
    ResidentCoordinate(m, Hash(a, b));
    UnhashHash(a, b);
  }

  /** Idempotence: a second update from the same position builds nothing. */
  method UpdateTwice(m: TerrainManager, posX: real, posZ: real, tm: TextureManager)
    returns (afterFirst: map<int, TerrainChunk>)
    requires m.Valid() && m.chunkSize > 0
    requires WindowFits(ViewerChunk(posX, m.chunkSize), ViewerChunk(posZ, m.chunkSize), m.renderDistance)
    modifies m
    ensures m.chunks == afterFirst
  {
    var first, firstDraws := m.Update(posX, posZ, tm);
    afterFirst := m.chunks;
    var second, secondDraws := m.Update(posX, posZ, tm);
    assert second == first;
    NothingNew(m.chunks, afterFirst, m.chunkSize, m.noiseFreq, m.noiseAmp, m.noise);
  }

  /**
   * Render distance 1, viewer at the origin: one update leaves exactly the
   * nine chunks {-1, 0, 1} x {-1, 0, 1} resident.
   */
  method OriginWindow(noise: Sampler, tm: TextureManager) returns (m: TerrainManager)
    ensures m.Valid() && |m.chunks| == 9
    ensures forall a, b :: -1 <= a <= 1 && -1 <= b <= 1 ==>
      Hash(a, b) in m.chunks && m.chunks[Hash(a, b)].chunkX == a && m.chunks[Hash(a, b)].chunkZ == b
  {
    m := new TerrainManager(noise);
    m.renderDistance := 1;
    ViewerChunkNegative();
    var drawn, draws := m.Update(0.0, 0.0, tm);
    OriginResident(m, drawn);
  }

  /** With the radius-1 window around chunk (0, 0) exactly resident, its nine coordinates have their chunks. */
  lemma OriginResident(m: TerrainManager, drawn: seq<int>)
    requires m.Valid() && m.renderDistance == 1 && WindowFits(0, 0, m.renderDistance)
    requires drawn == WindowKeys(0, 0, m.renderDistance) && m.chunks.Keys == {} + Elems(drawn)
    ensures |m.chunks| == 9
    ensures forall a, b :: -1 <= a <= 1 && -1 <= b <= 1 ==>
      Hash(a, b) in m.chunks && m.chunks[Hash(a, b)].chunkX == a && m.chunks[Hash(a, b)].chunkZ == b
  {
    OriginCount(m.chunks, m.renderDistance, drawn);
    forall a, b | -1 <= a <= 1 && -1 <= b <= 1
      ensures Hash(a, b) in m.chunks && m.chunks[Hash(a, b)].chunkX == a && m.chunks[Hash(a, b)].chunkZ == b
    {
      WindowResident(m, 0, 0, m.renderDistance, a, b);
    }
  }

  /** The keys of the radius-1 window around chunk (0, 0) are nine different keys. */
  lemma OriginCount(chunks: map<int, TerrainChunk>, r: int, drawn: seq<int>)
    requires r == 1 && WindowFits(0, 0, r)
    requires drawn == WindowKeys(0, 0, r) && chunks.Keys == {} + Elems(drawn)
    ensures |chunks| == 9
  {
    WindowKeyCount(0, 0, r);
    assert WindowSide(r) == 3;
    KeyCount(chunks, Elems(drawn), 9);
  }

  /**
   * Moving the viewer one chunk size along x after a first update adds
   * exactly the chunks of the new column (x = cx + r + 1) that were not
   * resident before the first update, and removes none; from an empty
   * registry that is the whole column of 2r + 1 chunks.
   */
  method StepAlongX(m: TerrainManager, posX: real, posZ: real, tm: TextureManager)
    returns (afterFirst: set<int>)
    requires m.Valid() && m.chunkSize > 0 && m.renderDistance >= 0
    requires WindowFits(ViewerChunk(posX, m.chunkSize), ViewerChunk(posZ, m.chunkSize), m.renderDistance)
    requires WindowFits(ViewerChunk(posX, m.chunkSize) + 1, ViewerChunk(posZ, m.chunkSize), m.renderDistance)
    modifies m
    ensures m.chunkSize == old(m.chunkSize) && m.renderDistance == old(m.renderDistance)
    ensures afterFirst <= m.chunks.Keys
    ensures m.chunks.Keys - afterFirst ==
      Elems(ColumnKeys(ViewerChunk(posX, m.chunkSize) + m.renderDistance + 1, ViewerChunk(posZ, m.chunkSize), m.renderDistance))
      - old(m.chunks.Keys)
    ensures old(m.chunks) == map[] ==>
      m.chunks.Keys - afterFirst ==
        Elems(ColumnKeys(ViewerChunk(posX, m.chunkSize) + m.renderDistance + 1, ViewerChunk(posZ, m.chunkSize), m.renderDistance))
  {
    ghost var start := m.chunks.Keys;
    ghost var cx, cz, r := ViewerChunk(posX, m.chunkSize), ViewerChunk(posZ, m.chunkSize), m.renderDistance;
    var first, firstDraws := m.Update(posX, posZ, tm);
    afterFirst := m.chunks.Keys;
    ViewerChunkShift(posX, m.chunkSize);
    var second, secondDraws := m.Update(posX + m.chunkSize as real, posZ, tm);
    WindowShiftX(cx, cz, r);
    NewKeys(start, afterFirst, m.chunks.Keys, Elems(first), Elems(second), Elems(ColumnKeys(cx + r + 1, cz, r)));
  }
}
