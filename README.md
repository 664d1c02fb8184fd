# Real-Time Terrain Renderer — verified model of the terrain core

This project models the core of a real-time terrain renderer in Dafny. An
infinite heightmap terrain is cut into square chunks. The **streaming manager**
(`TerrainManager`) finds the chunk under the viewer, keeps every chunk of the
square window of radius `renderDistance` around it resident, builds missing
chunks on first access, and draws each chunk of the window every frame. Each
**chunk** (`TerrainChunk`) samples a noise field on a `(size + 1)²` grid and
builds its own mesh: one height and five vertex floats per grid vertex, and
two triangles per cell. At draw time the chunk picks the PBR materials (sand,
grass, rock, snow) when all four are registered, and a single fallback texture
otherwise. The **texture registry** (`TextureManager`) loads simple textures
and PBR material sets through an image loader and binds them to consecutive
texture units. The **skybox cropper** (a Python script) computes the rectangles
that cut six cube faces out of a source image.

Files:

- `GridIndex.dfy`: row-major index arithmetic shared by the mesh and the
  streaming window.
- `TextureRegistry.dfy`: `TextureManager` as a class over two maps, with an
  image-loader parameter and bind traces.
- `ChunkMesh.dfy`: `TerrainChunk` as a class with `heights`, `vertices` and
  `indices` buffers, built by `while` loops. The loops are proved against
  specification functions, and winding, ranges and layout are proved about
  those functions.
- `ChunkRegistry.dfy`: the key packing `hash` and its inverse, the viewer
  chunk, the streaming window, and `TerrainManager` as a class over a map of
  chunk objects.
- `CubemapCrop.dfy`: face boxes, clamping, preview positions and the strip
  cut of `image_crop.py`.

Modelling choices:

- Floats are `real`. C++ `int` and `long long` are unbounded integers; the
  ranges that matter are written out (`IsInt32`, `IsInt64`) and required where
  the code depends on them.
- The noise generator (`FastNoiseLite::GetNoise`) is an arbitrary function
  `Sampler = (real, real) -> real`.
- The image loader (`loadTextureFromFile`: stb_image decoding plus GL texture
  creation) is a parameter `string -> nat`, where 0 means failure, as in the
  source.
- GL texture binds (`glActiveTexture(GL_TEXTURE0 + unit); glBindTexture(id)`)
  are returned as a trace of `Bind(unit, id)` records.
- The camera is its position: `Update` takes the viewer's x and z.
- `TerrainManager`'s configuration (`chunkSize`, `renderDistance`,
  `noiseFreq`, `noiseAmp`) is a set of public mutable fields in the source,
  not constants fixed at construction, so the model keeps them as `var`
  fields. `Update` proves it leaves them unchanged.
- What PIL does with a box or a size is an assumption of this model, stated in
  two definitions. `CropSize`: a crop raises on an inverted box and otherwise
  has the box's width and height. `Resize`: a resize to size×size raises
  when size ≤ 0, unless the image already is size×size, in which case it is
  copied.
- Heights are scaled by `noiseAmp` twice (src/TerrainChunk.cpp:35-37), exactly
  as the code does. The comment there says the range is
  `[-noiseAmp, noiseAmp]`; the model follows the code.

## Model

| member | source | states |
|---|---|---|
| ChunkMesh.TerrainChunk.constructor | src/TerrainChunk.cpp:8-20 | stores chunkX, chunkZ, size, noiseFreq, noiseAmp; the model translation is (chunkX·size, 0, chunkZ·size); the mesh is generated (Valid) |
| ChunkMesh.TerrainChunk.GenerateHeightmap | src/TerrainChunk.cpp:22-70 | after clearing, heights, vertices and indices are exactly the mesh of the chunk's parameters, whatever the buffers held before |
| ChunkMesh.TerrainChunk.PushGridVertices | src/TerrainChunk.cpp:29-51 | the vertex loops (z outer, x inner, 0..size inclusive) push the (size+1)² heights and the 5·(size+1)² vertex floats of the mesh; indices untouched |
| ChunkMesh.TerrainChunk.PushGridCells | src/TerrainChunk.cpp:53-69 | the cell loops push the 6·size² indices of the mesh; heights and vertices untouched |
| ChunkMesh.TerrainChunk.Draw | src/TerrainChunk.cpp:104-164 | with all four PBR sets registered it binds sand, grass, rock, snow at units 0, 4, 8, 12; otherwise the fallback texture at unit 0; it draws all indices |
| ChunkMesh.Heights | src/TerrainChunk.cpp:29-40 | the heights buffer holds one height per grid vertex, (size+1)² in all |
| ChunkMesh.Vertices | src/TerrainChunk.cpp:42-49 | the vertex buffer holds five floats per grid vertex |
| ChunkMesh.Indices | src/TerrainChunk.cpp:54-69 | the index buffer holds six indices per cell, 6·size² in all |
| ChunkMesh.HeightFormula | src/TerrainChunk.cpp:31-40 | height of vertex z·(size+1)+x = noise((chunkX·size+x)·freq, (chunkZ·size+z)·freq)·amp·amp |
| ChunkMesh.HeightEntry | src/TerrainChunk.cpp:29-40 | heights entry z·(size+1)+x is the height of grid vertex (x, z) |
| ChunkMesh.VertexLayout | src/TerrainChunk.cpp:42-49 | vertex z·(size+1)+x stores x, its height, z, x·(1/size)·2, z·(1/size)·2 |
| ChunkMesh.ConstantSamplerHeights | src/TerrainChunk.cpp:35-37 | a sampler constant s gives every height s·amp·amp |
| ChunkMesh.SizeTwoCounts | src/TerrainChunk.cpp:29-69 | size 2 gives 9 heights, 45 vertex floats, 24 indices |
| ChunkMesh.PushVertex | src/TerrainChunk.cpp:40-49 | pushing vertex (x, z) extends the heights prefix by its height and the vertex prefix by its five attributes |
| ChunkMesh.PushCell | src/TerrainChunk.cpp:56-67 | pushing cell (x, z) appends topLeft, bottomLeft, topRight, topRight, bottomLeft, bottomRight |
| ChunkMesh.CellLayout | src/TerrainChunk.cpp:54-67 | cell (x, z)'s six indices sit at offset 6·(z·size+x), with topLeft = z·(size+1)+x and bottomLeft = topLeft+size+1 |
| ChunkMesh.CellDecode | src/TerrainChunk.cpp:56-67 | corner j of cell z·size+x is the vertex the loop body computes for that corner |
| ChunkMesh.IndicesInRange | src/TerrainChunk.cpp:54-69 | every index names an existing vertex: 0 ≤ index < (size+1)² |
| ChunkMesh.CellWinding | src/TerrainChunk.cpp:56-67 | both triangles of a cell have orientation -1 in the (x, z) grid |
| ChunkMesh.TriangleWinding | src/TerrainChunk.cpp:54-69 | triangle t is half of cell t/2, so it has orientation -1 |
| ChunkMesh.WindingConsistent | src/TerrainChunk.cpp:54-69 | all 2·size² triangles have the same winding |
| ChunkMesh.PBRBindsWithin | src/TextureManager.cpp:159-182 | one material's binds lie in [start, start+4) with strictly increasing units |
| ChunkMesh.DrawBindsDisjointUnits | src/TerrainChunk.cpp:114-144 | draw never binds a unit twice and stays below unit 16; the fallback path binds at most one texture |
| ChunkMesh.RegenerateIsIdempotent | src/TerrainChunk.cpp:22-25 | regenerating a built chunk leaves its buffers identical (cleared, not appended to) |
| ChunkRegistry.HashFields | src/TerrainManager.cpp:10-12 | the key's high half is x and its low 32 bits are z's bit pattern; int inputs give a long long key |
| ChunkRegistry.UnhashHash | src/TerrainManager.cpp:10-12 | every x and 32-bit z is recovered from its key |
| ChunkRegistry.HashInjective | src/TerrainManager.cpp:10-12 | for int z, two coordinates share a key iff they are equal |
| ChunkRegistry.HashKeepsLow32BitsOfZ | src/TerrainManager.cpp:10-12 | only the low 32 bits of z reach the key |
| ChunkRegistry.ViewerChunk | src/TerrainManager.cpp:19-20 | the viewer chunk c satisfies c·size ≤ pos < (c+1)·size |
| ChunkRegistry.ViewerChunkUnique | src/TerrainManager.cpp:19-20 | that span determines c uniquely |
| ChunkRegistry.ViewerChunkShift | src/TerrainManager.cpp:19-20 | moving one chunk size along an axis moves the viewer chunk by one |
| ChunkRegistry.ViewerChunkNegative | src/TerrainManager.cpp:19-20 | floor rounds down: -0.5 is in chunk -1, and 0.0 and 31.5 are in chunk 0 (size 32) |
| ChunkRegistry.WindowCoords | src/TerrainManager.cpp:22-25 | the window lists (2r+1)² coordinates, none when r < 0 |
| ChunkRegistry.WindowAt | src/TerrainManager.cpp:22-25 | entry (dz+r)·(2r+1)+(dx+r) is (cx+dx, cz+dz): dz outer, dx inner |
| ChunkRegistry.WindowMembership | src/TerrainManager.cpp:22-25 | a coordinate is visited iff it lies in the box [cx-r, cx+r] × [cz-r, cz+r] |
| ChunkRegistry.WindowDistinct | src/TerrainManager.cpp:22-25 | no coordinate is visited twice |
| ChunkRegistry.WindowKeyMembership | src/TerrainManager.cpp:22-26 | a key is drawn iff it is the key of a coordinate of the box |
| ChunkRegistry.WindowKeysDistinct | src/TerrainManager.cpp:22-26 | the drawn keys are pairwise different |
| ChunkRegistry.WindowKeyCount | src/TerrainManager.cpp:22-33 | one update touches exactly (2r+1)² different chunks |
| ChunkRegistry.ColumnKeyMembership | src/TerrainManager.cpp:22-26 | a key is in column a of the window iff it encodes (a, z) with z within r of cz |
| ChunkRegistry.WindowShiftX | src/TerrainManager.cpp:22-33 | shifting the window by one chunk along x brings in exactly the column at cx+r+1 |
| ChunkRegistry.ColumnCount | src/TerrainManager.cpp:22-26 | that column has 2r+1 different keys |
| ChunkRegistry.TerrainManager.constructor | headers/TerrainManager.h:13-21 | no chunks; chunk size 32, render distance 6, frequency 0.7, amplitude 8 |
| ChunkRegistry.TerrainManager.Update | src/TerrainManager.cpp:15-35 | draws the window's keys in row-major order, each draw binding the registry's current textures and drawing all 6·size² indices of the chunk under that key; resident keys become old keys plus the window; old chunks are kept; new chunks are fresh and carry the manager's settings; configuration unchanged |
| ChunkRegistry.TerrainManager.VisitRow | src/TerrainManager.cpp:23-33 | the inner dx loop visits (cx-r .. cx+r, cz) in order, adds those keys and records one draw per key |
| ChunkRegistry.TerrainManager.VisitChunk | src/TerrainManager.cpp:24-32 | a missing key gets a new chunk built at (cx, cz); an existing one is reused; the chunk under the key has coordinate (cx, cz) and its draw binds the registry's textures and draws its 6·size² indices |
| ChunkRegistry.ResidentCoordinate | src/TerrainManager.cpp:24-29 | a resident chunk's coordinate is the one its key encodes, and its mesh is built |
| ChunkRegistry.WindowResident | src/TerrainManager.cpp:22-33 | after an update every coordinate of the window has a resident chunk with that coordinate |
| ChunkRegistry.UpdateTwice | src/TerrainManager.cpp:28-30 | a second update from the same position builds nothing and leaves the map unchanged |
| ChunkRegistry.OriginWindow | src/TerrainManager.cpp:15-35 | render distance 1 at the origin leaves exactly the nine chunks (-1..1, -1..1), each with its coordinate |
| ChunkRegistry.OriginResident | src/TerrainManager.cpp:22-33 | with the radius-1 window around (0, 0) resident there are nine chunks and each coordinate has its chunk |
| ChunkRegistry.StepAlongX | src/TerrainManager.cpp:19-33 | moving one chunk along x after an update adds exactly the keys of the new column that were not resident before, and removes none; from an empty registry, the whole column |
| TextureRegistry.TextureTypes | src/TextureManager.cpp:94-133 | grass, rock, snow and sand have five (type, file) entries in the order albedo, normal, roughness, ao, displacement; any other name has none |
| TextureRegistry.LoadedSetExact | src/TextureManager.cpp:135-143 | the set holds exactly the types whose load returned non-zero, with those ids, and nothing else |
| TextureRegistry.TableLoadExact | src/TextureManager.cpp:94-143 | the same for a material's table; an unknown material gives the empty set |
| TextureRegistry.LoadedSetShape | src/TextureManager.cpp:135-143 | the set never stores 0 and its types come from the table |
| TextureRegistry.BindsForConsecutive | src/TextureManager.cpp:159-182 | the i-th bind binds the i-th present type at unit start+i; absent types are skipped |
| TextureRegistry.DisplacementNeverBound | src/TextureManager.cpp:159-182 | displacement is never bound, and at most four binds happen |
| TextureRegistry.LoadTable | src/TextureManager.cpp:135-143 | the loading loop yields the loaded set, and tries the paths basePath + "/" + filename in table order |
| TextureRegistry.BindIfPresent | src/TextureManager.cpp:164-179 | one block binds type t at the current unit and advances the unit iff t is present |
| TextureRegistry.PBRBindsShape | src/TextureManager.cpp:159-182 | a stored set's binds are its albedo, normal, roughness, ao, those present, at units start, start+1, … |
| TextureRegistry.TextureManager.constructor | headers/TextureManager.h:20-26 | both maps start empty |
| TextureRegistry.TextureManager.LoadTexture | src/TextureManager.cpp:67-73 | returns the loader's id and stores it under the name only when it is non-zero; a failed load leaves the map unchanged |
| TextureRegistry.TextureManager.GetTexture | src/TextureManager.cpp:75-81 | the stored id, or 0 iff the name is absent |
| TextureRegistry.TextureManager.BindTexture | src/TextureManager.cpp:83-89 | binds the stored id at the unit when the name is present, else nothing |
| TextureRegistry.TextureManager.LoadPBRTextureSet | src/TextureManager.cpp:91-153 | tries the table's paths in order; stores the loaded set only if non-empty, so an all-failing reload keeps the old set; an unknown name tries nothing and stores nothing |
| TextureRegistry.TextureManager.HasPBRTextureSet | src/TextureManager.cpp:155-157 | a registered set belongs to a known material and is not empty |
| TextureRegistry.TextureManager.BindPBRTextures | src/TextureManager.cpp:159-182 | the binds are those of the stored set in bind order; an unknown name binds nothing |
| CubemapCrop.CrossBox | Assets/Textures/SkyBox2/image_crop.py:38-45 | each face is the f×f cell at its fixed (column, row) of the 4×3 cross |
| CubemapCrop.CrossFaces | Assets/Textures/SkyBox2/image_crop.py:36-45 | when w ≥ 4f and h ≥ 3f face i is its cross cell, f×f |
| CubemapCrop.CrossInside | Assets/Textures/SkyBox2/image_crop.py:36-72 | in the cross case with f ≥ 0 every box lies in the image, so clamping changes nothing |
| CubemapCrop.CrossDisjoint | Assets/Textures/SkyBox2/image_crop.py:25-45 | the six cross cells do not overlap |
| CubemapCrop.FallbackFaces | Assets/Textures/SkyBox2/image_crop.py:54-62 | otherwise face i is (i·fw, 0, (i+1)·fw, fw) with fw = w // 6 |
| CubemapCrop.FallbackClamp | Assets/Textures/SkyBox2/image_crop.py:54-72 | the fallback squares are side by side from x = 0 and fit the width, so clamping only lowers the bottom to min(h, fw) |
| CubemapCrop.StripsWithin | Assets/Textures/SkyBox2/image_crop.py:54-62 | six strips of width w // 6 end within w |
| CubemapCrop.Clamp | Assets/Textures/SkyBox2/image_crop.py:68-72 | the clamped box lies in the image, only shrinks the box, and equals it iff it was already inside |
| CubemapCrop.ClampIdempotent | Assets/Textures/SkyBox2/image_crop.py:68-72 | clamping twice is clamping once |
| CubemapCrop.ClampFaces | Assets/Textures/SkyBox2/image_crop.py:65-72 | the face loop clamps each table box, giving boxes inside the image |
| CubemapCrop.ClampedWellFormed | Assets/Textures/SkyBox2/image_crop.py:36-75 | every clamped box is upright, so each crop succeeds, iff f ≥ 0 |
| CubemapCrop.NegativeFaceSizeInverted | Assets/Textures/SkyBox2/image_crop.py:36-75 | every f < 0 passes the cross test for any image, and every face's clamped box is inverted |
| CubemapCrop.SavedFacesSquare | Assets/Textures/SkyBox2/image_crop.py:77-83 | every saved face is f×f; the resize fails iff f ≤ 0 and the crop is not already f×f |
| CubemapCrop.CrossNoResize | Assets/Textures/SkyBox2/image_crop.py:77-83 | in the cross case with f ≥ 0 no face is resized |
| CubemapCrop.PreviewMatchesCross | Assets/Textures/SkyBox2/image_crop.py:99-108 | each face is pasted at the top-left corner of its cross cell and fits the 4f×3f canvas |
| CubemapCrop.StripsTile | Assets/Textures/SkyBox2/image_crop.py:153-162 | the strips start at 0, each ends where the next starts, are disjoint, fw wide and region-high, and lie in the region |
| CubemapCrop.StripBoxes | Assets/Textures/SkyBox2/image_crop.py:158-165 | the strip loop computes strip i = (i·fw, 0, (i+1)·fw, height) |
| CubemapCrop.SingleRegionFaces | Assets/Textures/SkyBox2/image_crop.py:131-169 | fails iff the clamped region is inverted or the strips cannot be resized to the face size; otherwise it gives face size min(width // 6, height) and the six strips |
| CubemapCrop.SingleRegionResizeFails | Assets/Textures/SkyBox2/image_crop.py:153-169 | a region that crops fails at the resize iff it is narrower than 6 px or has no height, but not both |
| CubemapCrop.NarrowImageFails | Assets/Textures/SkyBox2/image_crop.py:131-169 | a 5×5 image cut whole crops, then fails at the resize (0×5 strips to 0×0) |
| CubemapCrop.WholeImageRegion | Assets/Textures/SkyBox2/image_crop.py:135-136 | with no region the whole w×h image is cut |
| CubemapCrop.FaceFitsStrip | Assets/Textures/SkyBox2/image_crop.py:153-169 | the face size is the largest square that fits in each strip |

## Left out

- OpenGL: `setupMesh` (buffer upload), the shader uniforms set in `draw`
  (material units, height thresholds, light, matrices), `glDrawElements`
  beyond its index count, and texture creation inside `loadTextureFromFile`.
  They are side effects through a foreign API; binds are kept as a trace.
- FastNoiseLite: the noise algorithm and its configuration (Perlin, no
  fractal) are inside the `Sampler` parameter.
- Floating-point rounding: all float arithmetic is exact real arithmetic. This
  covers heights, texture coordinates, `cameraPos / chunkSize` and `floor`.
- The camera: `update` takes the viewer's position as two reals. The
  projection and view matrices are left out because they only feed the
  shaders.
- src/main.cpp, the window, the frame loop and the overlay: these are the
  program driver, not the core.
- stb_image decoding and PIL image I/O (open, crop pixels, resize, save,
  `os.makedirs`, `os.path.exists`): only the rectangles are modelled.
  `Assets/Textures/SkyBox2/blender_cube.py` is not part of this model.
- Memory ownership: the raw `new` of chunks that are never deleted, and the
  `getInstance` singleton. Chunks are Dafny objects in a map, and the texture
  manager is passed explicitly.
- ChunkMesh.TerrainChunk.GenerateHeightmap: requires size > 0, because the
  source divides by size (texScale = 1/size) and sizes of 0 or less are not
  meant to be used.
- ChunkRegistry.TerrainManager.Update: requires chunkSize > 0 (the source
  divides by it). It also requires every coordinate of the window to be a
  32-bit int (`WindowFits`). The source's `int` arithmetic `camChunkX + dx`,
  and the float-to-int conversion of the floor, would overflow outside that
  range. The model does not represent that overflow.
- ChunkMesh.TerrainChunk.constructor: `chunkX * size` is exact here. The
  source computes it in `int` and converts it to float, so wrap-around for
  huge chunk coordinates is not modelled.
- ChunkMesh.TerrainChunk.GenerateHeightmap, ChunkMesh.TerrainChunk.PushGridVertices
  and ChunkMesh.TerrainChunk.PushGridCells: the `int` products
  `chunkX * size + x` (src/TerrainChunk.cpp:31-32) and the index arithmetic
  `z * (size + 1) + x` (src/TerrainChunk.cpp:56-58) are exact here. In the
  source they overflow for huge chunk coordinates or sizes, for instance
  |chunkX| ≥ 2²⁶ at size 32, which the manager's 32-bit chunk range allows.
- ChunkRegistry.Hash: written as x·2³² + (z mod 2³²). This equals the source's
  shift-and-or because the low 32 bits of `x << 32` are zero. Its properties
  are stated for 32-bit z, the only range `int` can hold.
- Helper splits: `PushGridVertices`/`PushGridCells` (the two loop pairs of
  `generateHeightmap`), `VisitRow`/`VisitChunk` (the inner loop and its body
  in `update`), `LoadTable` (the loading loop of `loadPBRTextureSet`),
  `BindIfPresent` (one of the four identical blocks of `bindPBRTextures`) and
  `StripBoxes` (the strip loop) are not separate functions in the source.
- The resize branches of `generate_cubemap` and the strip resize of
  `generate_cubemap_from_single_region` are kept only as the size they
  produce, or their failure (`Resize`); the LANCZOS resampling is not
  modelled. In `SingleRegionFaces` the faces saved before a failing resize
  are not modelled: all six strips have one size, so the first resize fails.
- Console output: the fallback-texture warning of `draw`
  (src/TerrainChunk.cpp:141), the load messages of the texture manager
  (src/TextureManager.cpp:58-61 and 142-151) and the script's `print` calls.
  They only report; nothing reads them.
