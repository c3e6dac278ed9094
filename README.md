# Cone mesh, arrow-key offsets and quadrant window — a Dafny model

This project models three pieces of a set of WebGL course exercises and
proves what they promise.

- **The `Cone` class of `hw07/cone.js`** (modules `ConeGeometry`,
  `ConeProperties`, `VertexBuffer`, `ConeMesh`).
  - The constructor builds a cone of `segments` triangular faces, one face
    at a time. Each face pushes onto five parallel lists:
    - its two base-circle vertices and the apex;
    - its flat face normal, three times;
    - the chosen colour, three times;
    - cylindrical texture coordinates;
    - the indices `3i, 3i+1, 3i+2`.
  - The lists become typed arrays. Two backup copies of the normals are
    kept.
  - `computeVertexNormals` fills a second normal buffer with per-slot smooth
    normals: `(x, 0, z)` normalised, or `(0, 1, 0)` on the axis.
  - The two copy methods overwrite the active `normals` array in place.
  - `initBuffers` and `updateNormals` upload the arrays to the GPU array
    buffer at fixed byte offsets.
  - In Dafny:
    - The class keeps the arrays as `array` fields.
    - The constructor's loop is a method, `BuildFaces`, proved equal to
      `Stream`, a per-face specification function. Its loop body is
      `PushFace`.
    - `ComputeVertexNormals` is a loop proved equal to the specification
      function `SmoothNormals`.
    - The GPU buffer is a `seq<real>`, one entry per 32-bit float. It is
      changed only through models of `bufferData` and `bufferSubData`.
- **The keydown handler of `hw02/hw02.js`** (module `ArrowKeys`).
  - Two counters start at 0. Each arrow key moves one of them by one, and
    both are then clamped to [-90, 90].
  - The class `KeyboardState` holds the counters. Its `KeyDown` method is
    proved equal to the specification function `KeyStep`.
- **`hw01/01_HelloWindow.js`** (module `HelloWindow`).
  - The resize rule picks the new square canvas size, `NewSize`.
  - `render` clears four quadrants in four colours with the scissor test.
  - The class `GlCanvas` holds the canvas size and the WebGL state the
    program sets. It records every clear it issues.
  - Lemmas show that, on the (always square) canvas, the quadrants tile the
    canvas and every pixel ends up in its quadrant's colour.

## Modelling choices

- **Host numerics.** `Math.PI`, `Math.cos`, `Math.sin`, `Math.sqrt` and
  `vec3.normalize` are values of a `Numerics` record passed to the cone.
  Nothing is required of them except in the lemmas that need it:
  - `SqrtSeparatesZero`: `sqrt(0) = 0` and `sqrt` is positive on positive
    arguments;
  - `SqrtIsRoot`: `sqrt` is the non-negative square root;
  - `KeepsPerpendicular`: `normalize` only rescales, so a direction
    perpendicular to its argument stays perpendicular to its result;
  - `Pythagorean`: `cos² + sin² = 1`.
- **Numbers.** Floating-point values are modelled as reals. Rounding to
  32-bit floats is not modelled. The `Uint16Array` conversion is modelled as
  taking every value modulo 2^16.
- **`segments`.** The code does not validate `segments`. The constructor
  requires `0 < segments` and `3 * segments <= 65536`, so that the index list
  fits in 16 bits. One and two segments are accepted and give degenerate
  cones.
- **Apex normal.** The comment in `computeVertexNormals` says that a zero
  length "does not happen". In fact every apex slot has `x = z = 0` and
  takes the `(0, 1, 0)` branch; `ApexSmoothNormal` proves it.

## Model

| member | source | states |
|---|---|---|
| `Optional.Option.GetOr` | hw07/cone.js:33 | `options.color \|\| defaultColor`: the given colour when present, the default otherwise |
| `Vectors.Sub` | hw07/cone.js:63-67 | `vec3.subtract(out, a, b)`: adding the result to b gives back a |
| `Vectors.Cross` | hw07/cone.js:69-70 | `vec3.cross`: the result is perpendicular to both operands |
| `ConeGeometry.BaseVertex` | hw07/cone.js:40-43 | base vertex i lies on the plane y = -0.5 and, when cos² + sin² = 1, on the circle of radius 0.5 around the axis |
| `ConeGeometry.RawFaceNormal` | hw07/cone.js:59-70 | `cross(v2 - v0, v1 - v0)` is perpendicular to both edges of face i |
| `ConeGeometry.FaceNormal` | hw07/cone.js:59-71 | the normalised face normal stays perpendicular to both edges of the face, for a `normalize` that only rescales |
| `ConeGeometry.FaceData` | hw07/cone.js:49-98 | one face adds 9 floats to the position, normal and colour streams and 6 to the texture-coordinate stream |
| `ConeGeometry.Stream` | hw07/cone.js:35-106 | after k faces, the stream of an attribute holds exactly `Width(a) * k` floats |
| `ConeGeometry.StreamAt` | hw07/cone.js:35-106 | entry j of face i sits at index `Width(a) * i + j` of the stream, for every face already pushed |
| `ConeGeometry.IndexStream` | hw07/cone.js:102-105 | after k faces the index list has 3k entries and entry s is s |
| `ConeGeometry.Uint16` | hw07/cone.js:113 | the `Uint16Array` copy keeps the length, holds only values in [0, 65536), and keeps every value already in that range |
| `ConeGeometry.SlotNormal` | hw07/cone.js:139-150 | with `len = sqrt(x*x + z*z)` positive, the smooth normal is horizontal and scaling it by len gives back (x, 0, z); otherwise it is (0, 1, 0) |
| `ConeGeometry.SlotNormalIsUnit` | hw07/cone.js:139-150 | with `sqrt` the non-negative square root, every smooth normal has length 1 |
| `ConeGeometry.SmoothPrefix` | hw07/cone.js:133-151 | the smooth normals of the first k slots are 3k floats |
| `ConeGeometry.SmoothNormals` | hw07/cone.js:129-131 | the smooth-normal buffer has the length of the vertex array |
| `ConeGeometry.SlotNormalOnAxis` | hw07/cone.js:139-150 | with a `sqrt` that is zero only at zero, a slot gets `(0, 1, 0)` if and only if `x = z = 0`; every other slot gets a normal with y = 0 |
| `ConeGeometry.SmoothNormalsAt` | hw07/cone.js:133-151 | entries 3v, 3v+1 and 3v+2 of the smooth-normal buffer are the smooth normal of vertex slot v |
| `ConeGeometry.SmoothPrefixAt` | hw07/cone.js:133-151 | the same per-slot statement for every prefix of the buffer |
| `ConeProperties.StreamLengths` | hw07/cone.js:35-113 | positions, normals and colours hold 9n floats, texture coordinates 6n and indices 3n |
| `ConeProperties.FacePositions` | hw07/cone.js:36-56 | face i's slots 3i and 3i+1 are the base-circle points at angles i·step and (i+1)·step with y = -0.5; slot 3i+2 is the apex (0, 0.5, 0) |
| `ConeProperties.AdjacentFacesMeet` | hw07/cone.js:36-56 | the second base vertex of face i equals the first base vertex of face i+1 |
| `ConeProperties.FaceNormalShared` | hw07/cone.js:69-76 | the face normal of face i is written identically to all three of its slots |
| `ConeProperties.ColorsReplicated` | hw07/cone.js:79-85 | every vertex slot holds the first three colour channels, so the stream is 9n floats and alpha is never stored |
| `ConeProperties.FaceTexCoords` | hw07/cone.js:89-98 | face i's texture coordinates are (i/n, 0), ((i+1)/n, 0), ((i+1)/n, 1) |
| `ConeProperties.TexCoordsInUnitRange` | hw07/cone.js:89-98 | every texture coordinate lies in [0, 1] |
| `ConeProperties.TexCoordSeam` | hw07/cone.js:89-98 | face 0 starts at u = 0 and face n-1 ends at u = 1 |
| `ConeProperties.IndicesOwnTheirSlots` | hw07/cone.js:102-105 | face i's indices are 3i, 3i+1 and 3i+2; every index is below the number of vertex slots; no two index entries are equal |
| `ConeProperties.ApexSmoothNormal` | hw07/cone.js:139-150 | every apex slot's smooth normal is exactly (0, 1, 0) |
| `ConeProperties.UprightOnAxis` | hw07/cone.js:145-150 | a slot on the axis gets (0, 1, 0) |
| `ConeProperties.ApexOnAxis` | hw07/cone.js:44-55 | slot 3i+2 of every face has x = z = 0 |
| `ConeProperties.BaseSmoothNormal` | hw07/cone.js:139-144 | both base slots of every face get a horizontal smooth normal (y = 0) |
| `ConeProperties.BaseSlotHorizontal` | hw07/cone.js:139-144 | the same, for one base slot at a time |
| `ConeProperties.BaseOnCircle` | hw07/cone.js:40-53 | base slot 3i+k holds the base-circle point at angle (i+k)·step |
| `ConeProperties.HorizontalOffAxis` | hw07/cone.js:139-144 | a slot holding a point of the base circle gets y = 0 in the smooth-normal buffer |
| `ConeProperties.OffAxisHorizontal` | hw07/cone.js:139-144 | a point of the base circle is off the axis, so its smooth normal is horizontal |
| `VertexBuffer.ByteLength` | hw07/cone.js:168-171 | `byteLength` is a multiple of 4 and divided by 4 gives back the element count, so it addresses the entry right after the block |
| `VertexBuffer.BufferData` | hw07/cone.js:176 | `bufferData(totalSize)` gives `totalSize / 4` zeroed float entries |
| `VertexBuffer.BufferSubData` | hw07/cone.js:179-182 | a write keeps the buffer's length; a write past the end (INVALID_VALUE) leaves the buffer unchanged |
| `VertexBuffer.BufferSubDataAt` | hw07/cone.js:179-182 | a write that fits replaces exactly the entries from offset/4 on with the data and keeps every other entry |
| `VertexBuffer.Upload` | hw07/cone.js:168-182 | `bufferData` followed by the four `bufferSubData` calls leaves the buffer equal to vertices ++ normals ++ colors ++ texCoords |
| `VertexBuffer.UploadWrites` | hw07/cone.js:176-182 | the four writes at offsets 0, vSize, vSize+nSize and vSize+nSize+cSize fill the zeroed storage exactly |
| `VertexBuffer.OffsetsAddressBlocks` | hw07/cone.js:168-193 | totalSize is the byte size of the upload; every offset is float-aligned and addresses the first entry of its own block |
| `VertexBuffer.RewriteNormalBlock` | hw07/cone.js:212-214 | rewriting the normal block at byte offset vSize replaces the normals and nothing else |
| `ConeMesh.NewFloat32Array` | hw07/cone.js:109-112 | `new Float32Array(list)` is a fresh array holding the list |
| `ConeMesh.NewUint16Array` | hw07/cone.js:113 | `new Uint16Array(list)` is a fresh array holding the list modulo 2^16 |
| `ConeMesh.NewArrays` | hw07/cone.js:109-117 | the seven typed arrays are fresh and hold their lists; the active normal array is distinct from every other array |
| `ConeMesh.BuildFaces` | hw07/cone.js:22-106 | the face loop leaves each list equal to its stream over all n faces, and the index list equal to 0 .. 3n-1 |
| `ConeMesh.PushFace` | hw07/cone.js:36-105 | one pass of the loop appends exactly face i's data to each list, and 3i, 3i+1, 3i+2 to the indices |
| `ConeMesh.PushThrice` | hw07/cone.js:74-85 | each inner `k < 3` loop appends its triple three times |
| `ConeMesh.UnwrappedIndices` | hw07/cone.js:113 | with at most 65536 slots, the `Uint16Array` keeps every index unchanged |
| `ConeMesh.Cone.constructor` | hw07/cone.js:8-122 | the object invariant holds; the active normals equal the face normals; the array buffer holds the four blocks end to end; the element buffer holds the indices; every array is fresh |
| `ConeMesh.Cone.ComputeVertexNormals` | hw07/cone.js:128-152 | a fresh buffer whose slot v is the smooth normal of vertex slot v |
| `ConeMesh.Cone.CopyFaceNormalsToNormals` | hw07/cone.js:155-157 | the active normals become the flat face normals of the mesh, whatever they held before, and the invariant (both backups intact) is kept |
| `ConeMesh.Cone.CopyVertexNormalsToNormals` | hw07/cone.js:160-162 | the active normals become the smooth normals of the vertices, and the invariant is kept |
| `ConeMesh.Cone.InitBuffers` | hw07/cone.js:164-202 | the array buffer holds vertices, normals, colors and texCoords end to end; the element buffer holds the indices; the layout has the sizes and offsets handed to the attribute pointers |
| `ConeMesh.Cone.UpdateNormals` | hw07/cone.js:207-218 | the normal block is rewritten at byte offset vSize; on a buffer laid out by `initBuffers` the result holds the current normals and the other blocks unchanged |
| `ConeMesh.Cone.Draw` | hw07/cone.js:224-230 | `drawElements` reads 3n indices, each naming an existing vertex slot |
| `ArrowKeys.Clamp` | hw02/hw02.js:52-68 | the result lies in [-90, 90] and equals the input when the input is already in range |
| `ArrowKeys.ClampIsNearest` | hw02/hw02.js:52-68 | no value in [-90, 90] is closer to the input than the clamped value |
| `ArrowKeys.KeyOf` | hw02/hw02.js:39-48 | a value of `event.key` is an arrow key exactly when it is one of "ArrowUp", "ArrowDown", "ArrowLeft", "ArrowRight", and then it is the key of that name |
| `ArrowKeys.Move` | hw02/hw02.js:39-50 | Up and Down change only verticalMove, Left and Right only horizontalMove, each by one; any other key changes nothing |
| `ArrowKeys.KeyStep` | hw02/hw02.js:38-69 | after any keydown both counters are in [-90, 90], and an in-range move is kept unclamped |
| `ArrowKeys.KeyStepIsOneStep` | hw02/hw02.js:38-69 | from an in-range state one keydown moves the two counters by at most one step in total |
| `ArrowKeys.Run` | hw02/hw02.js:38-69 | from an in-range state, n keydown events move the counters by at most n steps in total |
| `ArrowKeys.RunStaysInRange` | hw02/hw02.js:8-68 | from any in-range state, in particular the initial (0, 0), every sequence of key events keeps both counters in [-90, 90] |
| `ArrowKeys.RunAppend` | hw02/hw02.js:38-69 | handling a ++ b is handling a, then b from where a left off |
| `ArrowKeys.VerticalKeys` | hw02/hw02.js:39-59 | ArrowUp sets verticalMove to min(v+1, 90) and ArrowDown to max(v-1, -90); horizontalMove is unchanged |
| `ArrowKeys.HorizontalKeys` | hw02/hw02.js:45-68 | ArrowRight sets horizontalMove to min(h+1, 90) and ArrowLeft to max(h-1, -90); verticalMove is unchanged |
| `ArrowKeys.OtherKeyIgnored` | hw02/hw02.js:39-68 | an `event.key` that is none of the four arrow names leaves an in-range state unchanged |
| `ArrowKeys.OppositeKeysCancel` | hw02/hw02.js:39-68 | when a key's move stays in range, the opposite key right after it restores the state |
| `ArrowKeys.AxesCommute` | hw02/hw02.js:39-68 | a vertical and a horizontal key give the same state in either order |
| `ArrowKeys.KeyboardState.constructor` | hw02/hw02.js:8-9 | both counters start at 0, which is in range |
| `ArrowKeys.KeyboardState.KeyDown` | hw02/hw02.js:38-69 | the handler's string comparisons and clamps leave the counters at `KeyStep` of the old ones for the key `event.key` names, hence in range |
| `HelloWindow.NewSize` | hw01/01_HelloWindow.js:53-75 | the new size is at most 500, at most innerWidth and at most innerHeight, and equals one of the three |
| `HelloWindow.NewSizeIsMinimum` | hw01/01_HelloWindow.js:53-75 | the new size is min(500, innerWidth, innerHeight) |
| `HelloWindow.Quadrants` | hw01/01_HelloWindow.js:23-48 | render issues four clears; in each, the scissor box equals the viewport and is a square of side canvas.width / 2 |
| `HelloWindow.QuadrantsTileCanvas` | hw01/01_HelloWindow.js:24-47 | on a square canvas, a pixel lies in one of the four regions if and only if it is on the canvas, and in no two of them |
| `HelloWindow.RenderPaintsQuadrants` | hw01/01_HelloWindow.js:27-47 | whatever was drawn before, after render every canvas pixel shows its quadrant's colour (top-left red, top-right green, bottom-left blue, bottom-right yellow) and no pixel off the canvas changes |
| `HelloWindow.PaintOver` | hw01/01_HelloWindow.js:32 | a clear paints the pixels of its region in its colour and leaves every other pixel as it was |
| `HelloWindow.GlCanvas.ClearColorBuffer` | hw01/01_HelloWindow.js:16 | `gl.clear` paints the scissor box when the scissor test is on, and the whole canvas otherwise |
| `HelloWindow.GlCanvas.constructor` | hw01/01_HelloWindow.js:10-20 | the canvas starts at 500 × 500, is cleared to the background colour, then rendered; the scissor test is left on, with the scissor box and viewport at the bottom-right quadrant and the clear colour yellow |
| `HelloWindow.GlCanvas.Render` | hw01/01_HelloWindow.js:23-48 | render issues exactly the four quadrant clears, keeps the canvas square, and leaves the scissor box and viewport at the bottom-right quadrant with the clear colour yellow |
| `HelloWindow.GlCanvas.Resize` | hw01/01_HelloWindow.js:51-81 | the canvas becomes a NewSize × NewSize square, the quadrants are cleared again at the new size, and the scissor box, viewport and clear colour are those render leaves |

## Left out

- ConeMesh.Cone.constructor: with `segments = 0`, JavaScript computes an infinite `angleStep`, runs the face loop zero times and builds an empty cone. The model requires `0 < segments` and leaves this empty cone out.
- Default arguments of the `Cone` constructor (`segments = 32`, `options = {}`): the model always takes an explicit segment count and an optional colour.
- The WebGL context and its handles (`gl`, `vao`, `vbo`, `ebo` as objects), and the calls that only bind, enable or unbind state. `vbo` and `ebo` stand for the contents of the two buffers.
- The attribute-pointer component counts and types. The colour pointer declares 4 components over a stream of 3 per vertex (hw07/cone.js:192); that is GPU-side behaviour and is not modelled.
- `Cone.delete` (hw07/cone.js:235-240) only releases GPU objects. `Cone.draw` is reduced to the index count and index range it hands to `drawElements`.
- Numeric values of `Math.cos`, `Math.sin`, `Math.sqrt` and `vec3.normalize` are parameters. `vec3.normalize` is abstract, so the face normals are not proved to have unit length. No normal is proved to point outward. The smooth normals have unit length only when `sqrt` is the square root (`SqrtIsRoot`, in `ConeGeometry.SlotNormalIsUnit`). Base vertices lie on the circle only when cos² + sin² = 1 (`Pythagorean`). 32-bit float rounding in `Float32Array` is not modelled.
- ConeMesh.Cone.constructor: the colour option must have at least three channels (`ColorOk`). JavaScript accepts a shorter array, pushes `undefined` and stores NaN. A `null` `options` object is also left out; JavaScript throws a TypeError on it. `segments` is a natural number, so fractional counts are left out: for 2.5, JavaScript runs 3 faces and gives texture coordinates past 1. These inputs are outside the constructor's documented parameters (hw07/cone.js:6).
- ConeMesh.Cone.UpdateNormals: states the buffer contents only when the buffer still has `initBuffers`' layout. The GPU buffer could otherwise have been replaced by code outside the class.
- In hw02.js: canvas and context setup (`initWebGL`), shader loading, buffer setup, the render loop and the uniform upload of the counters. The counters are JavaScript numbers; they stay whole numbers, so they are `int`s here.
- In 01_HelloWindow.js:
  - the null-context check;
  - the browser clearing the canvas when its size is set;
  - WebGL truncating fractional scissor and viewport arguments when the canvas side is odd.
  Rectangles are over the reals.
- The other exercises of the repository (hw06/homework06.js, hw09/hw09.js) are not part of this model.
