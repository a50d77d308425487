# Procedurally generated forest: a Dafny model of its scene and frame logic

The forest renderer draws a grass floor and randomly scattered trees and rocks
with WebGL, and lets the mouse wheel zoom the camera. This project models the
sequential logic under the WebGL plumbing and proves what it guarantees:

- **Zoom** (`camera.dfy`): the `zoomLevel` variable starts at 1.0. Each wheel event
  multiplies it by 1.1 when `deltaY > 0` and by 0.9 otherwise, then clamps it to
  [0.1, 10]. `ZoomController` is a class holding that field. Its `OnWheel` method is
  the handler. The camera sits at (0, 50, 200 / zoom) and looks at the origin.
- **Placement** (`placement.dfy`): `getRandomPositions(count, range)` as a loop. The
  values `Math.random()` would return are injected as a sequence, two per position.
- **Assets** (`assets.dfy`): the map over decoded geometries that prepares each
  geometry's `color` entry in place, creates its buffer and looks up its material.
  The material table is a `map`, and a missing name yields `None` (`undefined`).
- **Floor** (`floor.dfy`): the constant floor mesh and the floor material.
- **Frame** (`graphics.dfy`, `render.dfy`): a `Device` class records the state bound
  on the GPU and a trace of draw calls, each with the state it was issued under.
  `RenderFrame` runs the renderer's nested loops on it. `FrameDraws` gives a frame's
  draws in closed form, and the lemmas in `RenderFacts` state their number, their
  order and the state each draw is paired with.
- **Start-up** (`forest.dfy`): the early return without a WebGL2 context, asset
  preparation, the floor buffer and texture, and the placement of 30 trees and 20 rocks.

Arithmetic is over `real`. Buffers, textures and the shader program are opaque
values. A buffer is known by the arrays uploaded into it. A matrix is known by the
inputs the matrix library builds it from.

`twgl.setUniforms` is modelled as setting exactly the uniforms named in its
arguments. An `undefined` argument sets none. So when a part's material name is not
in the table, that part is drawn with whatever material was bound before it: the
previous part's, or the floor's. `RenderFacts.FrameMaterials` states this.

Some behaviour of `app.js` worth stating plainly, since the model keeps it:
- A geometry naming a material the table lacks does not raise an error. Its part gets
  no material (app.js:121).
- Without a WebGL2 context, start-up returns silently and draws nothing (app.js:8-10).
- A wheel event with positive `deltaY` raises the zoom level, which moves the camera
  closer (app.js:176, 211). Any other event lowers it, down to the minimum.
- Fully zoomed out (zoom 0.1), the camera is at z = 2000. The origin it looks at is then
  about 2000.6 away, beyond the far plane at 2000 (app.js:208, 211-212).
  `Camera.ZoomedOutTargetBeyondFar` states this. From zoom 0.11 upwards the origin is
  within the far plane (`Camera.TargetWithinFar`).

## Model

| member | source | states |
|---|---|---|
| `Camera.Clamp` | proc/Procedurally-Generated-Forest-main/app.js:177 | the result is always in [0.1, 10], equals the input when the input is in range, and is the nearer bound otherwise |
| `Camera.NextZoom` | proc/Procedurally-Generated-Forest-main/app.js:176-177 | after one wheel event the zoom is in [0.1, 10]; from an in-range level a positive delta never lowers it and any other delta (zero included) never raises it; each moves it strictly unless it is already at the bound it moves towards |
| `Camera.ZoomAfterInRange` | proc/Procedurally-Generated-Forest-main/app.js:173-177 | any non-empty run of wheel events ends in range, and an empty run keeps an in-range level |
| `Camera.ZoomAlwaysInRange` | proc/Procedurally-Generated-Forest-main/app.js:173-177 | starting at 1.0, the zoom is in [0.1, 10] after every run of wheel events |
| `Camera.ZoomAfterMonotone` | proc/Procedurally-Generated-Forest-main/app.js:176-177 | the same wheel events applied to two non-negative zoom levels keep their order |
| `Camera.NextZoomMonotone` | proc/Procedurally-Generated-Forest-main/app.js:176-177 | one wheel event keeps the order of two non-negative zoom levels |
| `Camera.CameraPosition` | proc/Procedurally-Generated-Forest-main/app.js:211 | the camera is at x = 0, y = 50, with z · zoom = 200; for an in-range zoom, z lies in [20, 2000] |
| `Camera.CameraApproachesWithZoom` | proc/Procedurally-Generated-Forest-main/app.js:211 | a higher zoom level never puts the camera farther away, and z stays positive |
| `Camera.InitialCamera` | proc/Procedurally-Generated-Forest-main/app.js:211 | at the initial zoom the camera is at (0, 50, 200) |
| `Camera.CameraFor` | proc/Procedurally-Generated-Forest-main/app.js:206-214 | the camera looks from `CameraPosition(zoom)` at the origin with +Y up; the projection has a 60° field of view, the frame's aspect ratio, near plane 0.1 and far plane 2000 |
| `Camera.TargetDistance` | proc/Procedurally-Generated-Forest-main/app.js:210-213 | the squared distance from the eye to the origin is 2500 plus the square of the eye's z, where z · zoom = 200 |
| `Camera.ZoomedOutTargetBeyondFar` | proc/Procedurally-Generated-Forest-main/app.js:206-213 | at the minimum zoom 0.1 the eye is at z = 2000 and the origin is farther from it than the far plane |
| `Camera.TargetWithinFar` | proc/Procedurally-Generated-Forest-main/app.js:206-213 | at every zoom of at least 0.11 (one wheel step in from the minimum) the origin is within the far plane |
| `Camera.ZoomController.constructor` | proc/Procedurally-Generated-Forest-main/app.js:173 | the zoom starts at 1.0 with no wheel events seen |
| `Camera.ZoomController.OnWheel` | proc/Procedurally-Generated-Forest-main/app.js:174-178 | the new zoom is `NextZoom` of the old one, the class invariant (zoom = fold of all events seen, in range) is kept, and positive deltas never lower, other deltas never raise, the zoom |
| `Placement.Scatter` | proc/Procedurally-Generated-Forest-main/app.js:185-187 | for a draw in [0, 1) and a positive range, the coordinate lies in [-range/2, range/2) |
| `Placement.PositionFrom` | proc/Procedurally-Generated-Forest-main/app.js:184-188 | the position has y = 0 and, for draws in [0, 1) and a positive range, lies in the half-open square |
| `Placement.RandomPositions` | proc/Procedurally-Generated-Forest-main/app.js:181-191 | exactly `count` positions; position i comes from draws 2i (x) and 2i+1 (z); all lie on the ground inside the square when the draws are in [0, 1) and the range is positive; the unused draws are returned |
| `Placement.PlaceForest` | proc/Procedurally-Generated-Forest-main/app.js:194-195 | 30 tree positions from the first 60 draws, then 20 rock positions from the next 40, all inside the 200-wide square |
| `Assets.PreparedColor` | proc/Procedurally-Generated-Forest-main/app.js:111-117 | preparation leaves no color missing; an array as long as the positions always becomes an attribute; the only changes are missing to constant opaque white, and a length-matching array to a 3-component attribute over the same values |
| `Assets.PreparedColorIdempotent` | proc/Procedurally-Generated-Forest-main/app.js:111-117 | preparing a prepared color changes nothing |
| `Assets.GeometryData.PrepareColor` | proc/Procedurally-Generated-Forest-main/app.js:111-117 | the in-place reassignment leaves `PreparedColor` of the old color |
| `Assets.PrepareParts` | proc/Procedurally-Generated-Forest-main/app.js:110-124 | one part per geometry, in geometry order; every geometry's color is prepared in place (even when geometries share data); each part's buffer holds its geometry's arrays with the prepared color, and its material is the one its name finds, or none |
| `Assets.LoadAsset` | proc/Procedurally-Generated-Forest-main/app.js:101-133 | the asset holds the prepared parts, as above, and the texture created from its file |
| `Floor.FloorVertex` | proc/Procedurally-Generated-Forest-main/app.js:141-158 | floor vertex v (v < 4) lies at y = 0 with x, z in {-100, 100}, has normal (0, 1, 0), and has texture coordinate ((x + 100) / 200, (z + 100) / 200) |
| `Floor.FloorMeshShape` | proc/Procedurally-Generated-Forest-main/app.js:140-158 | the floor has 12 position, 12 normal and 8 texture-coordinate values, and every one of its 4 vertices is a ground-level corner with the upward normal and the texture coordinate that maps the square linearly onto the unit square |
| `Floor.FloorVerticesDistinct` | proc/Procedurally-Generated-Forest-main/app.js:141-146 | no two of the four floor vertices coincide |
| `Floor.FloorTriangles` | proc/Procedurally-Generated-Forest-main/app.js:141-162 | 6 indices, all below 4, forming two triangles of the same non-zero winding |
| `Graphics.ApplyIdempotent` | proc/Procedurally-Generated-Forest-main/app.js:244-253 | setting the same uniforms twice leaves what setting them once left, so re-setting `u_world` for each part changes nothing |
| `Graphics.ApplyNothing` | proc/Procedurally-Generated-Forest-main/app.js:251-253 | a `setUniforms` call that names no uniform leaves every binding as it was |
| `Graphics.Device.EnableDepthTest` | proc/Procedurally-Generated-Forest-main/app.js:204 | depth testing is on afterwards; nothing else changes |
| `Graphics.Device.UseProgram` | proc/Procedurally-Generated-Forest-main/app.js:223 | the program is in use afterwards; nothing else changes |
| `Graphics.Device.SetUniforms` | proc/Procedurally-Generated-Forest-main/app.js:224 | the bindings become `Apply` of the old ones; no draw is issued |
| `Graphics.Device.SetBuffersAndAttributes` | proc/Procedurally-Generated-Forest-main/app.js:228 | the given buffer is bound; nothing else changes |
| `Graphics.Device.DrawBufferInfo` | proc/Procedurally-Generated-Forest-main/app.js:239 | one draw is appended, recording the buffer and the state bound at that moment; the bindings do not change |
| `Render.SharedFor` | proc/Procedurally-Generated-Forest-main/app.js:206-221 | the shared uniforms carry the light direction (-1, 3, 5) and exactly the camera `CameraFor(zoom, aspect)` (eye at `CameraPosition(zoom)`, target, up and projection inputs); for an in-range zoom the eye's z is in [20, 2000] |
| `Render.DrawInstances` | proc/Procedurally-Generated-Forest-main/app.js:242-256 | the nested loops append exactly `GroupDraws` to the trace and leave `AfterGroup` bound |
| `Render.DrawInstance` | proc/Procedurally-Generated-Forest-main/app.js:243-255 | drawing instance i, entered with the state the earlier instances left, appends exactly that instance's `PartDraws` and leaves `AfterGroup` of i + 1 instances bound |
| `Render.RenderFrame` | proc/Procedurally-Generated-Forest-main/app.js:201-273 | one frame appends exactly `FrameDraws` for the current zoom, whatever the previous frame left bound, and leaves `FrameEnd` bound |
| `Render.CarryIdempotent` | proc/Procedurally-Generated-Forest-main/app.js:249-253 | setting every part's material a second time leaves what the first pass left, so every instance after the first starts from the same material |
| `Render.CarryKeepsMaterial` | proc/Procedurally-Generated-Forest-main/app.js:229-253 | once a material is bound, some material stays bound through any parts |
| `RenderFacts.PartDrawsAt` | proc/Procedurally-Generated-Forest-main/app.js:249-255 | an instance issues one draw per part, and draw j is part j, with part j's buffer and state |
| `RenderFacts.GroupDrawsLength` | proc/Procedurally-Generated-Forest-main/app.js:242-256 | k instances of an asset with P parts issue k · P draws |
| `RenderFacts.GroupDrawsAt` | proc/Procedurally-Generated-Forest-main/app.js:242-256 | draw i · P + j of a group is part j of instance i: instances in list order, parts in part order |
| `RenderFacts.GroupDrawsPaired` | proc/Procedurally-Generated-Forest-main/app.js:242-256 | every draw of a group draws its own part's buffer with it bound, under its own position's translation and the asset's texture, with everything else but the material as the group was entered |
| `RenderFacts.GroupDrawsInherit` | proc/Procedurally-Generated-Forest-main/app.js:249-253 | each draw of a group binds its part's material or keeps the previous one, and the group ends with the material `AfterGroup` says |
| `RenderFacts.FrameDrawCount` | proc/Procedurally-Generated-Forest-main/app.js:227-273 | a frame issues exactly 1 + trees · tree parts + rocks · rock parts draws |
| `RenderFacts.FrameOrder` | proc/Procedurally-Generated-Forest-main/app.js:226-273 | the floor is drawn first, with its own buffer, texture, material and the identity translation; all tree draws come next and all rock draws last, so every tree draw precedes every rock draw |
| `RenderFacts.FrameInstanceAt` | proc/Procedurally-Generated-Forest-main/app.js:242-273 | part j of tree i is draw 1 + i · P + j, and part j of rock i is draw i · P + j after the last tree draw, each with the state `PartBindings` gives it |
| `RenderFacts.FramePairing` | proc/Procedurally-Generated-Forest-main/app.js:223-273 | every instance draw draws its own part's buffer with that buffer bound, under its own position's translation and its own asset's texture, with the frame's single program, shared uniforms and depth test, and with a material bound |
| `RenderFacts.FrameMaterials` | proc/Procedurally-Generated-Forest-main/app.js:229-270 | the floor draw binds the floor material; every later draw binds its part's material when the part has one and otherwise keeps the material of the draw before it |
| `Forest.Start` | proc/Procedurally-Generated-Forest-main/app.js:6-195 | without WebGL2 there is no scene and no geometry's color is touched; with it, every tree and rock geometry's color is prepared in place (`PreparedColor` of its old color), the scene holds the floor mesh's buffer and the grass texture, one part per geometry of each asset (its buffer over the prepared arrays and the material its name finds) with the asset's texture, and 30 tree and 20 rock positions, tree i from draws 2i and 2i+1 and rock i from draws 60+2i and 61+2i, inside the 200-wide square when the draws are in [0, 1) |

## Left out

- Fetching the asset files and the `Promise.all` fan-out (app.js:93-105, 135-138) are network I/O and concurrency. A failed fetch aborting start-up is not modelled.
- The mesh and material decoders (`parseOBJ`, `parseMTL`) are not part of this model. Their output is taken as input: geometries with a material name, and a name-to-material table.
- The shaders and the lighting formula (app.js:15-80) run on the GPU in floating point. They are not modelled.
- The matrix library (`m4.perspective`, `m4.lookAt`, `m4.inverse`, `m4.normalize`, `m4.translation`, `degToRad`) is not part of this model. A translation is kept as its offset, a camera as the inputs of its matrices, and the light direction unnormalised.
- Canvas resizing, the viewport, and reading the canvas size for the aspect ratio (app.js:202-203, 207) are left out. The aspect ratio is a parameter of `RenderFrame`.
- Event-listener wiring and `preventDefault` (app.js:174-175) are left out.
- The `requestAnimationFrame` loop (app.js:275-278) is not modelled. `RenderFrame` is one frame, and wheel events between frames are `OnWheel` calls.
- All twgl calls are foreign code. Uploads and texture creation are modelled as values. The model assumes that `twgl.setUniforms` sets only the uniforms named in its arguments.
- Vertex attributes are bound per buffer, not per attribute. The floor mesh has no color array, so a real draw of it reads whatever color attribute an earlier draw left enabled. The model does not capture this.
- A material table entry is assumed to carry all six material fields. Fields absent from a `.mtl` entry would leave the previous part's values bound. This is not modelled.
- The table lookup models only own entries. JavaScript property names inherited from `Object.prototype` (such as `toString`) are not modelled. Neither are geometries without a material name.
- Floating point is not modelled: 1.1 and 0.9 are exact reals here. The clamp makes the [0.1, 10] bound hold in floating point too.
- `Camera.CameraPosition`: requires a non-zero zoom. JavaScript's `200 / 0 = Infinity` is not modelled, and the zoom invariant rules out 0.
- `Placement.PositionFrom`: the bounds are stated only for a positive range. The renderer only uses a range of 200.
- `Forest.Start`: requires that the tree and rock geometries share no data objects. The two decoded models are separate objects in the renderer, and this is what lets the model prepare them one after the other.
- The device trace records draw calls only, not `setUniforms` calls. So "the shared uniforms are set once per frame" (app.js:224) is not stated. `RenderFacts.FramePairing` states its consequence: every draw sees the frame's shared uniforms.
