# OpenGL mesh viewer: input state, mesh preparation and projection

This Dafny project models a small OpenGL viewer (`OpenGL/source/main.cpp`). The viewer loads an OBJ mesh, fits it into view and lets the user orbit the camera, turn the light, zoom and switch shading modes. Three modules cover its logic:

- **Viewer** covers the GLFW input callbacks (`mouse_button_callback`, `cursor_pos_callback`, `key_callback`).
  - The program keeps the button flags, last cursor position, camera yaw/pitch/distance, light yaw/pitch, projection flag and visualisation mode in globals. Here they are the fields of the class `Viewer.Viewer`, whose methods update them in place as the callbacks do.
  - Each method is proved equal to a pure step function on the value type `ViewState`.
  - The lemmas about the step functions state what the callbacks promise: clamped pitches and distance, exact yaw increments, light turns that leave the camera alone, key-to-mode selection and the P toggle. They also prove that any event sequence keeps every range.
- **MeshPrep** covers the mesh preparation done before any GPU work:
  - the axis-aligned bounding-box loop;
  - the centre and auto-scale derived from the box;
  - the initial camera distance;
  - the nested loop that de-indexes the triangle mesh into flat position, normal and texture arrays, with its fallback normal (0, 1, 0) and fallback texture coordinate (0, 0).
  - `BoundingBox` and `Flatten` are loops proved against recursive specification functions. The layout, containment and fit properties are lemmas about those functions.
- **Geometry** holds the pure helpers `DegToRad`, `MakeOrthographic` and the aspect guard of `MakeMVP`, over a small vector and matrix vocabulary.

Floats and doubles are modelled as `real`. GLFW's button, action and key codes are the values from GLFW's public header: left 0, right 1, release 0, press 1, repeat 2, keys `0`–`3` 48–51, `N` 78, `P` 80, Escape 256, F6 295.

Three things the callbacks query from GLFW are parameters of the model:
- whether a Control key is held;
- where the cursor is when a button is pressed;
- whether a shader is attached to the window.

The `1e30` sentinels of the bounding-box loop are kept as an explicit constant `BIG`.

The source leaves face indices unchecked; an out-of-range index is undefined behaviour. `Flatten` therefore requires `WellIndexed`:
- every face has a normal triple, and a texture triple when the mesh has texture vertices;
- every position index is in range;
- every non-negative normal index is in range while the mesh has normals.

Texture indices are bounds-checked by the loop itself, and the model keeps that check.

## Model

| member | source | states |
|---|---|---|
| Geometry.DegToRad | OpenGL/source/main.cpp:98-101 | the result times 180 is the input times the program's pi (3.1415926535); 180 degrees give pi and 0 gives 0 |
| Geometry.Aspect | OpenGL/source/main.cpp:120 | with a positive framebuffer height the aspect times the height is the width; otherwise the aspect is 1 |
| Geometry.MakeOrthographic | OpenGL/source/main.cpp:103-116 | for r != l, t != b, f != n: the corner (l, b, -n) maps to (-1, -1, -1, 1) and (r, t, -f) to (1, 1, 1, 1); every point maps axis by axis, each coordinate scaled by 2/(r-l), 2/(t-b) and -2/(f-n) about the box centre; w stays 1 |
| Viewer.Clamp | OpenGL/source/main.cpp:313-316 | the clamped value lies in [lo, hi]; it equals the input when the input is in range, lo below the range and hi above it |
| Viewer.MouseButtonStep | OpenGL/source/main.cpp:283-292 | each button flag becomes "the action is a press" for its own button and is kept for the other; any press records the cursor position; camera, light and display are unchanged |
| Viewer.Orbit | OpenGL/source/main.cpp:318-327 | yaw grows by exactly dx * 0.005; pitch is the incremented pitch clamped to [-1.55, 1.55], with each of the three cases stated; the distance is unchanged |
| Viewer.TurnLight | OpenGL/source/main.cpp:308-317 | light yaw grows by dx * 0.005; light pitch is the incremented pitch clamped to [-1.55, 1.55], with each case stated |
| Viewer.ZoomCamera | OpenGL/source/main.cpp:329-336 | the distance is the incremented distance (dy * 0.02) clamped to [0.5, 5.0], with each case stated; the angles are unchanged |
| Viewer.LeftDrag | OpenGL/source/main.cpp:306-328 | without the left button the state is unchanged; with it, Ctrl turns only the light by TurnLight and no Ctrl turns only the camera by Orbit; mouse, distance and display never change |
| Viewer.RightDrag | OpenGL/source/main.cpp:329-336 | with the right button the camera becomes ZoomCamera of it, distance in [0.5, 5.0]; without it the state is unchanged; nothing but the distance ever changes |
| Viewer.CursorStep | OpenGL/source/main.cpp:294-337 | the last position always becomes (x, y); a left-drag without Ctrl adds dx * 0.005 to yaw and sets pitch to exactly the pitch Orbit gives, which lies in [-1.55, 1.55], leaving the light alone; with Ctrl only the light turns, its pitch clamped, and camera yaw and pitch stay; without the left button no angle moves; a right-drag sets the distance to exactly the one ZoomCamera gives, in [0.5, 5.0] whatever dy is, and the distance stays otherwise; the display is untouched |
| Viewer.ModeOfKey | OpenGL/source/main.cpp:360-387 | keys 0, 1, 2, 3 and N select modes 0 to 4, each mode exactly for its key; other keys select none (-1) |
| Viewer.KeyStep | OpenGL/source/main.cpp:339-388 | a release or repeat changes nothing; a press of P flips the projection; a mode key sets the mode, which stays in [0, 4]; Escape raises the close request; F6 raises the reload request when a shader is attached; mouse, camera and light are untouched |
| Viewer.InitialInv | OpenGL/source/main.cpp:12-36 | the initial values of the globals satisfy every range the callbacks keep |
| Viewer.CursorStepKeepsInv | OpenGL/source/main.cpp:294-337 | a cursor event keeps both pitches, the distance and the mode in range |
| Viewer.StepPreservesInv | OpenGL/source/main.cpp:283-388 | every single event keeps the ranges |
| Viewer.RunPreservesInv | OpenGL/source/main.cpp:283-388 | any sequence of events keeps both pitches in [-1.55, 1.55], the distance in [0.5, 5.0] and the mode in [0, 4] |
| Viewer.ToggleProjectionTwice | OpenGL/source/main.cpp:354-358 | two presses of P give back exactly the state before them |
| Viewer.CtrlDragKeepsCamera | OpenGL/source/main.cpp:306-317 | any drag made entirely with Ctrl held leaves camera yaw and pitch exactly as they were and keeps the light pitch within its limit |
| Viewer.Viewer.constructor | OpenGL/source/main.cpp:12-36 | the fields start at the globals' initial values, which satisfy the ranges |
| Viewer.Viewer.MouseButton | OpenGL/source/main.cpp:283-292 | the new fields are MouseButtonStep of the old ones; the ranges are kept |
| Viewer.Viewer.CursorPos | OpenGL/source/main.cpp:294-337 | the new fields are CursorStep of the old ones; the ranges are kept |
| Viewer.Viewer.TurnBy | OpenGL/source/main.cpp:306-328 | the left-button block: the camera or, with Ctrl, the light turns as Orbit or TurnLight say |
| Viewer.Viewer.ZoomBy | OpenGL/source/main.cpp:329-336 | the right-button block: the camera zooms as ZoomCamera says |
| Viewer.Viewer.Key | OpenGL/source/main.cpp:339-388 | the new fields are KeyStep of the old ones; the ranges are kept |
| MeshPrep.CornerNormal | OpenGL/source/main.cpp:453-455 | the emitted normal is (0, 1, 0) exactly when the mesh has no normals or the normal index is negative, and the indexed normal otherwise |
| MeshPrep.CornerNormalIsUnit | OpenGL/source/main.cpp:455 | when every mesh normal has unit length, so does every emitted normal, the fallback included |
| MeshPrep.CornerUV | OpenGL/source/main.cpp:465-475 | the emitted coordinate is (x, y) of the indexed texture vertex when the mesh has texture vertices and 0 <= index < count, and (0, 0) otherwise |
| MeshPrep.CornerUVInUnitSquare | OpenGL/source/main.cpp:465-475 | texture vertices inside the unit square give emitted coordinates inside it |
| MeshPrep.CornersLayout | OpenGL/source/main.cpp:444-479 | the first n faces give 3n vertices, and corner c of face fi < n is vertex 3 * fi + c |
| MeshPrep.Positions | OpenGL/source/main.cpp:457-459 | the position array holds 3 values per vertex |
| MeshPrep.Normals | OpenGL/source/main.cpp:461-463 | the normal array holds 3 values per vertex |
| MeshPrep.TexCoords | OpenGL/source/main.cpp:476-477 | the texture array holds 2 values per vertex |
| MeshPrep.PositionsAt | OpenGL/source/main.cpp:457-459 | vertex j's position is the three values from offset 3 * j |
| MeshPrep.NormalsAt | OpenGL/source/main.cpp:461-463 | vertex j's normal is the three values from offset 3 * j |
| MeshPrep.TexCoordsAt | OpenGL/source/main.cpp:476-477 | vertex j's texture coordinate is the two values from offset 2 * j |
| MeshPrep.PackAppend | OpenGL/source/main.cpp:457-477 | packing one more vertex appends its values to each array and leaves the rest |
| MeshPrep.AppendCorner | OpenGL/source/main.cpp:444-479 | emitting corner c after the corners so far gives the corners up to c (after the third corner, those of the next face), and appends its position, normal and texture values to the three arrays |
| MeshPrep.FlattenedLayout | OpenGL/source/main.cpp:437-479 | flattening NF faces yields exactly 9 NF position values, 9 NF normal values and 6 NF texture values; corner c of face fi sits at offset (3 fi + c) * 3 of the first two and (3 fi + c) * 2 of the third, holding the vertex position V[f[fi][c]], the emitted normal and the emitted texture coordinate |
| MeshPrep.ReadCorner | OpenGL/source/main.cpp:452-475 | the values read for one corner are its position, its normal or the fallback, and its texture coordinate or (0, 0) |
| MeshPrep.Flatten | OpenGL/source/main.cpp:437-479 | the three arrays the nested loop builds are the packed position, normal and texture arrays of the mesh's corners in face and corner order |
| MeshPrep.BoundingBox | OpenGL/source/main.cpp:408-419 | the loop's result is the running componentwise min and max from the sentinels, and every vertex lies inside it on every axis |
| MeshPrep.BoxContains | OpenGL/source/main.cpp:410-419 | every vertex lies between the lower and upper bound on every axis |
| MeshPrep.BoundsAttainedOrSentinel | OpenGL/source/main.cpp:408-419 | each bound is its sentinel or a coordinate of some vertex |
| MeshPrep.BoundsAttained | OpenGL/source/main.cpp:408-419 | for a non-empty vertex list strictly inside the sentinels, each bound on each axis is attained by some vertex |
| MeshPrep.EmptyBox | OpenGL/source/main.cpp:408-409 | with no vertices the box is the inverted sentinels |
| MeshPrep.MaxExtent | OpenGL/source/main.cpp:421-422 | the result is at least every extent and equal to one of them |
| MeshPrep.AutoScale | OpenGL/source/main.cpp:423-424 | the scale is positive; times a largest extent above 1e-8 it gives 2; for smaller extents it is 1 |
| MeshPrep.Midpoint | OpenGL/source/main.cpp:420 | on every axis the centre is as far above bbMin as it is below bbMax |
| MeshPrep.AutoFit | OpenGL/source/main.cpp:420-424 | the centre is the box midpoint; the scale brings the largest extent to 2, or is 1 when that extent is at most 1e-8 |
| MeshPrep.FitsUnitCube | OpenGL/source/main.cpp:420-424 | a point between the bounds on an axis lands within [-1, 1] there once centred and scaled, degenerate boxes included |
| MeshPrep.PlacementBound | OpenGL/source/main.cpp:420-424 | the same bound for any placement centred on the box whose scale matches any e at least the axis extent |
| MeshPrep.InitialDistance | OpenGL/source/main.cpp:431 | the distance is at least 2 and at least a tenth of the scaled diagonal, and equals one of the two |
| MeshPrep.InitialDistanceIsTwo | OpenGL/source/main.cpp:430-431 | for a box holding a point, the camera distance derived from the scaled diagonal is exactly 2 |
| MeshPrep.DistanceBound | OpenGL/source/main.cpp:430-431 | the same for any extents up to e and the auto-scale factor for e |
| MeshPrep.EmptyMeshDistance | OpenGL/source/main.cpp:408-431 | with no vertices the derived distance is above 5, outside the range the cursor callback keeps |

## Left out

- Window creation, GL buffer and texture setup, draw calls and the render loop: these are calls into GLFW, GLAD and OpenGL, with no logic of the program's own.
- Shader reading and building (`ReadTextFile`, `BuildShaders`): file I/O and a shader wrapper library that is not part of this model. F6 and Escape are modelled only as the request flags the key callback raises.
- PNG decoding (`LoadPNGTexture`) and `ResolveTexPath`: a wrapper over an image library, and path normalisation by `std::filesystem`, neither of which is part of this model.
- `MakeMVP`, `MakeMV` and `ComputeLightPosViewSpace`: they need rotation and perspective builders of a matrix library that is not part of this model, and `sin`/`cos`. Only the aspect guard of `MakeMVP` is modelled, as `Aspect`. The unused `scale` variable in `MakeMVP` has no effect.
- Material upload and per-material draw dispatch: GPU resource bookkeeping driven by mesh-library accessors that are not part of this model.
- Console output of the callbacks and of the mesh summary: printing only.
- Floating-point rounding, the `(float)` casts of the cursor deltas, and IEEE infinities: all arithmetic is over reals. `MakeOrthographic` therefore requires r != l, t != b and f != n, where the float code would divide by zero.
- `mesh.LoadFromFileObj`, `ComputeNormals` and `HasTextureVertices` belong to the mesh library. The loaded mesh is the input of `Flatten`, and `hasUV` is its parameter. The normals the mesh carries are taken as given.
- `sqrt` in the diagonal is a parameter `root` with `root * root` equal to the squared diagonal and `root >= 0`.
- `g_orthoScale`, `g_lightRadius`, `g_objCenter` and `g_objScale` are read only by the rendering code. The centre and scale are the result of `AutoFit`.
- The `glfwGetKey` Control query, the `glfwGetCursorPos` call and the window's user pointer become parameters of the callbacks.
- MeshPrep.BoundsAttained: requires every coordinate to lie strictly inside the sentinels, because a coordinate beyond 1e30 leaves a bound at its sentinel, where no vertex attains it.
- MeshPrep.InitialDistanceIsTwo: requires bbMin <= bbMax on every axis, which holds when the mesh has a vertex. The empty mesh is covered by `EmptyMeshDistance` instead.
