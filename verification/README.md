# Heightmap terrain and input handlers

A Dafny model of the two pieces of `main.cpp` that hold logic of their own.

The first is the terrain mesh built at start-up. An `H x W` 8-bit greyscale heightmap becomes two tables, `vVertexData` (a position per grid point) and `vCoordsData` (a texture coordinate per grid point). The tables are filled by a pair of nested loops. A second pair of loops flattens them into the triangle stream `htTriangles`:

- five floats per vertex (x, y, z, u, v);
- six vertices (two triangles) per grid cell;
- cells in row-major order.

The second piece is the input handlers that GLFW calls:

- `key_callback` keeps the 1024-entry key table;
- `do_movement` reads that table once per frame to move the camera and to rotate, scale and translate the boxes;
- `mouse_callback` turns cursor positions into camera offsets;
- `scroll_callback` zooms by changing `fov`, which it keeps in `[1, 45]`.

Files:

- `vectors.dfy` — `Vectors`: glm's `vec2` and `vec3`, with real components.
- `heightmap.dfy` — `Heightmap`: the grid mapping and the mesh construction. `BuildGrid` and `EmitTriangles` are the two pairs of loops, over `array2` tables. They are proved against an index-by-index specification of the stream, `StreamFloat`: float `k` is attribute `k % 5` of vertex `k / 5`, and vertex `n` is corner `n % 6` of cell `n / 6`.
  The specification functions are `Sample` (the byte at `row_step*i + j`, main.cpp:128) and `StreamFloat` (the stream as main.cpp:149-189 lays it out).
- `mesh_properties.dfy` — `MeshProperties`: what the stream guarantees its renderer (attribute ranges, positions tied to texture coordinates, coverage, winding), and the terrain draw count. `DrawCountAsWritten` is the count main.cpp:894 passes to `glDrawArrays`.
- `keys.dfy` — `KeyInput`: the key table as a class over a `bool` array, and `key_callback`.
- `movement.dfy` — `Movement`: `do_movement` as a method of a class holding `alpha`, `beta`, `gamma`, `boxScale` and `boxTranslate`. It is proved against a closed-form frame function, `AfterMovement`: the net effect of main.cpp:999-1062 on the box state.
- `mouse.dfy` — `Mouse`: `mouse_callback` over `lastX`, `lastY` and `firstMouse`.
- `scroll.dfy` — `Scroll`: `scroll_callback` over `fov`.

Calls into `Camera` (`ProcessKeyboard`, `ProcessMouseMovement`) become out-parameters:

- `DoMovement` returns the list of directions it would pass to `ProcessKeyboard`, in call order;
- `MouseCallback` returns the two offsets it would pass to `ProcessMouseMovement`.

Likewise, `KeyCallback` returns whether it would close the window, and `DoMovement` returns whether it would save a screenshot.

## Model

| member | source | states |
|---|---|---|
| Heightmap.Scale | main.cpp:126-127 | `fScaleC`/`fScaleR`: index k of n maps into [0, 1]; it is 0 exactly at the first index and 1 exactly at the last |
| Heightmap.ScaleStep | main.cpp:126-127 | consecutive grid indices are exactly 1/(n-1) apart |
| Heightmap.GridTexCoord | main.cpp:126-127 | `vCoordsData[i][j]` = (j/(W-1), i/(H-1)): both in [0, 1]; (0,0) at the first point and (1,1) at the last |
| Heightmap.GridPosition | main.cpp:126-136 | `vVertexData[i][j]`: x = 2u-1 and z = 2v-1 in [-1, 1], with -1/1 exactly at the first/last column and row; y = -(b/255)/2 - 0.5 in [-1, -0.5], -0.5 exactly for b = 0 and -1 exactly for b = 255, b being the byte at `row_step*i + j` |
| Heightmap.BrighterIsLower | main.cpp:128-134 | a brighter sample is never placed higher than a darker one |
| Heightmap.CellCorners | main.cpp:153-189 | the six vertices of cell (i,j): (i,j),(i+1,j),(i+1,j+1) then (i+1,j+1),(i,j+1),(i,j); the second triangle starts where the first ended and ends where it started, and both contain the diagonal |
| Heightmap.StreamPointInGrid | main.cpp:149-151 | every vertex of the stream is a point of the grid |
| Heightmap.StreamPointOfCell | main.cpp:149-189 | vertex v of cell (i,j) is vertex 6((W-1)i+j)+v of the stream (row-major order over cells) |
| Heightmap.CellFloatIndex | main.cpp:149-189 | float m of cell (i,j) is float 30((W-1)i+j)+m of the stream, i.e. attribute m%5 of corner m/5 |
| Heightmap.StreamFloatInCell | main.cpp:149-189 | float 30((W-1)i+j)+m of the stream equals attribute m%5 of corner m/5 of cell (i,j) |
| Heightmap.BuildGrid | main.cpp:116-146 | the first pair of loops: on exit the two tables hold `GridPosition` and `GridTexCoord` at every one of the H x W points |
| Heightmap.CellTableFloatAt | main.cpp:153-189 | float m of one iteration is float 30((W-1)i+j)+m of the table stream |
| Heightmap.AppendedCellAt | main.cpp:153-189 | the floats pushed by the iteration for cell (i,j) land where the table stream puts them |
| Heightmap.CellEmission | main.cpp:153-189 | the thirty `push_back`s of one iteration append the six corners' table entries in emission order |
| Heightmap.EmittedBound | main.cpp:149-151 | the loop counters never pass the number of cells |
| Heightmap.EmittedLength | main.cpp:149-191 | after i rows and j cells, 30((W-1)i+j) floats have been pushed |
| Heightmap.EmittedAt | main.cpp:149-191 | every float pushed so far is the table stream's float at that index |
| Heightmap.EmittedIsStream | main.cpp:149-191 | after both loops the pushed floats are exactly the table stream, 30(H-1)(W-1) of them |
| Heightmap.EmitTriangles | main.cpp:149-191 | the second pair of loops: `htTriangles` holds 30(H-1)(W-1) floats, and float k is attribute k%5 of the table entry for vertex k/5 |
| Heightmap.BuildMesh | main.cpp:116-191 | the whole construction: 6(H-1)(W-1) > 0 vertices of 5 floats, and float k is `StreamFloat(k)`, computed from the image alone |
| MeshProperties.StreamFloatBounds | main.cpp:126-136 | every emitted x, z lies in [-1, 1], y in [-1, -0.5], and u, v in [0, 1] |
| MeshProperties.VertexFloats | main.cpp:153-189 | the five floats of vertex n are floats 5n to 5n+4 |
| MeshProperties.StreamPositionMatchesTexCoord | main.cpp:134-135 | in every emitted vertex, x = 2u-1 and z = 2v-1 |
| MeshProperties.EveryPointInStream | main.cpp:149-189 | every grid point is a vertex of some triangle |
| MeshProperties.CellArea | main.cpp:126-127 | a cell's XZ extent (2/(W-1))(2/(H-1)) is positive |
| MeshProperties.ColumnStep | main.cpp:126-134 | one column further, x grows by 2/(W-1); in the same column x does not change |
| MeshProperties.RowStep | main.cpp:127-134 | one row further, z grows by 2/(H-1); in the same row z does not change |
| MeshProperties.BoxWinding | main.cpp:153-189 | both halves a-b-c and c-d-a of an axis-aligned box have signed area -dx*dz |
| MeshProperties.CellWinding | main.cpp:153-189 | both triangles of cell (i,j) have signed XZ area -CellArea: the same orientation and never degenerate |
| MeshProperties.HalfCellWinding | main.cpp:149-191 | the emitted triangle s of cell (i,j), read from the stream itself, has signed XZ area -CellArea: every triangle is wound the same way |
| MeshProperties.StreamVertexXZ | main.cpp:153-189 | the emitted x and z of vertex v of cell (i,j) are those of the corner's grid position |
| MeshProperties.TwoByTwoFirstTriangle | main.cpp:116-191 | a 2 x 2 image gives 30 floats, and the first triangle has the concrete corners (-1,-1), (-1,1), (1,1), texture coordinates and heights |
| MeshProperties.DrawCountOverruns | main.cpp:894 | as written, the draw count is 5 times the vertex count in the buffer, so GL is asked for more floats than the buffer holds |
| MeshProperties.DrawCount | main.cpp:894 | the corrected count is the vertex count that `BuildMesh` returns, and it is below the count as written |
| KeyInput.KeysAfter | main.cpp:960-971 | on a key in [0,1024): a press sets its entry and a release clears it; no other entry changes; any other action, or a key out of range, leaves the table as it was |
| KeyInput.LastTouchDecides | main.cpp:964-970 | after a run of events, a key is held exactly when its last press or release was a press |
| KeyInput.UntouchedKeyKept | main.cpp:964-970 | a key that no event pressed or released keeps its initial state |
| KeyInput.KeyTable.constructor | main.cpp:57 | the table has 1024 entries, all released |
| KeyInput.KeyTable.KeyCallback | main.cpp:960-971 | `key_callback`: the new table is `KeysAfter(old table, event)`, and the window is closed exactly on Escape pressed |
| Movement.HeldMovesMembers | main.cpp:977-988 | a direction is kept exactly when it is tested and its key is held |
| Movement.HeldMovesOrdered | main.cpp:977-988 | keeping only the held directions keeps them in test order |
| Movement.AllMovesComplete | main.cpp:977-988 | every camera direction has a key that is tested |
| Movement.CameraMoves | main.cpp:977-988 | the camera calls of a frame: direction m is passed exactly when its key is held, each at most once, in the order W, S, A, D, Q, E |
| Movement.CameraMovesInOrder | main.cpp:977-988 | `CameraMoves` is the six tests one after another |
| Movement.CameraKeys | main.cpp:977-988 | the six `if`s return exactly `CameraMoves` of the key table |
| Movement.ResetClearsRotation | main.cpp:1000-1024 | with R held, alpha, beta and gamma are 0 at the end of the frame whatever else is held |
| Movement.ResetPrecedesScaling | main.cpp:1019-1043 | with R held, the scale is (1,1,1) plus the frame's Shift nudges, and exactly (1,1,1) without right Shift |
| Movement.TranslationIgnoresReset | main.cpp:1019-1062 | R never changes the translation |
| Movement.IdleFrame | main.cpp:973-1063 | with no key held a frame changes no state and makes no camera call |
| Movement.OpposingKeysCancel | main.cpp:1000-1062 | in exact arithmetic, holding both keys of every pair (without R) leaves every angle, the scale and the translation unchanged |
| Movement.BoxTransform.constructor | main.cpp:44-49 | the globals start at alpha = beta = gamma = 0, scale (1,1,1) and translation (0,0,0) |
| Movement.BoxTransform.DoMovement | main.cpp:973-1063 | `do_movement`: the new box state is `AfterMovement(keys, old state)`, the camera calls are `CameraMoves(keys)`, and a screenshot is taken exactly when P is held |
| Movement.BoxTransform.RotationKeys | main.cpp:999-1016 | U/J, I/K and O/L change alpha, beta and gamma by +-0.01 each; nothing else changes |
| Movement.BoxTransform.ResetKey | main.cpp:1019-1024 | R zeroes the angles and sets the scale to (1,1,1); without R nothing changes |
| Movement.BoxTransform.ScaleKeys | main.cpp:1026-1043 | with right Shift held, U/J, I/K and O/L add +-0.01 to the scale's x, y and z; only the scale changes |
| Movement.BoxTransform.TranslationKeys | main.cpp:1045-1062 | with right Control held, the same keys add +-0.01 to the translation; only the translation changes |
| Mouse.MouseStep | main.cpp:1066-1082 | the first event gives offsets (0,0) and clears `firstMouse`; later events give (xpos - lastX, lastY - ypos), with y flipped; afterwards lastX = xpos and lastY = ypos |
| Mouse.MouseRunTelescopes | main.cpp:1066-1082 | over a run of events the offsets add up to the net displacement from the first position seen to the last |
| Mouse.Cursor.constructor | main.cpp:54-55 | the cursor starts at the window centre (600, 300) with `firstMouse` set |
| Mouse.Cursor.MouseCallback | main.cpp:1066-1082 | `mouse_callback`: its offsets and the new state are those of `MouseStep` on the old state |
| Scroll.ScrollFov | main.cpp:1084-1093 | after one event fov is in [1, 45] whatever it was; the offset is subtracted only when fov was already in [1, 45], and the result is clamped to that range |
| Scroll.ScrollRunUnclamped | main.cpp:1086-1091 | while every partial zoom stays in range, a run of events just subtracts the summed offsets |
| Scroll.ScrollRunInRange | main.cpp:1086-1091 | after at least one event fov is in [1, 45] |
| Scroll.ScrollUpZoomsIn | main.cpp:1086-1087 | scrolling up never widens the view once fov is in range |
| Scroll.Zoom.constructor | main.cpp:56 | fov starts at 45 |
| Scroll.Zoom.ScrollCallback | main.cpp:1084-1093 | `scroll_callback`: the new fov is `ScrollFov(old fov, yoffset)`, which lies in [1, 45] |

## Left out

- Window, context, texture, buffer and shader setup; uniforms; draw calls; and the screenshot file write. These are GLFW/GLEW/SOIL/OpenGL I/O. The screenshot becomes a boolean result of `DoMovement`, and window closing a boolean result of `KeyCallback`.
- Image loading: `SOIL_load_image` becomes the parameters `img`, `h`, `w`.
- Images with `H < 2` or `W < 2` are excluded by a precondition. The source divides by `W-1` and `H-1` without a guard.
- The skybox and cube vertex tables. They are constant data.
- The glm matrix code for the boxes and the projection.
- `Camera.h` is not part of this model. Its methods become the out-parameters described above.
- `deltaTime` is only passed to `Camera::ProcessKeyboard`; the modelled calls keep only the direction. `cameraSpeed` (main.cpp:976) is computed and never used.
- `htData` is filled but never read, so it is left out.
- `GLfloat`/`double` arithmetic is modelled as exact reals, with no rounding. The `0.01` steps, the fov clamp and the mesh coordinates are therefore exact. The `double` to `GLfloat` narrowing in `mouse_callback` and `scroll_callback` is not modelled.
- `vector<GLfloat>` `push_back` is modelled as appending to a `seq<real>`. The grid tables are `array2`s, as the source's nested vectors are fixed-size.
- Movement.BoxTransform.DoMovement: its body is split into helper methods (`CameraKeys`, `RotationKeys`, `ResetKey`, `ScaleKeys`, `TranslationKeys`), called in the source's order. Each helper's own `if` sequence follows the source line by line.

## Findings

| source | as written | input that shows it | evidently intended | confidence | as-written member | corrected member |
|---|---|---|---|---|---|---|
| main.cpp:894 | the terrain is drawn with `glDrawArrays(GL_TRIANGLES, 0, 5*3*2*(H-1)*(W-1))`, which is the number of floats in `htTriangles` | a 2 x 2 image: the buffer holds 6 vertices (30 floats), but the draw asks for 30 vertices, i.e. 150 floats | draw `6*(H-1)*(W-1)` vertices, the count the mesh holds | not executed | MeshProperties.DrawCountOverruns | MeshProperties.DrawCount |
