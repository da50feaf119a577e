# OpenGL tutorials: the application logic behind the frames

This project models the part of a series of OpenGL tutorial applications that
is not a GL call: the state each application keeps from frame to frame, how
that state changes on a frame or on a key press, and the geometry and
transforms it hands to the GPU. Each tutorial is one Dafny module.

- `Affine` (`affine.dfy`) holds the 3x3 matrices the tutorials build, stored
  row by row and built from glm's column-ordered initialiser lists. The
  module proves the closed form of
  Translate * Rotate * Scale. Cosine and sine are an uninterpreted pair of
  functions (`Trig`).
- `Input` (`input.dfy`) holds the edge-triggered key test all tutorials use:
  "pressed now and not pressed last frame".
- `Meshes` (`meshes.dfy`, tutorial 2) covers the four viewports and the
  points, lines, triangle-fan and triangle-strip generators. They are written
  as loops over the buffers, proved against specification functions.
- `ObjectPool` (`pool.dfy`, tutorial 3) covers the object list. A click
  doubles it or halves it, with hysteresis at 1 and 32768. It also covers the
  per-kind counters, the polygon-mode cycle on P and each object's
  model-to-NDC transform.
- `Camera` (`camera.dfy`, tutorial 4) covers the 2D camera: projection, the
  world- and camera-aligned views, the zoom band, turning and panning. It
  also has the object update against the camera's world-to-NDC matrix.
- `Scene` (`scene.dfy`, tutorial 4) covers reading a scene's object records,
  with model and shader caches, mesh loading, the per-frame update of the
  object map and the draw order.
- `Texture` (`texture.dfy`, tutorial 5) covers the tile-size phase, the
  shader mode cycle on T, the modulate and blend toggles on M and A, and the
  wrap mode the draw picks.
- `Pbo` (`pbo.dfy`, tutorial 6.1) covers the emulated framebuffer: `Color`
  and its byte view, both `set_clear_color` overloads, `clear_color_buffer`
  over the mapped pixel array, and the bookkeeping of `init`.

## Model

| member | source | states |
|---|---|---|
| Affine.FromColumns | tutorial-3/src/glapp.cpp:397-418 | a glm::mat3 initialiser list fills the matrix column by column: the k-th value lands in column k/3, row k%3 |
| Affine.ApplyMul | tutorial-3/src/glapp.cpp:427 | applying a product of matrices is applying the factors right to left, so the chained transform acts as Scale, then Rotate, then Translate, then Extend |
| Affine.RotateCounterClockwise | tutorial-3/src/glapp.cpp:406-411 | the Rotate matrix built from cos and sin turns the x axis to (cos, sin) and the y axis to (-sin, cos), a counter-clockwise rotation |
| Affine.TrsClosedForm | tutorial-3/src/glapp.cpp:397-418 | Translate * Rotate * Scale is the affine matrix [c·sx, -s·sy, px; s·sx, c·sy, py; 0, 0, 1] |
| Input.HeldFiresOnce | tutorial-5/src/glapp.cpp:265-284 | a key held over any run of frames fires its action once if it was up before the run, and never if it was already down |
| Input.FiresBoundedByReleases | tutorial-3/src/glapp.cpp:89 | an edge-triggered action fires at most once per release of its key, plus once for the first press |
| Meshes.Ushort | tutorial-2/src/glapp.cpp:193-198 | a value stored as GLushort is below 65536, and a value already below 65536 is stored unchanged |
| Meshes.QuadrantsTile | tutorial-2/src/glapp.cpp:31-39 | the four viewports lie inside the window, and every pixel of the window's even part is in exactly one of them, in push order top-left, top-right, bottom-left, bottom-right |
| Meshes.Grid | tutorial-2/src/glapp.cpp:311-317 | a grid of `rows` rows of n vertices has n·rows vertices |
| Meshes.GridRow | tutorial-2/src/glapp.cpp:313-316 | one inner loop pushes n vertices, the k-th with inner counter k |
| Meshes.GridAt | tutorial-2/src/glapp.cpp:311-317 | the vertex pushed at outer counter j and inner counter i sits at index j·n + i of the buffer |
| Meshes.PointsModel | tutorial-2/src/glapp.cpp:306-337 | points_model's loops build exactly the specified GL_POINTS model |
| Meshes.PointsShape | tutorial-2/src/glapp.cpp:306-337 | points_model draws (slices+1)·(stacks+1) vertices, one primitive each, with vertex (j, i) at index j·(slices+1) + i |
| Meshes.PairSlots | tutorial-2/src/glapp.cpp:103-116 | slots 2c and 2c+1 hold the two ends of line c: bottom then top for a column, right then left for a row |
| Meshes.LineBuffer | tutorial-2/src/glapp.cpp:100-101 | the buffer lines_model allocates holds `count` value-initialised vertices |
| Meshes.LinesModelAsWritten | tutorial-2/src/glapp.cpp:97-137 | lines_model as written builds exactly the model its loops and counts describe, with the row loop starting at slot 2·slices |
| Meshes.LinesAsWrittenOverrun | tutorial-2/src/glapp.cpp:100-136 | as written, the draw count is two more than the buffer's size, and neither end of the vertical line x = +1 survives in the buffer |
| Meshes.LinesModel | tutorial-2/src/glapp.cpp:97-137 | the corrected generator builds exactly the corrected specification |
| Meshes.LinesComplete | tutorial-2/src/glapp.cpp:100-136 | corrected, every vertical and horizontal line has both ends in the buffer, in pairs, and the draw count is the buffer's size, twice the primitive count |
| Meshes.TrifansModel | tutorial-2/src/glapp.cpp:141-213 | trifans_model's loops build exactly the specified GL_TRIANGLE_FAN model |
| Meshes.TrifansShape | tutorial-2/src/glapp.cpp:144-211 | the fan has a centre and `slices` rim points; the indices are 0..slices followed by 1, so the fan closes; the draw count is slices + 2; every index names a vertex |
| Meshes.StripPairs | tutorial-2/src/glapp.cpp:238-242 | the column loop of a strip row pushes two indices per column |
| Meshes.StripRow | tutorial-2/src/glapp.cpp:232-247 | a strip row has 2·(slices+1) indices, plus one leading index except on row 0 and one trailing index except on the last row |
| Meshes.TristripModel | tutorial-2/src/glapp.cpp:217-303 | tristrip_model's loops build exactly the specified GL_TRIANGLE_STRIP model |
| Meshes.StripRowIndices | tutorial-2/src/glapp.cpp:232-247 | the loop body for one row pushes exactly that row's indices |
| Meshes.StripPairIndices | tutorial-2/src/glapp.cpp:238-242 | the column loop pushes exactly the row's column pairs |
| Meshes.StripIndicesLength | tutorial-2/src/glapp.cpp:232-247 | after r rows the index buffer holds 2·r·(slices+2) - 1 indices, or one fewer once the last row is done |
| Meshes.StripIndicesPrefix | tutorial-2/src/glapp.cpp:232-247 | rows only append: the indices after r rows are a prefix of those after more rows |
| Meshes.StripIndicesBounded | tutorial-2/src/glapp.cpp:232-247 | while the grid fits in 16-bit indices, every index pushed names a vertex of the grid |
| Meshes.StripRowBounded | tutorial-2/src/glapp.cpp:234-246 | every index of one strip row names a grid vertex |
| Meshes.StripPairsBounded | tutorial-2/src/glapp.cpp:238-242 | every column-pair index of row `row` is below (row+2)·(slices+1) |
| Meshes.TristripShape | tutorial-2/src/glapp.cpp:217-303 | the strip has (stacks+1)·(slices+1) vertices and 2·stacks·(slices+1) + 2·(stacks-1) indices, all naming vertices, and the draw count is the index count |
| Meshes.TristripDegenerate | tutorial-2/src/glapp.cpp:234-246 | between consecutive rows the strip repeats an index on each side of the seam, so the joining triangles are degenerate |
| Meshes.StripRowEnds | tutorial-2/src/glapp.cpp:240-246 | a row before the last ends with a repeated index |
| Meshes.StripRowStart | tutorial-2/src/glapp.cpp:234-240 | a row after the first starts with a repeated index |
| Meshes.StripPairsFirst | tutorial-2/src/glapp.cpp:238-240 | a row's first column pair starts at the first vertex of the row above |
| Meshes.GLApp.constructor | tutorial-2/src/glapp.cpp:23-24 | the viewport and model lists start empty |
| Meshes.GLApp.Init | tutorial-2/src/glapp.cpp:26-59 | init appends the four quadrant viewports, then the points(20,20) model, the lines(40,40) model as the source builds it (162 slots, draw count 164), the fan(50) and the strip(4,3) models, in that order |
| Meshes.GLApp.PushViewports | tutorial-2/src/glapp.cpp:31-39 | appends the four quadrants of the w x h window |
| Meshes.GLApp.PushModels | tutorial-2/src/glapp.cpp:45-59 | appends the four generated models in order, the lines model as written |
| ObjectPool.KindOf | tutorial-3/src/glapp.cpp:134-143 | an object uses model 0 exactly when its kind draw is negative, and model 1 otherwise |
| ObjectPool.SpawnedBounds | tutorial-3/src/glapp.cpp:125-143 | a spawned object lies in the world square [-5000, 5000), is scaled by 50 to 400 on each axis, starts at an angle in [-2·3.142, 2·3.142) and uses model 0 or 1 |
| ObjectPool.ModelToNdcPlacesObject | tutorial-3/src/glapp.cpp:395-428 | an object's transform is affine, takes the model origin to its position / 5000 in NDC, and takes the model x axis tip to position + scaling.x·(cos, sin), over 5000 |
| ObjectPool.ApplyFactors | tutorial-3/src/glapp.cpp:427 | the object's transform acts as Scale, then Rotate, then Translate, then Extend |
| ObjectPool.GLObject.Spawn | tutorial-3/src/glapp.cpp:127-143 | a new object gets position, angle, speed, scaling and model from its draws, with the identity transform |
| ObjectPool.GLObject.Update | tutorial-3/src/glapp.cpp:395-428 | update advances the angle by speed·dt and rebuilds the transform from the new angle, leaving everything else alone |
| ObjectPool.CountKind | tutorial-3/src/glapp.cpp:65-66 | a per-kind count never exceeds the list's size |
| ObjectPool.CountKindAppend | tutorial-3/src/glapp.cpp:145 | appending objects adds their kind counts |
| ObjectPool.CountKindsPartition | tutorial-3/src/glapp.cpp:134-143 | with every object of kind 0 or 1, boxcount + mysteryboxcount is the list's size |
| ObjectPool.NextCreate | tutorial-3/src/glapp.cpp:153-161 | a list of at most one object switches to growing, one of 32768 or more switches to shrinking, and any size in between keeps the current direction |
| ObjectPool.Pow2Max | tutorial-3/src/glapp.cpp:64 | the object maximum 32768 is a power of two |
| ObjectPool.NextSizeReachable | tutorial-3/src/glapp.cpp:122-206 | a click keeps the size 0 or a power of two no larger than 32768, never empties the list, and either doubles or halves a non-empty list |
| ObjectPool.ReshapedSize | tutorial-3/src/glapp.cpp:122-206 | the size after a frame is the click's next size, or unchanged without a click |
| ObjectPool.NextCounter | tutorial-3/src/glapp.cpp:104-109 | the P counter stays in 0..2 and counts modulo 3 |
| ObjectPool.CounterCounts | tutorial-3/src/glapp.cpp:89-110 | after n presses the counter is (start + n) mod 3, so the mode sequence LINE, POINT, FILL repeats every three presses |
| ObjectPool.GLApp.constructor | tutorial-3/src/glapp.cpp:56-66 | the globals' initial values: no objects, zero counts, growing, counter 0, keys up, fill mode |
| ObjectPool.GLApp.Update | tutorial-3/src/glapp.cpp:84-221 | a frame applies the P key's mode, grows or shrinks the list on a click, advances every object (old and new), and stores both key states; counts stay equal to the per-kind counts |
| ObjectPool.GLApp.RememberInputs | tutorial-3/src/glapp.cpp:219-220 | stores this frame's P and mouse states for the next frame |
| ObjectPool.GLApp.SpawnAndAdvance | tutorial-3/src/glapp.cpp:113-217 | grows or shrinks the list on a click, then advances each object once |
| ObjectPool.GLApp.PolygonModeStep | tutorial-3/src/glapp.cpp:89-110 | on a P press, applies the counter's mode and advances the counter; otherwise changes nothing |
| ObjectPool.GLApp.SpawnOrKill | tutorial-3/src/glapp.cpp:122-206 | on a click: spawn one object into an empty list, else update the hysteresis flag and double the list at the back or drop its older half at the front |
| ObjectPool.GLApp.Grow | tutorial-3/src/glapp.cpp:162-186 | appends as many fresh objects as there were, keeping the old ones in front and the counts exact |
| ObjectPool.GLApp.AddObject | tutorial-3/src/glapp.cpp:168-185 | appends one fresh object spawned from its draws and bumps the counter of its kind |
| ObjectPool.GLApp.Shrink | tutorial-3/src/glapp.cpp:188-204 | removes the first half of the list from the front, decrementing the counter of each removed object's kind |
| ObjectPool.GLApp.AdvanceAll | tutorial-3/src/glapp.cpp:214-217 | every object in the list is updated exactly once |
| Camera.AdvancePlacesObject | tutorial-4/src/glapp.cpp:340-374 | an update advances the angle by angular speed·dt, keeps the position, and the new transform takes the model origin to the object's position and the x axis tip to position + scaling.x·(cos, sin), both seen through world-to-NDC |
| Camera.ObjectXformOrigin | tutorial-4/src/glapp.cpp:373 | the object transform takes the model origin to the world-to-NDC image of the object's position |
| Camera.OriginPlaced | tutorial-4/src/glapp.cpp:342-363 | Translate * Rotate * Scale takes the model origin to the object's position |
| Camera.ObjectXformAxis | tutorial-4/src/glapp.cpp:373 | the object transform takes the model x-axis tip to the world-to-NDC image of position + scaling.x·(cos, sin) |
| Camera.AxisPlaced | tutorial-4/src/glapp.cpp:342-363 | Translate * Rotate * Scale takes the model x-axis tip to position + scaling.x·(cos, sin) |
| Camera.ObjectXformFactors | tutorial-4/src/glapp.cpp:373 | the object transform acts as Scale, Rotate, Translate, then world-to-NDC |
| Camera.GLObject.constructor | tutorial-4/src/glapp.cpp:170-218 | an object holds the orientation, position, scaling, colour and model and shader names it is read with, and glm's identity transform |
| Camera.GLObject.Update | tutorial-4/src/glapp.cpp:340-374 | update advances orientation.x by orientation.y·dt and rebuilds the transform against the camera's world-to-NDC matrix |
| Camera.BasisOrthonormal | tutorial-4/src/glapp.cpp:424-426 | right and up are unit vectors, perpendicular, and form a counter-clockwise basis |
| Camera.ViewCentresCamera | tutorial-4/src/glapp.cpp:438-461 | both view matrices are affine and take the camera's position to the origin |
| Camera.WorldAlignedOffsets | tutorial-4/src/glapp.cpp:440-445 | the world-aligned view sees a point (a, b) away from the camera at (a, b) |
| Camera.CameraAlignedOffsets | tutorial-4/src/glapp.cpp:447-461 | the camera-aligned view sees the point a·right + b·up away from the camera at (a, b) |
| Camera.OrthonormalOffsets | tutorial-4/src/glapp.cpp:449-460 | for any orthonormal right and up, the camera-aligned view reads off a point's coordinates in that basis |
| Camera.ZoomStaysInBand | tutorial-4/src/glapp.cpp:465-473 | one zoom step keeps the direction in -1..1 and the height within one step of the [min, max] band |
| Camera.ZoomFramesInBand | tutorial-4/src/glapp.cpp:465-473 | any number of zoom frames keeps the height within one step of the band |
| Camera.ZoomDescends | tutorial-4/src/glapp.cpp:467-472 | from the top of the band, zooming descends one step per frame while above the minimum |
| Camera.DescendFrom | tutorial-4/src/glapp.cpp:467-472 | a height zooming down keeps descending by one step per frame until it reaches the minimum |
| Camera.ZoomAscends | tutorial-4/src/glapp.cpp:465-472 | from the bottom of the band, whatever the direction, zooming climbs one step per frame while below the maximum |
| Camera.AscendFrom | tutorial-4/src/glapp.cpp:467-472 | a height zooming up keeps climbing by one step per frame until it reaches the maximum |
| Camera.CamWidthTruncates | tutorial-4/src/glapp.cpp:382-384 | as written, width = (int)ar·height is 0 for any portrait framebuffer and equals the height for any landscape one narrower than 2:1 |
| Camera.IntendedWidthKeepsAspect | tutorial-4/src/glapp.cpp:382-384 | the intended width (int)(ar·height) is ar·height to within one, positive once ar·height ≥ 1, and never below the width as written |
| Camera.CamWidthPositive | tutorial-4/src/glapp.cpp:382-384 | with a landscape framebuffer, the camera width (int)ar·height is at least the height, so the projection is defined |
| Camera.Camera2D.constructor | tutorial-4/src/glapp.cpp:61 | the camera is built with the zoom and speed settings it is given, following nothing, world-aligned |
| Camera.Camera2D.Init | tutorial-4/src/glapp.cpp:376-407 | init follows the given object, sets the aspect ratio, width and projection from the framebuffer, the basis from the object's angle, the world-aligned view and world-to-NDC = projection * view |
| Camera.Camera2D.Update | tutorial-4/src/glapp.cpp:409-492 | a frame recomputes the projection and basis, toggles the view type on a V press, builds the view from the followed object's position, zooms on Z, turns on H/K, pans along up on U, and sets world-to-NDC from the projection and the view of this frame |
| Camera.Camera2D.SetFrame | tutorial-4/src/glapp.cpp:411-473 | the part of update before the followed object moves: projection, basis, view type and view, zoom |
| Camera.Camera2D.SetProjection | tutorial-4/src/glapp.cpp:411-422 | sets ar from the framebuffer, width = (int)ar·height, and the projection scaling by 2/width and 2/height |
| Camera.Camera2D.SetView | tutorial-4/src/glapp.cpp:424-461 | sets the basis from the followed object's angle, toggles the view type on a V press, and builds the matching view |
| Camera.Camera2D.Zoom | tutorial-4/src/glapp.cpp:465-473 | turns the zoom direction at the band's ends and moves the height one step |
| Camera.Camera2D.MoveFollowed | tutorial-4/src/glapp.cpp:475-489 | H turns the followed object by +dt, K by -dt, and U moves it along up by the linear speed; nothing else of it changes |
| Camera.WorldToNdcCentresCamera | tutorial-4/src/glapp.cpp:491 | world-to-NDC puts the camera's position at the centre of the screen, whichever view is active |
| Scene.LessIrreflexive | tutorial-4/src/glapp.cpp:60 | the key order of the object map is irreflexive |
| Scene.LessTransitive | tutorial-4/src/glapp.cpp:60 | the key order of the object map is transitive |
| Scene.LessTotal | tutorial-4/src/glapp.cpp:60 | any two distinct keys are ordered |
| Scene.IncreasingDistinct | tutorial-4/src/glapp.cpp:87 | a map iteration never visits a key twice |
| Scene.Least | tutorial-4/src/glapp.cpp:87 | the first key a map iteration visits is below every other key |
| Scene.SortedKeys | tutorial-4/src/glapp.cpp:87-90 | a map iteration visits every key exactly once, in increasing order |
| Scene.LoadMesh | tutorial-4/src/glapp.cpp:253-305 | the mesh loop collects the `v` coordinates and the `t`/`f` indices in file order, takes its primitive type from the last `t` or `f` line, and sets both counts to the index count |
| Scene.IndicesAppend | tutorial-4/src/glapp.cpp:268-283 | the indices of two runs of lines are the indices of each, concatenated |
| Scene.LastPrimitiveIsLast | tutorial-4/src/glapp.cpp:268-285 | the model's primitive type is the one set by the last `t` or `f` line |
| Scene.NoIndexLinesNoPrimitive | tutorial-4/src/glapp.cpp:268-285 | a mesh without `t` or `f` lines has no indices and leaves the primitive type unset |
| Scene.MeshCounts | tutorial-4/src/glapp.cpp:303-305 | draw count and primitive count both equal the number of indices |
| Scene.FirstProgramIsFirst | tutorial-4/src/glapp.cpp:311-319 | the program cached under a name is built from the first record naming it |
| Scene.LastRecord | tutorial-4/src/glapp.cpp:320 | the record an object name ends up with is one of the records, and it carries that name |
| Scene.LastRecordWins | tutorial-4/src/glapp.cpp:320 | the object stored under a name is the one of the last record naming it |
| Scene.NamesObjectStep | tutorial-4/src/glapp.cpp:320 | storing record i makes it the last for its name and changes no other name's record |
| Scene.StoreStep | tutorial-4/src/glapp.cpp:320 | storing record i's object keeps the object map as described by the first i+1 records |
| Scene.ModelsFound | tutorial-4/src/glapp.cpp:223-238 | once the models of some records are cached, each record's model was cached already or has a mesh file |
| Scene.ModelCacheStep | tutorial-4/src/glapp.cpp:223-309 | a cached model is reused; an uncached one is loaded from its mesh file once and cached |
| Scene.ShaderCacheStep | tutorial-4/src/glapp.cpp:311-319 | a cached program is reused; an uncached one is built once, from the record naming it first |
| Scene.FirstProgramKept | tutorial-4/src/glapp.cpp:311-314 | a later record naming a cached program does not change which program is cached |
| Scene.FirstProgramNew | tutorial-4/src/glapp.cpp:315-318 | the first record naming a program decides it |
| Scene.GLApp.constructor | tutorial-4/src/glapp.cpp:56-62 | the model, shader and object maps start empty and V starts up |
| Scene.GLApp.InitScene | tutorial-4/src/glapp.cpp:152-322 | init_scene succeeds exactly when every record's model is cached or has a mesh file; then each model is loaded once, each program built once from its first record, and each object name holds a fresh object described by its last record, other objects kept |
| Scene.GLApp.LoadRecord | tutorial-4/src/glapp.cpp:170-320 | one record: fails exactly when its model is neither cached nor in a mesh file; otherwise caches its model and program and stores its object |
| Scene.GLApp.CacheModel | tutorial-4/src/glapp.cpp:223-309 | finds the record's model in the cache or loads it, failing exactly when it has no mesh file |
| Scene.GLApp.CacheShader | tutorial-4/src/glapp.cpp:311-319 | finds the record's program in the cache or builds it |
| Scene.GLApp.StoreObject | tutorial-4/src/glapp.cpp:320 | stores a fresh object described by the record under its name, replacing any earlier one |
| Scene.GLApp.Init | tutorial-4/src/glapp.cpp:65-81 | init reads the scene, then points the camera at the object named "Camera"; it fails if a mesh is missing or there is no such object |
| Scene.GLApp.Update | tutorial-4/src/glapp.cpp:83-93 | a frame updates the camera first: aspect ratio, width and projection from the framebuffer and the old height, basis from the camera object's old angle, view toggle on V, zoom on Z; then every object is advanced against the new world-to-NDC matrix (the camera's object after it has turned and panned), then V is stored |
| Scene.GLApp.AdvanceObjects | tutorial-4/src/glapp.cpp:87-90 | every object of the map is updated exactly once |
| Scene.GLApp.AdvanceEach | tutorial-4/src/glapp.cpp:87-90 | updating along the map's keys in order updates each object once |
| Scene.GLApp.Draw | tutorial-4/src/glapp.cpp:114-122 | draws every object other than "Camera" once, in key order, then "Camera" last |
| Texture.Trunc | tutorial-5/src/glapp.cpp:263 | C's float-to-int conversion truncates toward zero |
| Texture.PhaseInRange | tutorial-5/src/glapp.cpp:258-262 | the phase stays in [0, 3.14] and grows by dt/5 unless it wraps to 0 |
| Texture.TileSizeBounds | tutorial-5/src/glapp.cpp:263 | with sin in [0, 1] the tile size lies in [16, 272] and grows with the sine |
| Texture.ModeCountsPresses | tutorial-5/src/glapp.cpp:265-268 | after any run of frames the shader mode is the start plus the number of T presses, modulo 7 |
| Texture.ToggleCountsPresses | tutorial-5/src/glapp.cpp:271-284 | a toggled flag has flipped once per press of its key |
| Texture.LastWrapModeDecides | tutorial-5/src/glapp.cpp:291-308 | the wrap mode is the one of the last draw in mode 4, 5 or 6 |
| Texture.OtherModesKeepWrap | tutorial-5/src/glapp.cpp:291-308 | draws in modes 0 to 3 leave the wrap mode as it was |
| Texture.GLModel.constructor | tutorial-5/src/glapp.cpp:80-93 | the globals' initial values: phase 0, tile size 32, mode 0, both toggles off, keys up |
| Texture.GLModel.Update | tutorial-5/src/glapp.cpp:256-285 | a frame advances the phase and tile size, steps the mode on T, toggles modulate on M and blend on A, stores the keys, and keeps phase and mode in range |
| Texture.GLModel.AdvancePhase | tutorial-5/src/glapp.cpp:258-263 | the phase grows by dt/5 and wraps past 3.14; the tile size follows its sine |
| Texture.GLModel.PollKeys | tutorial-5/src/glapp.cpp:265-284 | each key acts on its press only, and the mode stays in 0..6 |
| Texture.GLModel.Draw | tutorial-5/src/glapp.cpp:287-327 | modes 4, 5, 6 set repeat, mirrored repeat and clamp-to-edge on both axes; blending is on exactly when the blend flag is; the three uniforms are passed on |
| Pbo.MakeColor | tutorial-6.1/include/glpbo.h:149-150 | the constructor stores its four arguments as r, g, b, a |
| Pbo.ColorDefaults | tutorial-6.1/include/glpbo.h:149-150 | a default colour is opaque black, and a colour given only r, g, b is opaque |
| Pbo.Val | tutorial-6.1/include/glpbo.h:146 | the byte view of a colour has four bytes |
| Pbo.ValRoundTrip | tutorial-6.1/include/glpbo.h:143-146 | the union's r,g,b,a view and its val[4] view name the same bytes: each is recovered from the other |
| Pbo.Bytes | tutorial-6.1/include/glpbo.h:110 | a run of pixels is four bytes per pixel |
| Pbo.BytesLayout | tutorial-6.1/include/glpbo.h:143-146 | byte 4i + k of the buffer is component k of pixel i |
| Pbo.FilledBytes | tutorial-6.1/include/glpbo.h:14-18 | a buffer cleared to one colour is that colour's four bytes repeated |
| Pbo.GLPbo.constructor | tutorial-6.1/include/glpbo.h:107-113 | before init the sizes are zero and the clear colour is the default colour |
| Pbo.GLPbo.SetClearColor | tutorial-6.1/include/glpbo.h:11-13 | set_clear_color(Color) makes the clear colour the given one |
| Pbo.GLPbo.SetClearColorRgba | tutorial-6.1/include/glpbo.h:128 | set_clear_color(r, g, b, a = 255) makes the clear colour (r, g, b, a) |
| Pbo.GLPbo.ClearColorBuffer | tutorial-6.1/include/glpbo.h:14-18 | every pixel of the mapped store holds the clear colour |
| Pbo.GLPbo.Init | tutorial-6.1/include/glpbo.h:19-32 | init sets width and height, pixel count w·h and byte count 4·w·h, a white clear colour, and a w·h-pixel store cleared to white whose bytes number the byte count |

## Left out

- GL and GLFW calls (buffer, VAO, texture and shader objects, uniforms, polygon mode, draw calls, the window title, print_specs) are not modelled. The model records the state they are given: the polygon mode, wrap mode and blend flag, the draw order, and the buffers' contents and counts.
- File I/O and text parsing are not modelled. A scene file is a sequence of already-read object records, and a mesh file is a sequence of lines with their prefix and their fields read as floats and as GLushort. A missing scene file ends the program, and that path is not modelled.
- A missing mesh file ends the program in tutorial 4. `Scene.GLApp.InitScene` and `Scene.GLApp.Init` return `ok == false` instead, and state which records cause it. Likewise `objects.at("Camera")` throwing is `Scene.GLApp.Init` returning false.
- Randomness is not modelled. tutorial-3 reseeds a std::default_random_engine from the clock every frame; the model takes the values drawn as a parameter (`draws`), one `Draw` per spawned object. C++ leaves the order of the two urdf2 calls in one initialiser unspecified, so the draws are named by role. The random vertex colours of tutorial 2 are not modelled.
- Floating point is modelled by reals. 32-bit float rounding is not modelled. The constants are as written: 3.142, 3.14, 3.1425/180, 1/5000.
- Cosine and sine are uninterpreted (`Affine.Trig`). Where a property needs cos² + sin² = 1 it is a precondition (`Affine.Pythagorean`), not a fact derived from the C library.
- Mesh vertices are kept as the loop counters that produced them, not as their float coordinates.
- tutorial-4 builds an `Extend` matrix in GLObject::update and never uses it. The model leaves it out.
- The time step and the key and mouse states are parameters of each update, not reads of GLHelper.
- `Color::raw`, the union's 32-bit view, is not modelled: its value depends on the machine's byte order.
- `Pbo.GLPbo.Init` requires non-negative w and h; GLsizei is signed and the source does not check.
- `Pbo.GLPbo.Init` does not model the 32-bit overflow of byte_cnt for very large buffers; integers are unbounded.
- GLPbo's emulate, setup_quad_vao, setup_shdrpgm, draw_fullwindow_quad and cleanup, and the mapping and unmapping of the PBO, are GL calls and are not modelled.
- The blend function arguments (GL_SRC_ALPHA, GL_ONE_MINUS_SRC_ALPHA) are not modelled; only whether blending is enabled is.
- Camera zoom, turn and pan take the key states as given, and the camera's `pgo` pointer is the followed `GLObject` reference.
- `Texture.GLModel.Draw` does not model the texture binding or the draw call; it returns the three uniforms it sets.
- tutorial-4's glapp.h is not part of this model: the Camera2D settings (heights, zoom step, speed) are constructor parameters rather than its default values.
- Camera.Camera2D.Init requires a landscape, non-empty framebuffer (fbWidth >= fbHeight > 0). The source takes whatever glfwGetFramebufferSize reports. A portrait framebuffer gives width 0, and the projection then computes 2.0f / 0 (see Findings). A zero-height one makes ar = w / 0. Reals cannot hold the infinities and NaNs that float division produces, so these frames are not modelled.
- Camera.Camera2D.Update: the same landscape, non-empty framebuffer requirement, for the same reason.
- Camera.Camera2D.SetFrame: the same landscape, non-empty framebuffer requirement, for the same reason.
- Camera.Camera2D.SetProjection: the same landscape, non-empty framebuffer requirement, for the same reason.
- Scene.GLApp.Init: the same landscape, non-empty framebuffer requirement, which it passes on to the camera.
- Scene.GLApp.Update: the same landscape, non-empty framebuffer requirement, which it passes on to the camera.
- Camera.Camera2D.ZoomSettings assumes that the zoom step is non-negative, that min_height - height_chg_val > 0 and that min_height <= max_height. The header holding the actual values is not part of this model, so this is an assumption about those values; it keeps the height positive.
- The objects tutorial-3 keeps in a std::list are a sequence of object references; pop_front is dropping the first element.

## Findings

| source | as written | input that shows it | evidently intended | confidence | as-written member | corrected member |
|---|---|---|---|---|---|---|
| tutorial-2/src/glapp.cpp:100-136 | the row loop starts writing at slot 2·slices, which overwrites both ends of the last vertical line (x = +1); draw_cnt is 2·(slices+1) + 2·(stacks+1), two more than the buffer's (slices+stacks+1)·2 slots, so the draw reads two vertices past the buffer | slices = 1, stacks = 1: the buffer has 6 slots, the draw count is 8, and the line x = +1 is never drawn | allocate 2·(slices+1) + 2·(stacks+1) slots and start the row loop at 2·(slices+1), so every line has both ends and the draw count matches the buffer | not executed | Meshes.LinesModelAsWritten, Meshes.LinesAsWrittenOverrun | Meshes.LinesModel, Meshes.LinesComplete |
| tutorial-4/src/glapp.cpp:382-388 | `width = ( int ) ar * height` casts the aspect ratio to int before multiplying, so the width is a whole multiple of the height; for a portrait framebuffer it is 0 and the projection divides 2.0f by 0 (also at 415-419) | a 900 x 1600 framebuffer: ar = 0.5625, width = 0; a 1600 x 900 one: width = height instead of 1.78·height | width = (int)(ar * height), a camera window with the framebuffer's proportions | not executed | Camera.CamWidthTruncates | Camera.IntendedWidth, Camera.IntendedWidthKeepsAspect |
