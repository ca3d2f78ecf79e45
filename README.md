# Barrel demo core in Dafny

A Dafny model of the logic at the centre of a Qt/OpenGL demo that drops 5000
barrels, simulated by the Bullet3 OpenCL GPU physics engine, onto a static
scene. It models three parts:

- **The MainWindow control logic** (`untitled/mainwindow.cpp`):
  - the 256-entry key table and the mouse-look flag, driven by key and mouse events;
  - the timer tick: the uint64 time difference, the skip and 1/30 s cap, the viewport clamp;
  - mouse-look through the camera, and W/S/D/A movement with its `else if` priorities;
  - the order of the platform calls a tick makes, including the two texture-batched draw passes;
  - the scene bookkeeping of `InitScene` and the two collision-mesh builders.
- **The free-fly Camera** (`untitled/Camera.h`): the field setters and getters, and `Rotate`'s mouse-delta tracking in function-static locals with its ±20 clamp.
- **Model flattening** (`untitled/Model.cpp`):
  - imported faces expand into three vertices per triangle, appended to the mesh's material;
  - the materials are flattened into one vertex list, each material getting the consecutive index run that points back into it;
  - empty materials are skipped when index buffers are created and when drawing;
  - `Release` empties the model.

Modules:

| file | module | contents |
|---|---|---|
| `vectors.dfy` | `Vectors` | `Vec3`/`Vec2` over `real`, the vector operations, the types of the normalisation and rotation parameters |
| `camera.dfy` | `CameraModel` | class `Camera`, the clamp and look-delta functions |
| `mesh_spec.dfy` | `MeshSpec` | imported-scene datatypes, the specification functions of face expansion and flattening, and the lemmas about them |
| `model.dfy` | `ModelMesh` | class `Model` with its loops, an OpenGL call recorder `GlDevice`, lemmas about buffer naming, drawing and release |
| `platform.dfy` | `Platform` | class `Services`: records the physics and rendering calls in order and hands out shape and body indices |
| `frame_spec.dfy` | `FrameSpec` | the calls of a tick as a specification function, and the ordering and exactly-once lemmas of the batched draw |
| `main_window.dfy` | `MainWindowModel` | class `MainWindow`: events, `TimerTick`, the draw loops, the scene build |

Floating-point values are modelled as exact `real`s. `glm::normalize` and the rotation of `Rotate` are function parameters, so properties hold for any normalisation and any rotation. The timer reading, widget and window sizes, cursor position and `rand()` values are also parameters.

## Model

| member | source | states |
|---|---|---|
| CameraModel.ClampLookStep | untitled/Camera.h:50-53 | the applied delta lies in [-20, 20]; a delta already inside is unchanged; below or above the range it becomes -20 or 20 |
| CameraModel.FirstLookIsStill | untitled/Camera.h:43-46 | on the first call the statics are initialised from the arguments, so the applied delta is 0 whatever the cursor position |
| CameraModel.LookDeltaIsClampedDifference | untitled/Camera.h:45-53 | on later calls the applied delta is the difference of consecutive arguments, clamped to [-20, 20] |
| CameraModel.Camera.constructor | untitled/Camera.h:83-91 | the Rotate statics start uninitialised |
| CameraModel.Camera.Init | untitled/Camera.h:9-14 | pos becomes the eye, dir becomes normalize(at - eye), up becomes (0, 1, 0); nothing else changes |
| CameraModel.Camera.Update | untitled/Camera.h:16-19 | only the stored dt changes |
| CameraModel.Camera.MoveW | untitled/Camera.h:21-24 | pos moves by +dir * 5 * dt; nothing else changes |
| CameraModel.Camera.MoveS | untitled/Camera.h:25-28 | pos moves by -dir * 5 * dt; nothing else changes |
| CameraModel.Camera.MoveD | untitled/Camera.h:29-33 | pos moves by +cross(dir, up) * 5 * dt; nothing else changes |
| CameraModel.Camera.MoveA | untitled/Camera.h:34-38 | pos moves by -cross(dir, up) * 5 * dt; nothing else changes |
| CameraModel.Camera.Rotate | untitled/Camera.h:41-66 | the statics always become the current arguments, even when the delta was clamped; dir is turned by the clamped look deltas (pitch about cross(dir, up), then yaw), scaled by -0.003; pos, up and dt are unchanged |
| CameraModel.Camera.GetPos | untitled/Camera.h:68-71 | the eye position: the look-at point GetAt returns lies one direction vector ahead of it |
| CameraModel.Camera.GetAt | untitled/Camera.h:73-76 | the look-at point minus pos is dir |
| CameraModel.Camera.SetPos | untitled/Camera.h:78-81 | GetPos() afterwards returns p, and nothing else changes |
| Vectors.AddSubCancel | untitled/mainwindow.cpp:363-365 | (pos + dir) - pos == dir, so the tick's direction is normalize(dir) |
| Vectors.CrossNegLeft | untitled/mainwindow.cpp:390-399 | cross(-dir, up) == -cross(dir, up): key A's sideways direction is exactly opposite to D's |
| MeshSpec.FaceVertices | untitled/Model.cpp:48-62 | one face contributes exactly its three corner vertices, in corner order |
| MeshSpec.MeshVerticesLayout | untitled/Model.cpp:46-63 | a mesh contributes 3 vertices per face; vertex 3f + c is corner c of face f, translated |
| MeshSpec.DistributeGathers | untitled/Model.cpp:40-64 | after the mesh loop every material holds its old vertices followed by the expansions of exactly the meshes that name it, in mesh order; texture id, indices and index buffer are untouched |
| MeshSpec.DistributeGathersAt | untitled/Model.cpp:40-64 | the same for one material |
| MeshSpec.Run | untitled/Model.cpp:66-79 | the run of n consecutive indices from start: length n, entry i is start + i |
| MeshSpec.ConcatPrefix | untitled/Model.cpp:66-79 | the flattened vertices of the first m materials are a prefix of the whole flattened list |
| MeshSpec.ConcatStep | untitled/Model.cpp:67-79 | one more material appends exactly its vertices to the flattened list |
| MeshSpec.ConcatAt | untitled/Model.cpp:71-77 | vertex i of material m sits in the flattened list at the material's offset plus i |
| MeshSpec.OffsetsOrdered | untitled/Model.cpp:66-79 | an earlier material's index run ends no later than a later material's run begins |
| MeshSpec.ConcatOfVertices | untitled/Model.cpp:66-79 | the flattened list depends only on the vertex lists |
| MeshSpec.FlattenIndexes | untitled/Model.cpp:66-79 | flattening materials without indices keeps the flattened list and gives each material the run starting at the size of the earlier materials |
| MeshSpec.IndicesPointBack | untitled/Model.cpp:71-77 | each index list is as long as its vertex list, and all-vertices[indices_m[i]] == vertices_m[i] |
| MeshSpec.IndicesDistinct | untitled/Model.cpp:66-79 | no index occurs twice, within a material or across materials |
| MeshSpec.IndicesCover | untitled/Model.cpp:66-79 | every position 0..total-1 of the flattened list is some material's index |
| MeshSpec.FitsMoreMaterials | untitled/Model.cpp:40-44 | every mesh's material index stays valid once more materials precede |
| MeshSpec.ExpandedAt | untitled/Model.cpp:24-64 | after the material and mesh loops, an old material keeps texture id, indices and index buffer and gains the expansions of exactly the meshes naming it, in mesh order; a new material has the scene material's texture id, no indices, buffer 0 and those expansions only |
| ModelMesh.GlDevice.GenBuffer | untitled/Model.cpp:84 | glGenBuffers hands out the next name, non-zero and fresh; nothing is recorded |
| ModelMesh.UploadsOnlyNonEmpty | untitled/Model.cpp:89-102 | CreateOpenGLBuffers uploads an index buffer for a material exactly when its index list is non-empty, holding that list |
| ModelMesh.DrawSkipsEmpty | untitled/Model.cpp:117-132 | Draw issues a draw for a material exactly when it has vertices, of exactly its index count, with its texture and index buffer |
| ModelMesh.DrawnMaterialsHaveIndexBuffers | untitled/Model.cpp:89-132 | in a flattened model a material has vertices exactly when it has indices, so every material Draw draws got an index buffer |
| ModelMesh.ReleaseDeletesTextures | untitled/Model.cpp:145-156 | every deletion Release issues is of some material's non-zero texture id, and every material with a non-zero texture id has its texture deleted |
| ModelMesh.WithIndexCount | untitled/Model.cpp:89-102 | the number of index buffers created for the first count materials is at most count |
| ModelMesh.WithIndexCountGrows | untitled/Model.cpp:89-102 | an earlier material with indices has a smaller rank than every later one, so, with names handed out consecutively as `GlDevice.GenBuffer` models them, it is named first (glGenBuffers itself promises only fresh non-zero names) |
| ModelMesh.NamedAt | untitled/Model.cpp:89-102 | CreateOpenGLBuffers changes only index-buffer names: a visited material with indices is named lo + its rank, every other material is unchanged |
| ModelMesh.NamesIncrease | untitled/Model.cpp:84-102 | index-buffer names are above the vertex buffer's name, distinct, and increase with material order; the ordering rests on the consecutive allocator `GlDevice.GenBuffer` models, glGenBuffers promising only fresh non-zero names |
| ModelMesh.IndexUploadsPrefix | untitled/Model.cpp:89-102 | naming a later material does not change the uploads already issued |
| ModelMesh.NamedKeepsLayout | untitled/Model.cpp:89-102 | naming index buffers keeps every material's vertices and indices, so the flattened list and the index runs survive |
| ModelMesh.ExpandFaces | untitled/Model.cpp:46-63 | the face loops of one mesh build exactly its specification sequence of three vertices per face |
| ModelMesh.Model.constructor | untitled/Model.h:46-49 | a new model has no materials, no vertices and vertex buffer 0 |
| ModelMesh.Model.LoadFromOBJFile | untitled/Model.cpp:19-80 | the materials become the indexed expansion of the old ones plus the scene's, and the all-vertices list gains their concatenation; on a fresh model the result is Consistent |
| ModelMesh.Model.AddSceneMaterials | untitled/Model.cpp:24-38 | appends one material per scene material |
| ModelMesh.Model.ExpandMeshes | untitled/Model.cpp:40-64 | each mesh's expansion is appended to its material, mesh by mesh |
| ModelMesh.Model.FlattenMaterials | untitled/Model.cpp:66-79 | each material gets the index run from the running id, and the all-vertices list gains every material's vertices in material order |
| ModelMesh.Model.FlattenMaterial | untitled/Model.cpp:69-78 | one material's vertices are appended and its indices gain start, start + 1, and so on; the counter ends at start + its vertex count |
| ModelMesh.Model.CreateOpenGLBuffers | untitled/Model.cpp:82-103 | one vertex buffer of all vertices, then one index buffer per material with indices, named in order; nothing else changes, so a consistent model stays consistent |
| ModelMesh.Model.Draw | untitled/Model.cpp:105-141 | begin, one draw per material with vertices, end; the model is unchanged and no buffer name is taken |
| ModelMesh.Model.Release | untitled/Model.cpp:143-160 | materials and the all-vertices list become empty after every non-zero texture is deleted; no buffer name is taken |
| ModelMesh.Model.GetVertices | untitled/Model.cpp:162-165 | returns the all-vertices list, which for a loaded model is every material's vertices in order |
| Platform.Services.RegisterConvexHull | untitled/mainwindow.cpp:224 | records the hull registration with the points and the stride the caller passes, and returns the next shape index |
| Platform.Services.RegisterConcaveMesh | untitled/mainwindow.cpp:250 | records the mesh registration and returns the next shape index |
| Platform.Services.RegisterInstance | untitled/mainwindow.cpp:229 | records the body registration and returns the next body index |
| FrameSpec.Matching | untitled/mainwindow.cpp:446-452 | the instances a slot scan draws are among those scanned |
| FrameSpec.MatchingSound | untitled/mainwindow.cpp:446-452 | a slot draws only instances whose texture is the slot's, in strictly increasing index order |
| FrameSpec.MatchingComplete | untitled/mainwindow.cpp:446-452 | a slot draws every instance whose texture is the slot's |
| FrameSpec.DrawOrder | untitled/mainwindow.cpp:442-467 | every instance a pass draws is an index into the lists |
| FrameSpec.BindsPerSlot | untitled/mainwindow.cpp:442-444 | g_Texture is set exactly numTextures times per pass, whether or not a slot draws anything |
| FrameSpec.SlotDrawsBindNothing | untitled/mainwindow.cpp:446-465 | the inner scan never sets g_Texture |
| FrameSpec.SlotDrawsRead | untitled/mainwindow.cpp:446-465 | a slot scan reads the transforms of exactly the bodies of its matching instances, in index order |
| FrameSpec.PassReadsInDrawOrder | untitled/mainwindow.cpp:442-467 | a pass reads the transforms of exactly the bodies of the instances it draws, slot by slot |
| FrameSpec.ReadOrderAppend | untitled/mainwindow.cpp:442-467 | the transform reads of concatenated calls are concatenated |
| FrameSpec.BindsAppend | untitled/mainwindow.cpp:442-467 | the texture settings of concatenated calls add up |
| FrameSpec.OccurrencesAppend | untitled/mainwindow.cpp:442-467 | occurrence counts of concatenated draw orders add up |
| FrameSpec.MatchingOnce | untitled/mainwindow.cpp:446-452 | a slot draws instance i once if its texture is the slot's, never otherwise |
| FrameSpec.DrawOrderCount | untitled/mainwindow.cpp:442-467 | a pass draws instance i once per slot holding i's texture |
| FrameSpec.DistinctSlotOnce | untitled/mainwindow.cpp:442-444 | in a list of distinct texture ids a present id is held by exactly one slot |
| FrameSpec.SlotAbsent | untitled/mainwindow.cpp:442-444 | an id held by no slot is counted zero times |
| FrameSpec.DrawnExactlyOnce | untitled/mainwindow.cpp:442-467 | with distinct texture ids, an instance whose texture is a slot's is drawn exactly once per pass, and any other instance never |
| FrameSpec.TickCallsJoin | untitled/mainwindow.cpp:351-541 | the physics calls, the shadow pass, the screen pass, the sky and the swap make up exactly one tick's calls |
| FrameSpec.SlotDrawsInPass | untitled/mainwindow.cpp:446-465 | every pass call of a slot scan belongs to that scan's pass |
| FrameSpec.BatchedInPass | untitled/mainwindow.cpp:441-468 | every pass call of the batched loop belongs to its pass |
| FrameSpec.PassCallsInPass | untitled/mainwindow.cpp:422-472 | every call of a render pass that belongs to a pass belongs to that one |
| FrameSpec.TickOrder | untitled/mainwindow.cpp:351-541 | a tick starts with stepSimulation then the readback, which precede every transform read; every shadow-pass call precedes every screen-pass call |
| FrameSpec.PassOf | untitled/mainwindow.cpp:422-530 | the shadow pass's calls lie right after the two physics calls, the screen pass's after them |
| MainWindowModel.SetKey | untitled/mainwindow.cpp:557-563 | a code in 0..255 sets exactly that entry; other entries stay; an out-of-range code leaves the table unchanged |
| MainWindowModel.EscapeKeepsKeys | untitled/mainwindow.cpp:557-569 | Escape lies outside the table, so it changes no entry |
| MainWindowModel.PressReleaseRestores | untitled/mainwindow.cpp:557-579 | releasing a key that was up before pressing it restores the table |
| MainWindowModel.Elapsed | untitled/mainwindow.cpp:326-329 | the uint64 difference of the readings: exact when time advanced, wrapped modulo 2^64 when it went back |
| MainWindowModel.ElapsedZero | untitled/mainwindow.cpp:329-331 | the difference is zero exactly when the two readings are equal |
| MainWindowModel.TickStep | untitled/mainwindow.cpp:329-332 | zero elapsed time gives 0 (the early return); otherwise dt = min(elapsed seconds, 1/30): it equals the elapsed seconds when they are at most 1/30 and exactly 1/30 when they exceed it |
| MainWindowModel.ClampViewport | untitled/mainwindow.cpp:345-348 | the viewport side is at least 1, and a side already at least 1 is unchanged |
| MainWindowModel.Half | untitled/mainwindow.cpp:357-358 | the window centre of `width() / 2`: C++ integer division by 2, rounding toward zero for either sign |
| MainWindowModel.ForwardBeatsBackward | untitled/mainwindow.cpp:380-389 | while W is held, S makes no difference to the movement |
| MainWindowModel.RightBeatsLeft | untitled/mainwindow.cpp:390-399 | while D is held, A makes no difference to the movement |
| MainWindowModel.StraightMoves | untitled/mainwindow.cpp:375-389 | W alone moves along normalize(dir), S alone along normalize(-dir) |
| MainWindowModel.NoKeysNoStep | untitled/mainwindow.cpp:375-402 | with none of W, S, D, A held the position step is zero |
| MainWindowModel.SteadyOffsetIsStill | untitled/mainwindow.cpp:356-360 | the tick passes a centre-relative offset that Rotate differences again, so an offset repeated on consecutive ticks turns the camera by nothing |
| MainWindowModel.GridCallsRegister | untitled/mainwindow.cpp:177-198 | the grid loops issue two registrations per barrel and nothing else |
| MainWindowModel.SceneFlushesLast | untitled/mainwindow.cpp:160-204 | the scene build issues 5002 registrations, then setGravity, writeAllInstancesToGpu, writeAllBodiesToGpu and writeAabbsToGpu: a call is a registration exactly when it precedes the flush |
| MainWindowModel.RolledAt | untitled/mainwindow.cpp:189-190 | barrel k gets the texture of slot rand_k mod numTextures, which is one of the slots |
| MainWindowModel.BarrelsDrawnOnce | untitled/mainwindow.cpp:177-198 | with distinct texture ids, every barrel of the grid is drawn exactly once per pass |
| MainWindowModel.GridPositionAt | untitled/mainwindow.cpp:179-185 | the barrel the loops reach at (x, z, y) is grid barrel ((x + 5) * 10 + (z + 5)) * 50 + y, placed at (1.5x, 20 + 1.5y, 1.5z) |
| MainWindowModel.MainWindow.constructor | untitled/mainwindow.h:98-99 | mouse-look starts off, the lists are empty, nothing is registered |
| MainWindowModel.MainWindow.Start | untitled/mainwindow.cpp:71-78 | mouse-look on and both readings set to the start time |
| MainWindowModel.MainWindow.KeyPress | untitled/mainwindow.cpp:557-570 | the key table becomes SetKey(table, key, true); Escape, and only Escape, clears mouse-look |
| MainWindowModel.MainWindow.KeyRelease | untitled/mainwindow.cpp:572-579 | the key table becomes SetKey(table, key, false); nothing else changes |
| MainWindowModel.MainWindow.MousePress | untitled/mainwindow.cpp:581-586 | sets mouse-look; nothing else changes |
| MainWindowModel.MainWindow.MouseRelease | untitled/mainwindow.cpp:588-591 | changes nothing; mouse-look stays as it was |
| MainWindowModel.MainWindow.AdvanceClock | untitled/mainwindow.cpp:325-332 | the readings shift, dt becomes TickStep of the wrapped difference, and the tick goes on exactly when the difference is non-zero |
| MainWindowModel.MainWindow.DrawInstances | untitled/mainwindow.cpp:442-467 | the batched loops issue exactly BatchedPass: per slot, one texture setting followed by that slot's scan |
| MainWindowModel.MainWindow.DrawSlot | untitled/mainwindow.cpp:446-465 | the inner scan reads and draws, in list order, exactly the bodies whose texture is the slot's |
| MainWindowModel.MainWindow.RenderPass | untitled/mainwindow.cpp:422-472 | begin with the pass's viewport, the scenery, the batched bodies, end |
| MainWindowModel.MainWindow.Steer | untitled/mainwindow.cpp:356-402 | with mouse-look, Rotate gets the cursor offset from the window centre; dt is handed to the camera; the position read before moving is returned; pos gains the W/S/D/A step along the normalized new direction |
| MainWindowModel.MainWindow.TimerTick | untitled/mainwindow.cpp:321-542 | a tick whose readings are equal only shifts the readings and sets dt to 0; any other tick issues exactly TickCalls with the clamped viewport and the pre-move camera position as eye, and moves the camera by the key step; with mouse-look on it turns the camera and sets the Rotate statics to the cursor's offset from the window centre; with mouse-look off dir and the statics stay |
| MainWindowModel.MainWindow.ConvexPoints | untitled/mainwindow.cpp:215-221 | the hull points are the vertex positions, in order |
| MainWindowModel.MainWindow.ConcaveGeometry | untitled/mainwindow.cpp:239-247 | the mesh points are the vertex positions moved by the offset, and the index list is 0, 1, ..., n - 1 |
| MainWindowModel.MainWindow.CreateConvexMesh | untitled/mainwindow.cpp:211-232 | registers the hull of the positions with a stride of 3 * sizeof(float) = 12 bytes, then a body of it at the given position; returns the body index |
| MainWindowModel.MainWindow.CreateConcaveMesh | untitled/mainwindow.cpp:234-258 | registers the shifted mesh with identity indices, then a body at the origin; returns the body index |
| MainWindowModel.MainWindow.PlaceBarrel | untitled/mainwindow.cpp:184-192 | one barrel: a convex body at its grid position; its body index and rolled texture are appended to the lockstep lists |
| MainWindowModel.MainWindow.BuildInstances | untitled/mainwindow.cpp:177-198 | the two lists grow in lockstep by 5000: consecutive body indices and the rolled textures; exactly the 5000 grid registrations are issued |
| MainWindowModel.MainWindow.InitScene | untitled/mainwindow.cpp:136-209 | the concave scenery mesh at the origin, the texture slots, the barrel grid, then gravity and the three GPU writes, then the camera at (20, 3, 20) looking at the origin; 5001 shapes and bodies are registered; the timer readings, dt, the camera's dt and Rotate's statics are untouched |
| MainWindowModel.FirstTickAfterStartUp | untitled/mainwindow.cpp:60-78 | a new window that builds the scene, turns mouse-look on and starts the timer does not turn the camera on its first tick, whatever the cursor; the tick sets Rotate's statics to the cursor's offset, and 5001 shapes and bodies and 5000 barrels in lockstep are registered |

## Left out

- OpenGL, WGL, GLEW, shader loading, render targets, the sky box's drawing and `SwapBuffers` are foreign. Within a tick they appear only as recorded calls, each standing for the group of library calls its comment names, except the tick's opening `wglMakeCurrent`, which makes the GL context current before the timer is read and is not modelled (no call is recorded for it). The GL state setup, shader, render-target, sky-box, model and texture loads at the start of `InitScene` are not recorded at all; its physics calls are.
- OpenAL playback, the splash screen, cursor shapes, cursor recentring and Qt event dispatch are left out. The cursor position and window size are parameters of the tick.
- The Bullet3 engine is foreign. `Services` records the calls and numbers shapes and bodies consecutively from 0. The engine's own ids are assumed to be those ordinals.
- Assimp import and FreeImage texture decoding are left out. The imported scene is an abstract `Scene` value, and texture loading yields the texture ids given as parameters.
- Floating-point rounding is not modelled: all arithmetic is exact over `real`. The conversion of the uint64 nanosecond count to `float` and the `float` comparison with 1/30 are exact here.
- `glm::normalize`, `glm::rotate` and the camera's rotation matrices are parameters (`Normalizer`, `Rotator`). The look-at, orthographic and perspective matrices are not computed; they are part of the recorded `BeginPass` call.
- The FPS counter and window title of `TimerTick` are left out.
- The light matrices, the `matWorld` matrices built from the body transforms, the `g_DepthTexture` binding and the sky's matrix setup are not modelled, because they are floating-point maths.
- `Camera::Rotate` keeps its previous mouse positions in function-static locals, which all Camera objects share. The model keeps them per Camera. The program has one camera, so nothing differs.
- The `avatar` code in `InitScene` and `TimerTick` is commented out, so it is not modelled. `Model::m_nNumVertices` is never used.
- The headers do not declare several names the code uses: `Model::Load`, `Begin` and `End`, `Shader::SetMatrix`, `m_dynamicmodel`, `textures`, `numTextures` and `m_listDynamicIds`. The model follows the `.cpp` bodies. The scenery and barrel draws are the recorded calls `DrawScenery` and `DrawInstance`, which are not composed with `Model.Draw`.
- `InitScene` takes the vertex lists of the loaded physics and barrel models as parameters. It does not compose `Model.LoadFromOBJFile` with the scene build.
- `CreateConvexMesh` and `CreateConcaveMesh` accept empty vertex lists, and so does the model.
- MainWindowModel.MainWindow.CreateConvexMesh: the hull is recorded as the vertex positions with the 12-byte stride the code passes. The memory layout of Bullet3's `b3Vector3`, whose header is not part of this model, is not modelled. If that type is padded to four floats, the engine would read the array with the wrong stride; the recorded points are what the code means to pass.
- `rand()` is a parameter: the sequence of 5000 values it returns. `numTextures` must be positive because the source takes `rand() % numTextures`.
- ModelMesh.Model.LoadFromOBJFile: Consistent() is promised only for a model loaded once from empty. A second load restarts the running index at 0 and appends to the old list, which the contract states but does not call consistent.
- C++ `int` and `uint32_t` overflow is not modelled, because the lists and counters of the program stay far below 2^31. GL buffer names are modelled as handed out consecutively from 1.
- The key table's initial contents are not promised: `m_bKeys` is not initialised in the source.
