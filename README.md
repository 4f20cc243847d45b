# OM3D renderer core, modelled in Dafny

This project models the sequential logic of the OM3D OpenGL renderer. It covers six pieces:

- **Scene store** (`Scenes.Scene`): two append-only lists, scene objects and point lights.
  The scene packs the lights into a buffer of `max(n, 1)` entries and fills `view_proj`,
  `point_light_count` and `sun_color` of the per-frame uniform block; `sun_dir` is left out.
- **Scene render pass** (`Scenes.Scene.Render`): the scene groups the objects that pass
  `in_frustum` by material pointer, the way `std::unordered_map` plus `push_back` does.
  It then issues one model-uniform / material-bind / mesh-draw triple per grouped object.
  It does no instancing. GPU calls are recorded as a log of `Gpu.GpuEvent`s.
- **Scene object** (`SceneObjects.SceneObject`): a class with const mesh and material
  handles and a mutable transform. It has the incomplete-object guard of `render` and
  the five-plane `in_frustum` loop over `real`.
- **Material** (`Materials.Material`): a class with the program, the texture list and
  three fixed-function modes. Its setters change their own fields. `set_texture` matches
  by texture identity. `bind` applies a blend/depth table to a modelled OpenGL state and
  produces a log of ordered bind calls. The factory helpers build define lists.
- **Scene view** (`SceneViews.SceneView`): a nullable scene pointer and an owned camera.
- **Static mesh** (`StaticMeshes`): the bounding radius is the distance of the first
  farthest vertex, found by `std::max_element`.

Handles (`MaterialId`, `MeshId`, `ProgramId`, `TextureId`) are abstract identities.
Equal handles mean the same object, which replaces pointer equality.
`glm::length` is a parameter `length: Vec3 -> real`. The camera is a record of what the
core reads from it: position, view-projection matrix and the frustum it builds.

What `Scene::render` does, and so what the model does:

- Objects are grouped by material pointer only. There is no mesh-hash key and no
  instanced draw: every object is drawn with its own call.
- All lights go into the lights buffer. They are not culled against the frustum.
- `get_framedata_buffer` writes no shadow-cascade field.

## Model

| member | source | states |
|---|---|---|
| `Scenes.Scene.constructor` | TP/src/Scene.cpp:12-13 | a new scene has no objects and no lights |
| `Scenes.Scene.AddObject` | TP/src/Scene.cpp:15-17 | the object's value is appended at the end of the objects; the lights are unchanged |
| `Scenes.Scene.AddLight` | TP/src/Scene.cpp:19-21 | the light is appended at the end of the lights; the objects are unchanged |
| `Scenes.Scene.FrameDataFor` | TP/src/Scene.cpp:23-34 | `point_light_count` is the number of ALL lights (no culling), truncated to 32 bits; `sun_color` is (1,1,1); `view_proj` is the camera's |
| `Scenes.Scene.GetLightsBuffer` | TP/src/Scene.cpp:36-52 | the buffer has `max(n, 1)` entries, so it is never empty; entry `i` is (position, radius, colour, 0) of light `i`, in scene order |
| `Scenes.Scene.FrameDataMatchesLightsBuffer` | TP/src/Scene.cpp:29-49 | with fewer than 2^32 lights, the light count the shader reads equals the number of lights, fits in the buffer, and every entry below it holds the light of that index |
| `Scenes.Scene.GroupVisible` | TP/src/Scene.cpp:63-69 | the grouping step builds exactly the map of the fold `Groups`: visible objects pushed, in scene order, onto the group of their material |
| `Scenes.GroupByMaterial` | TP/src/Scene.cpp:63-69 | the loop over the objects, pushing each one that passes `in_frustum` onto its material's group, builds exactly the fold `GroupsOf` of the materials and verdicts |
| `Scenes.Scene.GroupsPartition` | TP/src/Scene.cpp:63-69 | an object is in the group of material `k` iff it passes `in_frustum` and its material is `k`; every visible object's material has a group; groups are non-empty and in scene order |
| `Scenes.Scene.GroupsDrawable` | TP/src/Scene.cpp:63-84 | every grouped object has a mesh and the group's material, and a non-empty group has a non-null material, so the draw loop's dereferences are safe |
| `Scenes.Scene.DrawGroup` | TP/src/Scene.cpp:77-83 | for each object of a group, in group order: set `model` to its transform on the group's material, bind that material, draw its mesh |
| `Scenes.Scene.DrawGroups` | TP/src/Scene.cpp:72-84 | every group is drawn exactly once, in some order of the map's keys that the model leaves open |
| `Scenes.Scene.Render` | TP/src/Scene.cpp:54-85 | the log binds the frame data at slot 0 and the lights buffer at slot 1, then draws the groups (the frame predicate `IsFrame`) |
| `Scenes.Scene.DrawnAreVisible` | TP/src/Scene.cpp:63-84 | the drawn sequence holds each object that passes `in_frustum` exactly once and no other object; it has three calls and one draw per visible object |
| `Scenes.Scene.FrameDrawsEachVisibleObjectOnce` | TP/src/Scene.cpp:72-84 | any frame starts with the two buffer binds, draws every visible object once with the calls of `SceneObject::render`, and has exactly as many draw calls as visible objects (one draw per object, no instancing) |
| `Scenes.Scene.FrameFacts` | TP/src/Scene.cpp:54-85 | for one lights buffer and one iteration order of the map, the frame is the two binds followed by a drawn list that holds each visible object once, with one draw per visible object |
| `Scenes.HeaderDrawsNothing` | TP/src/Scene.cpp:55-59 | the two buffer binds that open a frame are not draw calls |
| `Scenes.DrawListCount` | TP/src/Scene.cpp:77-83 | each drawn complete object costs three calls, exactly one of which is a draw |
| `Scenes.DrawListConcat` | TP/src/Scene.cpp:72-84 | drawing two lists of objects one after the other gives the two logs concatenated |
| `Scenes.DrawCallsConcat` | TP/src/Scene.cpp:72-84 | the number of draw calls in two logs run one after the other is the sum of their counts |
| `Grouping.GroupsOfFacts` | TP/src/Scene.cpp:63-69 | for the `map[key].push_back` fold: each kept element is in exactly the group of its key, no rejected element is in any group, and groups are non-empty and in original order |
| `Grouping.GroupMembers` | TP/src/Scene.cpp:66-68 | an element is in a group iff it is kept, already visited, and has that group's key |
| `Grouping.GroupOrdered` | TP/src/Scene.cpp:64-68 | a group is non-empty and its elements are strictly increasing, so relative scene order is kept |
| `Grouping.KeptHaveGroups` | TP/src/Scene.cpp:66-68 | `operator[]` creates the group of every kept element's key |
| `Grouping.GroupsOfStep` | TP/src/Scene.cpp:66-68 | one loop step: a kept element is appended to its key's group, created empty if missing; a rejected element changes nothing |
| `Grouping.VisitKey` | TP/src/Scene.cpp:72 | visiting one more unvisited key of the map keeps the visited keys free of repeats and shrinks the unvisited set |
| `Grouping.FlattenAppend` | TP/src/Scene.cpp:72-84 | visiting one more key appends that key's group to what was drawn |
| `Grouping.FlattenGroups` | TP/src/Scene.cpp:72-84 | iterating the whole map visits each kept element exactly once, with no repeats and nothing else, so the count equals the number of kept elements |
| `Grouping.FlattenPrefix` | TP/src/Scene.cpp:72-84 | concatenating the groups of distinct keys repeats nothing and holds exactly the kept elements whose key was visited |
| `SceneObjects.SceneObject.constructor` | TP/src/SceneObject.cpp:10-13 | the given mesh and material handles are stored unchanged |
| `SceneObjects.SceneObject.Render` | TP/src/SceneObject.cpp:15-23 | with a null material or mesh, nothing is issued; otherwise, in this order: `model` uniform set to the current transform, material bind, mesh draw |
| `SceneObjects.RenderEvents` | TP/src/SceneObject.cpp:16-18 | an object issues no call at all exactly when its material or mesh is null |
| `SceneObjects.SceneObject.SetTransform` | TP/src/SceneObject.cpp:25-31 | after `set_transform(m)`, `transform()` returns `m` |
| `SceneObjects.SceneObject.Transform` | TP/src/SceneObject.cpp:29-31 | `transform()` returns the object's current transform |
| `SceneObjects.InFrustumCheck` | TP/src/SceneObject.cpp:33-55 | the early-return loop over the plane normals returns true iff every tested plane passes |
| `SceneObjects.SceneObject.InFrustumOf` | TP/src/SceneObject.cpp:33-55 | `in_frustum` on an object is the plane test of its current value |
| `SceneObjects.TestedNormals` | TP/src/SceneObject.cpp:44 | exactly five normals are tested |
| `SceneObjects.ScaleFactor` | TP/src/SceneObject.cpp:37-40 | the scale is the largest of the three basis-column lengths, and equal to one of them |
| `SceneObjects.InFrustumFivePlanes` | TP/src/SceneObject.cpp:44-54 | `in_frustum` is the conjunction of the near, top, bottom, right and left plane tests |
| `SceneObjects.FarPlaneIgnored` | TP/src/SceneObject.cpp:44 | replacing the far normal never changes the result |
| `SceneObjects.PlaneTestExpanded` | TP/src/SceneObject.cpp:47-50 | the plane test `dot(v + n*r*s, n) >= 0` is `dot(v, n) + r*s*dot(n, n) >= 0` |
| `SceneObjects.UnitNormalPlaneTest` | TP/src/SceneObject.cpp:35-50 | for a unit normal, a plane passes iff `dot(v, n) >= -r*s`: the signed distance of the centre is at least minus the scaled radius |
| `SceneObjects.ZeroRadiusIsPointTest` | TP/src/SceneObject.cpp:47-50 | with radius 0 the plane test becomes the point test `dot(v, n) >= 0` |
| `SceneObjects.PlaneTestMonotonic` | TP/src/SceneObject.cpp:47-50 | with a non-negative scale, a larger radius passes every plane a smaller one passes |
| `Materials.Material.constructor` | TP/src/Material.h:50-55 | a new material has blend mode None, depth test Standard, depth writing on, no textures and no program |
| `Materials.Material.SetProgram` | TP/src/Material.cpp:12-14 | replaces the program and no other field |
| `Materials.Material.SetBlendMode` | TP/src/Material.cpp:16-18 | replaces the blend mode and no other field |
| `Materials.Material.SetDepthTestMode` | TP/src/Material.cpp:20-22 | replaces the depth test mode and no other field |
| `Materials.Material.SetDepthWriting` | TP/src/Material.cpp:24-26 | replaces the depth-writing flag and no other field |
| `Materials.Material.FindTexture` | TP/src/Material.cpp:29 | `find_if`: finds the first entry holding the texture, and finds something iff the texture is in the list |
| `Materials.Material.SetTexture` | TP/src/Material.cpp:28-34 | a texture already present leaves the list as it was, slot argument ignored; a new one is appended as `(slot, tex)`; no texture ever appears twice; other fields unchanged |
| `Materials.WithTextureKeepsDistinct` | TP/src/Material.cpp:28-34 | `set_texture` keeps every texture distinct (entries may share a slot), and the texture is present afterwards |
| `Materials.WithTextureIdempotent` | TP/src/Material.cpp:29-30 | setting the same texture again, with any slot, changes nothing |
| `Materials.BlendState` | TP/src/Material.cpp:37-59 | None: blending off, back-face culling on, CCW front faces. Alpha: blending on with (SRC_ALPHA, ONE_MINUS_SRC_ALPHA), culling off. Additive: blending on with (SRC_ALPHA, ONE), culling off. Nothing else changes |
| `Materials.DepthState` | TP/src/Material.cpp:61-82 | None: depth test off. Equal: EQUAL. Standard: GEQUAL. Reversed: LEQUAL. Nothing else changes |
| `Materials.ReverseZDepthModes` | TP/src/Material.cpp:71-81 | under reverse-Z, Standard passes a fragment iff its depth is at least the stored one (the nearer fragment wins), and Reversed is its mirror image |
| `Materials.TextureCalls` | TP/src/Material.cpp:86-88 | one texture bind per entry, in list order, each to its stored slot |
| `Materials.LastBindingWins` | TP/src/Material.cpp:86-88 | when entries share a slot, the unit ends up holding the last such entry's texture |
| `Materials.UnnamedSlotUnchanged` | TP/src/Material.cpp:86-88 | a texture unit that no entry names keeps its binding |
| `Materials.Material.Bind` | TP/src/Material.cpp:36-90 | `bind`: blending on iff the mode is not None; culling on iff it is None; depth test on iff the mode is not None; the depth mask equals the depth-writing flag; textures are bound in list order and the program last |
| `Materials.Material.FromPipeline` | TP/src/Material.cpp:92-96 | a default material whose program the loader built from the pipeline's two files and the defines |
| `Materials.Material.TexturedMaterial` | TP/src/Material.cpp:98-102 | as `FromPipeline`, with the defines `["TEXTURED"] ++ defines` |
| `Materials.Material.TexturedNormalMappedMaterial` | TP/src/Material.cpp:104-108 | as `FromPipeline`, with the defines `["TEXTURED", "NORMAL_MAPPED"] ++ defines` |
| `Materials.TexturedDefines` | TP/src/Material.cpp:99-100 | "TEXTURED" comes first, followed by the caller's defines unchanged |
| `Materials.NormalMappedDefines` | TP/src/Material.cpp:105-106 | "TEXTURED" and "NORMAL_MAPPED" come first, followed by the caller's defines unchanged |
| `Materials.NormalMappedExtendsTextured` | TP/src/Material.cpp:98-108 | the normal-mapped list is the textured list of the defines with NORMAL_MAPPED put in front |
| `SceneViews.SceneView.constructor` | TP/src/SceneView.cpp:5-6 | stores the given scene pointer, possibly null, and null when none is given (the default argument) |
| `SceneViews.SceneView.ViewCamera` | TP/src/SceneView.cpp:8-14 | `camera()` returns the view's own camera |
| `SceneViews.SceneView.CurrentScene` | TP/src/SceneView.cpp:16-18 | `scene()` returns the current scene pointer, possibly null |
| `SceneViews.SceneView.SetScene` | TP/src/SceneView.cpp:20-24 | a non-null scene becomes what `scene()` returns; null leaves the current scene; the camera is never reset |
| `SceneViews.SceneView.Render` | TP/src/SceneView.cpp:26-31 | without a scene, the result is empty; otherwise it is a frame of the scene rendered with the view's own camera |
| `SceneViews.SceneView.RenderSunShadowmap` | TP/src/SceneView.cpp:33-38 | without a scene, the result is empty; otherwise it is the scene's shadow-map pass with the view's camera |
| `StaticMeshes.MaxElement` | TP/src/StaticMesh.cpp:16-19 | `max_element` with a strict `<` comparator: the index holds the maximum, and it is the first index that does |
| `StaticMeshes.NewStaticMesh` | TP/src/StaticMesh.cpp:10-22 | needs at least one vertex; the radius is at least every vertex's distance from the origin and equals the distance of some vertex; both buffers hold the given data |

`BlendMode` has three cases and `DepthTestMode` has four; `bind` matches on both
exhaustively, so both tables are total.

## Left out

- `TP/src/main.cpp`: window, input, UI and GL framebuffer handling, plus the scene-reload fallback inside UI callbacks.
- The hashes in `TP/src/Vertex.h` and `StaticMesh::hash`. They use `hash_combine` and `std::hash<float>`, which are not part of this model, and `StaticMesh.cpp` never computes the mesh hash.
- All OpenGL side effects. In `bind`, they are a returned `GlState` plus an ordered call log. Buffer mapping and binding in `Scene.cpp` become `GpuEvent`s. `StaticMesh::draw` (attribute setup and `glDrawElements`) is the single `DrawMesh` event.
- `draw_instanced` is declared but not defined, and nothing instanced is modelled.
- Floating point: `float` is `real`, with no rounding. `glm::length` is a parameter, so `sqrt` is not modelled.
- `Scenes.Scene.FrameDataFor`: does not model `sun_dir = normalize(_sun_direction)`, and so not the scene's `_sun_direction` field either. `view_proj` is taken as given from the camera.
- `Camera::build_frustum` and `view_proj_matrix` are not part of this model. Their results are fields of the `Camera` record.
- `shared_ptr` ownership and lifetimes. Handles are identities. A mesh handle carries the mesh it points to, so its radius is available.
- `Scene::from_gltf` (asset loading). `Program::from_files` is the `load` parameter of the material factories.
- `Material::set_uniform` forwards to the program, which is not part of this model. It appears only as the `SetModelUniform` event.
- `Scene.cpp` does not define `Scene::render_sun_shadowmap`. `SceneViews.SceneView.RenderSunShadowmap` takes that pass as a parameter.
- `RenderInfo` is not modelled; it stands for the frame's call log, and `{}` is the empty log.
- Null texture handles in `set_texture` are not modelled. Textures are non-null identities.
- `Scenes.Scene.Render`: the source does not null-check in `Scene::render`. Every object needs a mesh, because `in_frustum` dereferences it. Every visible object needs a material, because the draw loop dereferences it. Both are preconditions (`CanRender`); the crash is not modelled.
- `Materials.Material.Bind`: `_program` is dereferenced, so a program is a precondition.
- `SceneObjects.SceneObject.constructor`: does not state the initial transform. `SceneObject.cpp:10-13` does not initialise `_transform`; the model sets `Identity` and its contract states nothing about the initial transform.
- `PointLight.h` is not part of this model. Lights are values with position, colour and radius, and their setters are left out.
- `Camera`'s default value is not modelled. The view's default-constructed camera is a constructor parameter.
- Mismatches between revisions are not modelled; the model follows the `.cpp` bodies. `Scene.h` declares `get_lights_buffer(const Camera&)` and a `void render`, and it does not declare `render_sun_shadowmap`.
