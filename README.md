# Debug shapes, the universal Phong effect and the forward rendering system

This project is a Dafny model of three parts of a small C++ OpenGL framework.

- **Debug shapes** (`debug_shapes.dfy`, module `DebugShapes`) are the
  procedural mesh generators.
  - The quad, plane, box, cylinder, sphere and cone generators are methods
    that build their vertex or index lists with loops, as the source does.
  - The box, cylinder, sphere and cone methods are proved to build the mesh
    that a specification function gives: `BoxVertices`, `CylinderMesh`,
    `SphereMesh` and `ConeMesh`. Lemmas about those functions give the
    vertex and index counts, where each vertex sits, and that every index
    names a vertex.
  - The quad and plane methods state each vertex directly in their
    postconditions.
  - The flat cube array (`CreateCube`, 180 floats and no index list) and the
    box outline (`CreateBoxOutline`) are built from literals in the source.
    They are functions over those literal tables, with lemmas about the
    tables.
- **The universal Phong effect** (`phong_effect.dfy`, module `PhongEffect`)
  is a class with the effect's cached fields and the GL calls it has made so
  far. Each method is proved against `Step`, the effect's state after one
  call, and `Uploads`, the GL events that call makes. The following are
  proved about `Step` and `Uploads`:
  - setters only store;
  - `begin` uploads in a fixed order;
  - `end` only clears the active flag;
  - `setLight` uploads exactly when the program is active;
  - `setMaterial` is `setEmissionColor` followed by `setSolidColor`;
  - running any call sequence twice leaves the state it left once.
- **The forward rendering system** (`forward_rendering.dfy`, module
  `ForwardRendering`) is a class that owns one effect and the marker box.
  - The effect calls and draws of a frame are given by the function
    `FrameEvents`.
  - `Update` is proved to append exactly `FrameEvents` to the system's event
    log. It is also proved to leave the effect in the state, and with the GL
    trace, that running those calls through `Step` gives.
  - The last camera and the last light win: `CameraMatrices` and
    `ShadingLight` are defined as the last entity visited, and the loops of
    `ResolveCamera` and `ResolveLight` are proved to compute them.
  - Lemmas about `FrameEvents` state:
    - each chunk and each light marker is drawn inside its own begin/end
      bracket, in the source's call order;
    - each chunk gets its entity's material and the entity's own model
      matrix;
    - the number of draws;
    - the effect is inactive when a frame ends;
    - a frame with a light leaves the diffuse-map colour black for the next
      frame.

Shared value types (vectors, matrices, Transform, Light, Material, and the
behaviour of `glm::inverse` and the default constructors) are in
`common.dfy` (module `Common`).

The C++ code's own error paths are kept as inputs: a cylinder with a
non-integral subdivision count, a sphere or cone with zero or negative
counts, a scene without camera or light, and a model without chunks.

## Model

| member | source | states |
|---|---|---|
| `DebugShapes.CreateQuad2D` | source/DebugShapes.cpp:12-37 | four white vertices: vertex i has texture coordinate (i%2, i/2) and position (∓w/2, ±h/2) as the source's sign rule gives; indices 0,1,2,1,2,3, all in range; drawn as triangles |
| `DebugShapes.CreatePlane` | source/DebugShapes.cpp:39-65 | four vertices on y = 0 with normal +y; x and z signs from i%2 and i/2; texture coordinate (i%2, i/2); the same six in-range indices |
| `DebugShapes.CreateCube` | source/DebugShapes.cpp:67-115 | 180 floats = 36 rows of five; components 0, 1 and 2 of every row are ± half the width, height and length; the two texture components are 0 or 1 |
| `DebugShapes.InterleaveAt` | source/DebugShapes.cpp:73-114 | float k of the flattened array is component k%5 of row k/5 |
| `DebugShapes.CubeRowsShape` | source/DebugShapes.cpp:73-114 | the row table has 36 rows, each made of corner signs ±1 and texture values 0/1 |
| `DebugShapes.RowFloatShape` | source/DebugShapes.cpp:73-114 | each of a row's five floats lies in the set the row's shape allows |
| `DebugShapes.BoxRowsFaces` | source/DebugShapes.cpp:133-176 | 36 box rows, six per face; every row of face f carries that face's axis as normal, and the row's corner lies on that face (corner · normal = 1) |
| `DebugShapes.BoxFaceNormals` | source/DebugShapes.cpp:128-176 | vertex k of the box has the normal of face k/6, scaled by -1 when `flipNormals` is set, and its corner lies on that face |
| `DebugShapes.BoxFlipNegatesNormals` | source/DebugShapes.cpp:128-176 | flipping normals keeps every position and texture coordinate and negates every normal component |
| `DebugShapes.CreateBox` | source/DebugShapes.cpp:117-188 | 36 vertices as the box table gives them; the index list is 0..35 in order, all in range; triangles |
| `DebugShapes.OutlineSegmentsAreEdges` | source/DebugShapes.cpp:199-224 | 8 corners and 24 indices, all below 8; each of the 12 segments joins two corners that differ on exactly one axis (a box edge) |
| `DebugShapes.OutlineSegmentsDistinct` | source/DebugShapes.cpp:211-224 | no two segments join the same pair of corners |
| `DebugShapes.OutlineCoversEdges` | source/DebugShapes.cpp:199-224 | every box edge between the 8 corners is one of the 12 segments |
| `DebugShapes.CreateBoxOutline` | source/DebugShapes.cpp:190-227 | 8 vertices, each of the given colour and at its corner of the half-size box; the outline index list, in range; drawn as lines |
| `DebugShapes.TripCounts` | source/DebugShapes.cpp:236-302 | the `<=` loops over a float bound run `RingCount` times, and the `<` loops run `StepCount` times |
| `DebugShapes.NonIntegralCylinderOutOfRange` | source/DebugShapes.cpp:229-311 | for any positive non-integral subdivision count, the cylinder the source builds has an index that names no vertex |
| `DebugShapes.NonIntegralWallReachesCap` | source/DebugShapes.cpp:260-285 | for a positive non-integral count, the last wall triangle names the bottom cap's centre and its first rim vertex |
| `DebugShapes.IntegralSubdivisions` | source/DebugShapes.cpp:236-261 | for an integral count n, the vertex loops run n+1 times and the face loops run n times |
| `DebugShapes.NonIntegralSubdivisions` | source/DebugShapes.cpp:236-261 | for a positive non-integral count, both loops run the same number of times, at least once |
| `DebugShapes.CylinderWallIndicesBound` | source/DebugShapes.cpp:260-272 | every wall index is below 2S+2 |
| `DebugShapes.CapFanBound` | source/DebugShapes.cpp:302-307 | every cap index lies between the cap's centre and centre+S+1 |
| `DebugShapes.CylinderMeshShape` | source/DebugShapes.cpp:229-311 | 4R+2 vertices and 12S indices; every index is in range if and only if S < R or S = 0 |
| `DebugShapes.CylinderLastIndexOutOfRange` | source/DebugShapes.cpp:261-307 | when both loops run R > 0 times, the last index equals the vertex count |
| `DebugShapes.CreateCylinder` | source/DebugShapes.cpp:229-311 | the mesh is the cylinder of `RingCount` vertex columns and `StepCount` face steps for the float subdivision count |
| `DebugShapes.CylinderWallFaces` | source/DebugShapes.cpp:260-272 | the wall index loop yields the wall quads of `StepCount` steps |
| `DebugShapes.AppendCylinderColumn` | source/DebugShapes.cpp:244-257 | one column adds its bottom vertex then its top vertex |
| `DebugShapes.AppendCylinderCaps` | source/DebugShapes.cpp:274-308 | bottom cap then top cap: centre, rim and fan each; each fan's centre is the vertex count before its cap |
| `DebugShapes.AppendCylinderCap` | source/DebugShapes.cpp:276-307 | one cap appends its centre and rim, and a fan around the centre index |
| `DebugShapes.CreateCylinderWithSteps` | source/DebugShapes.cpp:229-311 | with an integral count n: 4(n+1)+2 vertices, 12n indices, every index in range |
| `DebugShapes.GridVertexCount` | source/DebugShapes.cpp:322-352 | a grid of R rows and C columns has R·C vertices |
| `DebugShapes.GridRowAt` | source/DebugShapes.cpp:326-351 | column c of row r is that grid point |
| `DebugShapes.GridVertexAt` | source/DebugShapes.cpp:322-352 | vertex r·C+c of the grid is grid point (r, c) |
| `DebugShapes.AppendGridRow` | source/DebugShapes.cpp:326-351 | the inner loop appends one row of the grid |
| `DebugShapes.SphereIndexCount` | source/DebugShapes.cpp:355-375 | L latitude rings give 6·L·(lon-1) indices |
| `DebugShapes.SphereIndicesBelow` | source/DebugShapes.cpp:355-375 | every sphere index is below lat·lon, the vertex count |
| `DebugShapes.SphereIndexRingBelow` | source/DebugShapes.cpp:359-374 | the wrap-around neighbour ring stays below lat·lon |
| `DebugShapes.AppendSphereRing` | source/DebugShapes.cpp:359-374 | the inner loop appends the two triangles of every quad of one latitude ring |
| `DebugShapes.CreateSphere` | source/DebugShapes.cpp:313-378 | lat·lon vertices in latitude-major order, 6·lat·(lon-1) indices, all in range (counts clamp at zero) |
| `DebugShapes.ConeColumnBelow` | source/DebugShapes.cpp:452-462 | the indices of one wall column stay below the next column's end |
| `DebugShapes.ConeWallIndicesBelow` | source/DebugShapes.cpp:450-463 | 6·A·(cuts-1) wall indices, all below cuts·A+cuts |
| `DebugShapes.ConeMeshShape` | source/DebugShapes.cpp:380-473 | (n+1)·cuts wall vertices, the cap centre and n+1 rim vertices; 6·n·(cuts-1)+3·n indices, all in range; the fan's centre index, the vertex count after the wall, names the cap-centre vertex |
| `DebugShapes.ConeWallVertexAt` | source/DebugShapes.cpp:390-426 | vertex a·cuts+y is the wall sample (angle step a, cut y) |
| `DebugShapes.AppendConeColumn` | source/DebugShapes.cpp:452-462 | the inner loop appends one wall column's triangles |
| `DebugShapes.CreateCone` | source/DebugShapes.cpp:380-473 | the cone mesh, with the vertex and index counts above and every index in range |
| `PhongEffect.SettersOnlyStore` | source/UniversalPhongEffect.cpp:78-116 | every call other than begin, end and setLight uploads nothing and keeps the active flag |
| `PhongEffect.FieldsChangeOnlyByTheirSetters` | source/UniversalPhongEffect.cpp:59-116 | each cached field changes only through its own setter (or setMaterial); the active flag only through begin and end |
| `PhongEffect.EndOnlyDeactivates` | source/UniversalPhongEffect.cpp:59-62 | end clears the active flag, changes nothing else and uploads nothing |
| `PhongEffect.SetLightUploadsIffActive` | source/UniversalPhongEffect.cpp:64-76 | setLight stores both values and uploads if and only if the program is active, then exactly the colour and position |
| `PhongEffect.SetMaterialIsEmissionThenSolid` | source/UniversalPhongEffect.cpp:78-82 | setMaterial has the same state and uploads as setEmissionColor(emission) then setSolidColor(albedo) |
| `PhongEffect.SolidColorOverloads` | source/UniversalPhongEffect.cpp:108-116 | the vec3 overload is the vec4 overload with alpha 1; the vec4 overload stores its argument |
| `PhongEffect.BeginUploadOrder` | source/UniversalPhongEffect.cpp:33-57 | begin activates; uploads start with the program's use and end with emission, solid, diffuse, light colour, light position; a sampler is bound if and only if its texture is set |
| `PhongEffect.RunConcat` | source/UniversalPhongEffect.cpp:33-116 | running a + b is running b after a |
| `PhongEffect.TraceConcat` | source/UniversalPhongEffect.cpp:33-116 | the uploads of a + b are those of a, then those of b from the state a leaves |
| `PhongEffect.DiffuseColorPersists` | source/UniversalPhongEffect.cpp:84-87 | without setDiffuseTextureColor the diffuse-map colour never changes |
| `PhongEffect.DiffuseUploadIsStored` | source/UniversalPhongEffect.cpp:33-87 | only begin uploads the diffuse colour, and it uploads the stored one |
| `PhongEffect.DiffuseUploadsCarryStoredColor` | source/UniversalPhongEffect.cpp:33-87 | without setDiffuseTextureColor every diffuse upload of a run carries the starting colour |
| `PhongEffect.StepAssigns` | source/UniversalPhongEffect.cpp:59-116 | each call's effect on the state is the field assignment it lists |
| `PhongEffect.RunAssigns` | source/UniversalPhongEffect.cpp:59-116 | a call sequence's effect is the composition of its assignments |
| `PhongEffect.RunIdempotent` | source/UniversalPhongEffect.cpp:59-116 | repeating a call sequence leaves the state it left once |
| `PhongEffect.UniversalPhongEffect.constructor` | source/UniversalPhongEffect.cpp:8-23 | diffuse colour (0,0,0,0), solid colour (1,0,0,1), no textures, inactive, nothing uploaded |
| `PhongEffect.UniversalPhongEffect.Destroy` | source/UniversalPhongEffect.cpp:29-31 | changes nothing |
| `PhongEffect.UniversalPhongEffect.Begin` | source/UniversalPhongEffect.cpp:33-57 | state and uploads as `Step`/`Uploads` give for begin |
| `PhongEffect.UniversalPhongEffect.End` | source/UniversalPhongEffect.cpp:59-62 | state as `Step` gives for end; no upload |
| `PhongEffect.UniversalPhongEffect.SetLight` | source/UniversalPhongEffect.cpp:64-76 | state and uploads as `Step`/`Uploads` give for setLight |
| `PhongEffect.UniversalPhongEffect.SetMaterial` | source/UniversalPhongEffect.cpp:78-82 | state as `Step` gives for setMaterial; no upload |
| `PhongEffect.UniversalPhongEffect.SetDiffuseTextureColor` | source/UniversalPhongEffect.cpp:84-87 | stores the multiplier; no upload |
| `PhongEffect.UniversalPhongEffect.SetDiffuseTexture` | source/UniversalPhongEffect.cpp:89-94 | stores the texture; no upload |
| `PhongEffect.UniversalPhongEffect.SetNormalMap` | source/UniversalPhongEffect.cpp:96-101 | stores the normal map; no upload |
| `PhongEffect.UniversalPhongEffect.SetEmissionColor` | source/UniversalPhongEffect.cpp:103-106 | stores the emission colour; no upload |
| `PhongEffect.UniversalPhongEffect.SetSolidColor3` | source/UniversalPhongEffect.cpp:108-111 | stores the colour with alpha 1; no upload |
| `PhongEffect.UniversalPhongEffect.SetSolidColor4` | source/UniversalPhongEffect.cpp:113-116 | stores the colour; no upload |
| `PhongEffect.UniversalPhongEffect.SetProjectionMatrix` | source/engine/rendering/ForwardRenderingSystem.cpp:81 | recorded only: no cached field changes, no upload |
| `PhongEffect.UniversalPhongEffect.SetViewMatrix` | source/engine/rendering/ForwardRenderingSystem.cpp:82 | recorded only: no cached field changes, no upload |
| `PhongEffect.UniversalPhongEffect.SetModelMatrix` | source/engine/rendering/ForwardRenderingSystem.cpp:83-85 | recorded only: no cached field changes, no upload |
| `PhongEffect.UniversalPhongEffect.UpdateLightUniforms` | source/UniversalPhongEffect.cpp:118-129 | uploads the light colour then the light position; state unchanged |
| `ForwardRendering.ResolveCamera` | source/engine/rendering/ForwardRenderingSystem.cpp:33-46 | the view is the inverse of the last camera's transform and the projection is the last camera's; both are default matrices when there is no camera |
| `ForwardRendering.ResolveLight` | source/engine/rendering/ForwardRenderingSystem.cpp:48-61 | the last light and its transform; the default-constructed ones when there is no light |
| `ForwardRendering.ClosingFacts` | source/engine/rendering/ForwardRenderingSystem.cpp:80-89 | begin, three matrix setters, one draw and end: one draw, bracketing balanced |
| `ForwardRendering.BracketFacts` | source/engine/rendering/ForwardRenderingSystem.cpp:73-89 | a setup followed by the closing bracket: its length, its calls in order, one draw inside begin/end |
| `ForwardRendering.ChunkBracketFacts` | source/engine/rendering/ForwardRenderingSystem.cpp:73-89 | a chunk is drawn with setLight(shading light), setMaterial(entity material), begin, projection, view, the entity's matrix, draw, end |
| `ForwardRendering.MarkerBracketFacts` | source/engine/rendering/ForwardRenderingSystem.cpp:96-104 | a marker is drawn with solid black, emission = light colour, diffuse black, begin, projection, view, the light's matrix, draw, end |
| `ForwardRendering.ChunkDrawsFacts` | source/engine/rendering/ForwardRenderingSystem.cpp:71-90 | one bracket of 8 events and one draw per chunk, balanced |
| `ForwardRendering.ChunkDrawsAt` | source/engine/rendering/ForwardRenderingSystem.cpp:71-90 | events 8j..8j+8 are chunk j's bracket |
| `ForwardRendering.ChunkDrawsCalls` | source/engine/rendering/ForwardRenderingSystem.cpp:70-90 | a model's draws never set the diffuse colour; every setLight is the shading light and every setMaterial is the entity's material |
| `ForwardRendering.GeometryPassFacts` | source/engine/rendering/ForwardRenderingSystem.cpp:67-91 | 8 events and one draw per chunk of every model, balanced |
| `ForwardRendering.GeometryPassAt` | source/engine/rendering/ForwardRenderingSystem.cpp:67-91 | chunk j of model k is drawn at position 8·(chunks before model k + j), with its own bracket |
| `ForwardRendering.GeometryPassCalls` | source/engine/rendering/ForwardRenderingSystem.cpp:67-91 | the geometry pass never sets the diffuse colour, and every setLight passes the shading light |
| `ForwardRendering.MarkerPassFacts` | source/engine/rendering/ForwardRenderingSystem.cpp:93-105 | 9 events and one draw per light, balanced; no setLight and no setMaterial |
| `ForwardRendering.MarkerPassAt` | source/engine/rendering/ForwardRenderingSystem.cpp:93-105 | events 9i..9i+9 are light i's marker bracket |
| `ForwardRendering.FrameShape` | source/engine/rendering/ForwardRenderingSystem.cpp:27-106 | a frame has 8·chunks + 9·lights events and chunks + lights draws, every draw inside begin/end; it is empty if and only if there are no chunks and no lights |
| `ForwardRendering.BracketingTracksEffect` | source/UniversalPhongEffect.cpp:33-62 | when the events bracket correctly, the effect's active flag afterwards is the bracketing's final value |
| `ForwardRendering.FrameLeavesDiffuseBlack` | source/engine/rendering/ForwardRenderingSystem.cpp:93-105 | after a frame with at least one light, the effect's diffuse colour is (0,0,0,0) |
| `ForwardRendering.MarkerLeavesDiffuseBlack` | source/engine/rendering/ForwardRenderingSystem.cpp:96-104 | after a marker bracket the diffuse colour is (0,0,0,0) |
| `ForwardRendering.MarkerColourReachesNextFrame` | source/engine/rendering/ForwardRenderingSystem.cpp:67-105 | after a frame with a light, every diffuse-colour upload of the next frame's geometry pass is (0,0,0,0) |
| `ForwardRendering.ClosingRun` | source/engine/rendering/ForwardRenderingSystem.cpp:80-89 | from an inactive effect the closing bracket returns the same state and uploads what begin uploads |
| `ForwardRendering.SettersKeepActive` | source/UniversalPhongEffect.cpp:64-116 | calls other than begin and end keep the active flag |
| `ForwardRendering.ForwardRenderingSystem.constructor` | source/engine/rendering/ForwardRenderingSystem.cpp:17-21 | a fresh effect with its constructor's colours, no textures and inactive; the marker is the box of size 0.01 with unflipped normals, as `createBox` builds it: its vertices, indices 0..35 and triangles; no framebuffer; an empty log |
| `ForwardRendering.ForwardRenderingSystem.SetFramebuffer` | engine/include/engine/rendering/ForwardRenderingSystem.hpp:19-22 | stores the framebuffer; nothing else changes |
| `ForwardRendering.ForwardRenderingSystem.Issue` | source/engine/rendering/ForwardRenderingSystem.cpp:73-102 | one call on the effect: logged, and the effect steps as `Step`/`Uploads` give |
| `ForwardRendering.ForwardRenderingSystem.Render` | source/engine/rendering/ForwardRenderingSystem.cpp:87 | logs one draw; no effect call |
| `ForwardRendering.ForwardRenderingSystem.Open` | source/engine/rendering/ForwardRenderingSystem.cpp:80-82 | begin, projection, view: logged, and the effect has begun |
| `ForwardRendering.ForwardRenderingSystem.Finish` | source/engine/rendering/ForwardRenderingSystem.cpp:83-89 | model matrix, draw, end: logged, and the effect has ended |
| `ForwardRendering.ForwardRenderingSystem.Close` | source/engine/rendering/ForwardRenderingSystem.cpp:80-89 | the closing bracket from an inactive effect: the state is unchanged and begin's uploads are added |
| `ForwardRendering.ForwardRenderingSystem.PrepareChunk` | source/engine/rendering/ForwardRenderingSystem.cpp:73-78 | setLight then setMaterial: logged and run on the effect |
| `ForwardRendering.ForwardRenderingSystem.DrawChunk` | source/engine/rendering/ForwardRenderingSystem.cpp:73-89 | appends the chunk's bracket and keeps the log and the effect consistent |
| `ForwardRendering.ForwardRenderingSystem.PrepareMarker` | source/engine/rendering/ForwardRenderingSystem.cpp:96-98 | solid black, light colour as emission, diffuse black: logged and run on the effect |
| `ForwardRendering.ForwardRenderingSystem.DrawMarker` | source/engine/rendering/ForwardRenderingSystem.cpp:96-104 | appends the light's marker bracket and keeps the log and the effect consistent |
| `ForwardRendering.ForwardRenderingSystem.DrawModel` | source/engine/rendering/ForwardRenderingSystem.cpp:70-90 | appends the brackets of all of the entity's chunks in order |
| `ForwardRendering.ForwardRenderingSystem.DrawGeometry` | source/engine/rendering/ForwardRenderingSystem.cpp:67-91 | appends the geometry pass |
| `ForwardRendering.ForwardRenderingSystem.DrawMarkers` | source/engine/rendering/ForwardRenderingSystem.cpp:93-105 | appends the marker pass |
| `ForwardRendering.ForwardRenderingSystem.Update` | source/engine/rendering/ForwardRenderingSystem.cpp:27-106 | appends exactly `FrameEvents`; the effect ends in the state, and with the uploads, that running the frame's calls gives, and inactive |

## Left out

- Floating-point arithmetic is not modelled. Vector components are `real`. The
  generators' `sinf`, `cosf` and `normalize` results are not computed: such a
  vertex is recorded by the loop counters it is computed from.
- DebugShapes.CreateCylinder: the vertex attributes computed with
  trigonometry are recorded as their loop counters, not as positions, normals
  and texture coordinates. The same holds for `DebugShapes.CreateSphere` and
  `DebugShapes.CreateCone`.
- DebugShapes.CreateSphere: with one longitude subdivision the source divides
  by zero (a NaN angle). Only the vertex values are affected, and those are
  not computed.
- DebugShapes.CreateCone: with one circle cut the source computes 0/0 in the
  height progress. As above, only vertex values are affected.
- Counts and indices are unbounded integers. The source stores indices as
  `GLuint` and loop counters as `int`, so overflow on huge subdivision counts
  is not modelled.
- Meshes built without an explicit primitive are taken to draw triangles. The
  `Mesh` class is not part of this model.
- An entity with a StaticModel but no Material component dereferences an
  empty handle, which is undefined behaviour. The model gives every model
  entity a material.
- A Material is taken to hold a vec3 albedo and a vec3 emission. Its accessors
  are declared in a header that is not part of this model.
- The shader program is not modelled: loading it (`createShaders`) and
  looking up uniform locations. A location is named by its uniform, and
  `use()` is the `UseProgram` event.
- PhongEffect.UniversalPhongEffect.SetProjectionMatrix: recorded only. Its
  definition is in a header that is not part of this model.
- PhongEffect.UniversalPhongEffect.SetViewMatrix: recorded only, for the same
  reason.
- PhongEffect.UniversalPhongEffect.SetModelMatrix: recorded only, for the same
  reason.
- PhongEffect.UniversalPhongEffect.constructor: the initial light, light
  transform and emission colour come from default constructors that are not
  part of this model, so they are left unspecified. The constructor does not
  set the active flag, and the flag's declaration is in a header that is not
  part of this model; the model starts it as false.
- `createBox` is called with one argument, so the default of `flipNormals` is
  assumed to be false. The header that declares it is not part of this model.
- The entity store (`entityx`) is given as three sequences in its visiting
  order. The order the real store chooses is not modelled.
- A Transform is modelled as its world matrix and its position side by side.
  The model does not connect `getPosition()` to `getTransform()`, because
  the Transform component is not part of this model.
- `glm::inverse` and the default `glm::mat4`, `fw::Transform` and `fw::Light`
  values are parameters (`Common.Externals`).
- A mesh's `render()` is recorded as a `Draw` event. Its GL calls are not
  modelled.
- The `EventManager` and `TimeDelta` parameters of `update` are unused by the
  source, so they are left out. The framebuffer is stored but never used by
  `update`.
- The destructors are empty and are not modelled. Shared-pointer ownership
  and aliasing are not modelled: the system owns its effect object.

## Findings

| source | as written | input that shows it | evidently intended | confidence | as-written member | corrected member |
|---|---|---|---|---|---|---|
| source/DebugShapes.cpp:236-307 | `createCylinder` takes `circleSubdivisions` as a float. The vertex loops run while `angleStep <= circleSubdivisions` and the face loops while `angleStep < circleSubdivisions`. | `circleSubdivisions = 2.5`: both kinds of loop run 3 times, so the last index of the top cap equals the vertex count, one past the last vertex, and the last wall triangle names the bottom cap's centre and first rim vertex instead of wall vertices | an integral subdivision count, so the vertex loops run once more than the face loops and every index names a vertex | not executed | `DebugShapes.NonIntegralCylinderOutOfRange` | `DebugShapes.CreateCylinderWithSteps` |
