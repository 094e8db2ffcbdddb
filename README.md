# Progressive ray tracer driver — Dafny model

This project models the CPU side of a Unity progressive ray tracer
(`RayTracingMaster`, a `MonoBehaviour`). Two parts of it carry real logic:

* **The scene generator** (`SetUpScene`). It makes one pass over `SpheresMax`
  candidate slots. Each candidate draws a radius and a ground position and
  rests on the ground plane. It is rejected, without retry, if it overlaps a
  sphere already accepted. An accepted sphere draws a colour and a material
  (metal, glass or diffuse, chosen by nested draws). The material is encoded
  only through its albedo/specular/refraction triple. The spheres are then
  uploaded into a compute buffer, which replaces the previous one.
* **The accumulation counter** (`_currentSample`). The blend shader receives
  it as the weight of the new sample, and it is incremented after each
  rendered frame. It is reset on enable, on a field-of-view change, when a
  watched transform reports a change (the flag is then consumed) and when the
  render target is reallocated for a new screen size. The dispatch grid is
  `ceil(width / 8) x ceil(height / 8)` thread groups.

Modules:

* `Numerics`, `Geometry` (`geometry.dfy`): `uint32`, real vectors.
* `Materials` (`materials.dfy`): the material decision and its triple.
* `SceneGen` (`scene.dfy`): the generator as specification functions
  (`Slot`, `Generate`, `Scene`), the lemmas about them, and the two loops of
  `SetUpScene` as methods (`IsClear`, `ChooseSurface`, `PlaceCandidate`,
  `BuildSpheres`) proved against them.
* `Accumulation` (`accumulation.dfy`): counter increment with `uint`
  wrap-around, `CeilToInt` and the thread-group count.
* `Engine` (`engine.dfy`): the Unity handles the component holds. These are
  `Transform` with its `hasChanged` flag, `ComputeBuffer` and
  `RenderTexture`, each with a size and a released flag.
* `RayTracing` (`master.dfy`): the class `RayTracingMaster` with its fields
  and the handlers `OnEnable`, `OnDisable`, `Update`, `SetUpScene`,
  `InitRenderTexture` and `Render`. `SetUpScene` appears twice: as
  written (`SetUpSceneAsWritten`, which `OnEnable` calls) and with the
  buffer defect listed under Findings corrected (`SetUpSceneCorrected`,
  called by `OnEnableCorrected`).

Unity's random source is a parameter: a sequence of draws. The k-th call
to `Random` is answered by the k-th draw. Depending on the call, that draw is
read as a uniform value, a point of the unit disk or an RGB colour.
`ValidDraw` states what Unity guarantees of each answer. A slot consumes at
most five draws, so the handlers that build the scene ask for at least
`MaxDrawsPerSlot * SpheresMax` of them (`DrawsNeeded`). `SceneIgnoresLaterDraws` shows
that draws beyond those never change the scene. The camera's field of view
and the screen size are also parameters of the handlers. Floats are modelled
as `real`.

## Model

| member | source | states |
|---|---|---|
| `SceneGen.Candidate` | Assets/RayTracingMaster.cs:77-82 | a candidate's height equals its radius; its radius and ground position come from the radius draw and the disk draw |
| `SceneGen.RadiusInRange` | Assets/RayTracingMaster.cs:80 | `RadiusOf`, the radius `x + u (y - x)` of line 80: a radius draw u in [0, 1] yields a radius between `SphereRadius.x` and `SphereRadius.y`, in whichever order they are set |
| `SceneGen.PlacementOf` | Assets/RayTracingMaster.cs:81 | a point of the unit disk scaled by `SpherePlacementRadius` lies within that radius of the origin |
| `SceneGen.SlotGiven` | Assets/RayTracingMaster.cs:77-112 | one slot, given the answer of the overlap test, consumes two to five draws; the only sphere it can add is its own dressed candidate, appended at the end |
| `SceneGen.SlotGivenAddsIff` | Assets/RayTracingMaster.cs:85-112 | given the overlap test's answer, a slot adds a sphere exactly when the answer is clear; a rejected candidate consumes only its two draws |
| `SceneGen.SlotAddsIffClear` | Assets/RayTracingMaster.cs:77-112 | `Slot` runs the overlap test of lines 85-90 (`Clear`: no accepted sphere `Overlaps` the candidate, i.e. has a squared centre distance strictly below the squared sum of radii) and adds a sphere exactly when the candidate is clear; a rejected candidate consumes its two draws and changes nothing else |
| `SceneGen.Generate` | Assets/RayTracingMaster.cs:75-112 | after n slots there are at most n spheres, and between 2n and 5n draws have been consumed |
| `SceneGen.IsClear` | Assets/RayTracingMaster.cs:85-90 | returns true exactly when the candidate overlaps no accepted sphere; overlap is a strict `<` on squared distances, so touching spheres are accepted; the scan stops at the first overlap |
| `SceneGen.ChooseSurface` | Assets/RayTracingMaster.cs:93-107 | the material is `Classify`'s: metal when the first draw is below 0.2 (line 94), otherwise glass when the second is below 0.5 (line 97), otherwise diffuse; the colour draw and the metal draw are always read, the glass draw only for a non-metal; the triple is that of the classified material, and two or three draws are consumed |
| `SceneGen.PlaceCandidate` | Assets/RayTracingMaster.cs:77-112 | one iteration of the outer loop computes exactly the specified slot: the spheres and the draws consumed afterwards |
| `SceneGen.BuildSpheres` | Assets/RayTracingMaster.cs:72-113 | the loop builds exactly `Scene`, the pass of `Generate` over `SpheresMax` slots, which is pairwise separated and holds at most `SpheresMax` spheres |
| `SceneGen.SlotKeepsSeparated` | Assets/RayTracingMaster.cs:85-109 | a slot appends its candidate only if it overlaps no earlier sphere, so a separated scene stays separated |
| `SceneGen.AppendClearKeepsSeparated` | Assets/RayTracingMaster.cs:85-109 | a sphere at the place and size of a candidate that is clear of a separated scene can be appended without breaking separation, in either order of the pair |
| `SceneGen.GenerateSeparated` | Assets/RayTracingMaster.cs:75-112 | every pair of accepted spheres A, B satisfies `|A.pos - B.pos|^2 >= (A.r + B.r)^2`, in both orders |
| `SceneGen.GenerateGrows` | Assets/RayTracingMaster.cs:75-112 | later slots only append, so accepted spheres keep slot order; over k more slots at most k spheres are added and 2k to 5k draws consumed |
| `SceneGen.GenerateFromSlots` | Assets/RayTracingMaster.cs:75-112 | the k-th sphere of the pass is the candidate of the slot that found exactly k spheres in place and accepted its candidate (leaving k + 1), dressed with that slot's colour and material draws (`PlacedAt`); so every sphere comes from one slot and they appear in slot order |
| `SceneGen.SceneEmptyIff` | Assets/RayTracingMaster.cs:75-90 | the first candidate is always accepted, so the scene is empty exactly when `SpheresMax` is 0 |
| `SceneGen.AcceptedWellPlaced` | Assets/RayTracingMaster.cs:80-107 | with valid radius, disk and colour draws, an accepted sphere rests on the ground inside the placement disk, has a radius in range, has all triples in [0, 1] and matches the metal, glass or diffuse formula |
| `SceneGen.SlotWellPlaced` | Assets/RayTracingMaster.cs:77-112 | whatever the overlap test answers, a slot with valid draws keeps every sphere well placed |
| `SceneGen.GenerateWellPlaced` | Assets/RayTracingMaster.cs:75-112 | with valid draws, every sphere of the scene rests on the ground inside the placement disk, has a radius in range, has all triples in [0, 1] and matches the metal, glass or diffuse formula |
| `SceneGen.SlotDependsOnConsumedDraws` | Assets/RayTracingMaster.cs:80-97 | a slot reads no draw beyond those it consumes: two draw sequences that agree on those give the same slot |
| `SceneGen.GenerateDependsOnConsumedDraws` | Assets/RayTracingMaster.cs:75-112 | two draw sequences that agree on the draws consumed give the same scene and consume the same number of draws, so a fixed draw sequence always yields the same scene |
| `SceneGen.SceneIgnoresLaterDraws` | Assets/RayTracingMaster.cs:75-112 | draws after the ones the slots need never change the scene |
| `Materials.SurfaceOf` | Assets/RayTracingMaster.cs:95-107 | for a colour in [0, 1] all three triples are in [0, 1]; refraction is either zero or the colour |
| `Materials.SurfaceRoundTrip` | Assets/RayTracingMaster.cs:95-107 | for any non-black colour the material can be read back from the triple alone |
| `Materials.BlackIsAmbiguous` | Assets/RayTracingMaster.cs:95-107 | without a tag the triple is lossy: black metal equals black glass, and metal of colour 0.04 equals black diffuse |
| `Accumulation.Increment` | Assets/RayTracingMaster.cs:169 | the `uint` counter goes up by one and wraps to 0 after 2^32 - 1 |
| `Accumulation.AfterFramesCounts` | Assets/RayTracingMaster.cs:167-169 | `AfterFrames` applies the increment of line 169 once per frame: after k undisturbed frames the counter is the start value plus k, modulo 2^32 |
| `Accumulation.SteadyWeights` | Assets/RayTracingMaster.cs:167-169 | after a reset, the sample weight passed on frame k (from 0) is k |
| `Accumulation.CeilToInt` | Assets/RayTracingMaster.cs:161-162 | the result is the least integer not below its argument |
| `Accumulation.ThreadGroupsCover` | Assets/RayTracingMaster.cs:161-162 | `ThreadGroups` is `CeilToInt(w / 8.0)` as on lines 161-162; the groups g on an axis of size w satisfy `8 (g - 1) < w <= 8 g`; for w >= 0, g = (w + 7) / 8 |
| `RayTracing.RayTracingMaster.constructor` | Assets/RayTracingMaster.cs:32-38 | the counter starts at 0 with no target and no buffer; the camera's and the light's transforms are watched |
| `RayTracing.RayTracingMaster.OnEnable` | Assets/RayTracingMaster.cs:40-44 | the counter is 0 and `SetUpScene` runs as written: the old buffer is released with its size and contents kept; a non-empty scene gets a fresh buffer holding exactly the scene; an empty scene leaves the field on the old, released buffer |
| `RayTracing.RayTracingMaster.OnEnableCorrected` | Assets/RayTracingMaster.cs:40-44 | corrected: the counter is 0, the old buffer is released, and a buffer is held iff the scene is non-empty, fresh and holding exactly the scene |
| `RayTracing.RayTracingMaster.OnDisable` | Assets/RayTracingMaster.cs:46-50 | a held scene buffer is released with its size and contents kept (the field keeps referring to it) |
| `RayTracing.RayTracingMaster.Update` | Assets/RayTracingMaster.cs:52-68 | afterwards every watched flag is false and the recorded field of view is the camera's; the counter is 0 if the field of view changed or any flag was set, and unchanged otherwise |
| `RayTracing.RepeatedUpdate` | Assets/RayTracingMaster.cs:52-68 | two frames with the same field of view and no transform moved in between: the second `Update` keeps the counter |
| `RayTracing.RayTracingMaster.SetUpSceneAsWritten` | Assets/RayTracingMaster.cs:70-122 | the old buffer is released with its size and contents kept; a non-empty scene gets a fresh buffer holding exactly the scene; an empty scene leaves the field on the old, released buffer |
| `RayTracing.RayTracingMaster.SetUpSceneCorrected` | Assets/RayTracingMaster.cs:115-121 | corrected: the old buffer is released with its size and contents kept; a buffer is held iff the scene is non-empty; it is fresh, unreleased, sized to the scene and holds exactly its separated spheres |
| `RayTracing.StaleBufferAfterEmptyScene` | Assets/RayTracingMaster.cs:40-50 | on a disable/enable cycle through `OnEnable` and `OnDisable` that ends with an empty scene, the buffer `SetShaderParameters` binds (`SceneBufferToBind`, lines 134-135: the field when it is non-null) is a released one |
| `RayTracing.NoBufferAfterEmptyScene` | Assets/RayTracingMaster.cs:115-135 | the same cycle through `OnEnableCorrected` binds no buffer |
| `RayTracing.RayTracingMaster.InitRenderTexture` | Assets/RayTracingMaster.cs:138-153 | the target matches the screen size; the counter is reset and the old target released exactly when the target was missing or of another size |
| `RayTracing.RayTracingMaster.Render` | Assets/RayTracingMaster.cs:155-170 | the dispatch grid covers the screen; the blend weight is the count after reconciling the target, and the counter is then incremented once |

## Left out

- Shader parameters (`SetShaderParameters`) are not modelled, except the scene buffer binding of lines 134-135, which is `SceneBufferToBind`. This leaves out the skybox, camera matrices, pixel jitter and light. They are engine and GPU calls. The jitter's two draws per frame (line 129) come from the same global random source, but `SetShaderParameters` never runs while `SetUpScene` does, so the two never interleave: the model's draw sequence is the part of the stream that one `SetUpScene` consumes.
- `Dispatch`, `Graphics.Blit`, `Shader.Find` and the lazily created blend `Material` are GPU calls. The running-average blend is in a shader that is not part of this model; the model stops at the weight passed to it.
- `ComputeBuffer` and `RenderTexture` are handles with a size and a released flag. GPU memory, the 52-byte stride, the texture format and `enableRandomWrite` are not modelled, and neither is allocation failure.
- `Random.value`, `insideUnitCircle` and `ColorHSV` are not modelled. They become draws of a caller-supplied sequence, so the HSV-to-RGB conversion and the distribution of the draws are not captured. Unity's source never runs out; the model asks for at least five draws per slot instead, and `SceneGen.SceneIgnoresLaterDraws` shows the extra draws are never read.
- The branch probabilities of `Materials.Classify` (0.2 / 0.4 / 0.4) are not stated. They are measures over the draws, and the model states which draw ranges select each branch instead.
- Single-precision rounding is not modelled. The radius, the positions, the overlap test and the material triples are computed exactly over the reals, and `0.2f` is taken as 0.2. `_Sample` is passed with `SetFloat` (line 167), which converts the `uint` counter to a `float` and so rounds it above 2^24; `Render`'s `sample: uint32` is the exact counter before that conversion.
- RayTracing.RayTracingMaster.OnEnable: requires `DrawsNeeded(SpheresMax)` draws, which Unity's unbounded random source always provides; the same holds for `OnEnableCorrected`, `SetUpSceneAsWritten`, `SetUpSceneCorrected` and `SceneGen.BuildSpheres`.
- SceneGen.BuildSpheres: the C# loop counter is an `int` compared with the `uint` `SpheresMax`. For `SpheresMax` above 2^31 - 1 it overflows and the loop never ends. The model's counter is unbounded.
- The engine's call order (`Awake`, `OnEnable`, `Update`, `OnRenderImage`) is left to the caller of the handlers.
- `OnRenderImage` only calls `SetShaderParameters` and `Render`, so it is covered by those two.
- `GetComponent<Camera>` is not modelled: the camera's field of view is a parameter of `Update`.

## Findings

| source | as written | input that shows it | evidently intended | confidence | as-written member | corrected member |
|---|---|---|---|---|---|---|
| Assets/RayTracingMaster.cs:115-121 | `_sphereBuffer` is released but not cleared (also in `OnDisable`, lines 48-49), and an empty scene allocates nothing, so the field keeps the released buffer; `SetShaderParameters` (lines 134-135) then binds it to the kernel | enable with `SpheresMax = 100`, disable, set `SpheresMax = 0`, enable again: the kernel is handed the released buffer (`RayTracing.StaleBufferAfterEmptyScene`; with the correction, `RayTracing.NoBufferAfterEmptyScene` binds none) | release and clear the field, so an empty scene binds no buffer | medium, not executed | `RayTracing.RayTracingMaster.SetUpSceneAsWritten` | `RayTracing.RayTracingMaster.SetUpSceneCorrected` |
