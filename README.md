# OmniVEngine core, modelled in Dafny

OmniVEngine is a small Vulkan renderer written in C++. Most of its code creates and
destroys GPU objects. This project models the sequential logic underneath that code
and proves what it does:

- **Scene loading** (`EngineApp::loadScene`). The loader checks that the document has
  exactly one scene, one render-settings node and one camera. It then reads the
  ambient light and the camera. Finally it adds the "obj" meshes and the lights to the
  object map. Each object gets an id from the static counter of `createGameObject`.
  Each object is checked against `MAX_GAME_OBJECTS`. The billboard render system is
  switched on when a light asks for a billboard.
- **The XML readers** the loader uses:
  - the camera loaders `Camera::loadCameraFromNode` and the older
    `OmniVCamera::makeCameraFromNode`;
  - the transform reader `TransformComponent::initializeFromNode`;
  - the light factories and `loadLightFromNode`;
  - the string helpers of `common.cpp`: `tokenize`, `toLower`, `toBool`, `toInt`,
    `toUInt`, `toFloat` and `toVector2f/3f/4f`.
- **The per-frame light upload** (`EngineApp::updateLights`). The upload copies every
  directional and point component into the next slot of the fixed ten-slot light
  array of the uniform buffer. Point lights are first turned about the vertical axis.
- **The order of one frame** (`EngineApp::run`). A frame runs the shadow-map pass of
  each of the four cascades, then the main pass with the simple system and then the
  point-light billboards.
- **The billboard pass** (`PointLightRenderSystem::render` and its older copy
  `OmniVPointLightRenderSystem::render`). It sorts billboards by squared distance in a
  `std::map`, so equal keys collide. It then draws them from far to near.
- **Cascade bookkeeping** (`shadowmapCascadesMatrices`). It covers the split intervals
  taken from a fixed table, the corner radius rounded up to 1/16, and the symmetric
  orthographic box.
- **The frame state machine of the renderer** (`beginFrame`, `endFrame`,
  `recreateSwapChain`, and the asserts around the main render pass).
- **The present chain** (`SwapChain`). This covers the format, present-mode, extent and
  image-count choices. It also covers the bookkeeping of frame slots and image owners
  in `acquireNextImage` and `submitCommandBuffers`.

How the model is built:

- A thrown `std::runtime_error` is `Err(Exception(message))` or `Fail(Exception(message))`,
  with the source's own message text.
- A debug `assert` that depends on scene data (`MAX_GAME_OBJECTS`, `MAX_LIGHTS`) is an
  `AssertionFailure` outcome.
- A debug `assert` on the caller's state (a frame in progress, the right command
  buffer) is a precondition.
- Driver answers are parameters: acquire and present results, whether a submit or a
  command-buffer begin or end is accepted, and how many images a chain gets.
- The iteration order of the `unordered_map` of objects is a parameter.

Modules, one per file:

| file | module | models |
|---|---|---|
| wrappers.dfy | Wrappers | `Option`, `Result`, the failure kinds |
| xml.dfy | Xml | the pugixml queries the loaders use (`child`, `attribute`, `find_child_by_attribute`, counting children) |
| common.dfy | Common | src/common.cpp |
| game_object.dfy | Objects | src/GameObject.hpp, src/OmniVGameObject.hpp, src/OmniVGameObject.cpp |
| camera.dfy | Cameras | src/Camera.cpp, src/OmniVCamera.cpp |
| swap_chain.dfy | SwapChains | src/SwapChain.cpp |
| renderer.dfy | Renderers | src/OmniVRenderer.cpp |
| cascades.dfy | Cascades | src/OmniVUtils.cpp |
| point_light_render.dfy | Billboards | src/RenderSystems/PointLightRenderSystem.cpp and its older copy |
| lights.dfy | LightUploads | `updateLights` and the `GlobalUbo` record |
| frame.dfy | Frames | the pass order of `EngineApp::run` |
| engine_app.dfy | EngineApps | src/EngineApp.cpp (the application object, scene loading, one frame) |
| scene_facts.dfy | SceneFacts | what a successful `loadScene` guarantees |

Two source files the application compiles are not part of this model:

- `GameObject.cpp` is not part of this model. `GameObject.hpp` declares the members
  it defines. Their behaviour is taken from `OmniVGameObject.cpp`, which is assumed to
  be the same design: the factories and the transform reader are modelled from it.
- `Renderer.cpp` is not part of this model. `Renderer.hpp` declares the members it
  defines. The application's renderer is modelled from `OmniVRenderer.cpp`, which is
  assumed to be the same design.

## Model

| member | source | states |
|---|---|---|
| Common.Tokenize | src/common.cpp:5-27 | the loop returns exactly the reference split `Tokens`: the `find_first_of` segments, with inner empty segments dropped unless `includeEmpty`; the result is never empty |
| Common.SegmentsRebuild | src/common.cpp:7-24 | with `includeEmpty`, there is one token more than there are delimiter characters in the input, and interleaving the tokens with those delimiters gives back the input |
| Common.TokensAvoidDelimiters | src/common.cpp:7-22 | no token contains a character of `delim` |
| Common.TokensWithoutEmpty | src/common.cpp:12-24 | without `includeEmpty`, only empty segments followed by a delimiter are dropped; the last segment is kept even when empty |
| Common.DropInnerEmptyKeepsLast | src/common.cpp:12-24 | dropping inner empty segments keeps the non-empty ones in order, followed by the last segment |
| Common.FinishKeepEmpty | src/common.cpp:7-24 | from any position, the loop with `includeEmpty` appends the remaining segments |
| Common.FinishDropEmpty | src/common.cpp:7-24 | from any position, the loop without `includeEmpty` appends the remaining segments with inner empty ones dropped |
| Common.ToLower | src/common.cpp:29-36 | the result has the input's length and each character is the input's character mapped through C-locale `tolower` |
| Common.ToBool | src/common.cpp:38-53 | succeeds exactly when the lower-cased text is "true" or "false", gives true exactly for "true", and otherwise throws "Could not parse boolean value" with the input quoted |
| Common.ToBoolExamples | src/common.cpp:38-53 | "TRUE" is true, "False" is false, and "yes" and "" are rejected |
| Common.WrapInt32 | src/common.cpp:55-65 | the `(int)` cast of the `long` from `strtol` lands in the 32-bit range, is congruent to the value mod 2^32, and keeps values already in range |
| Common.ToInt | src/common.cpp:55-65 | succeeds exactly when `strtol` consumes the whole text, and the value is a 32-bit int |
| Common.ToUInt | src/common.cpp:67-77 | succeeds exactly when `strtoul` consumes the whole text, and the value is below 2^32 |
| Common.ToIntRoundTrip | src/common.cpp:55-65 | every 32-bit int written in decimal reads back as itself |
| Common.ToIntWraps | src/common.cpp:55-65 | a decimal between 2^31 and 2^32 reads back wrapped to a negative int |
| Common.ToUIntRoundTrip | src/common.cpp:67-77 | every value below 2^32 written in decimal reads back as itself |
| Common.ToUIntNegative | src/common.cpp:67-77 | a negative decimal reads back as its 2^32 complement, as `strtoul` negates |
| Common.ToIntRejectsTrailing | src/common.cpp:55-77 | a number followed by a non-digit character throws in both readers |
| Common.ToIntEdgeCases | src/common.cpp:55-77 | the empty string reads as 0 because nothing is left over, while " " and "-" throw |
| Common.ToFloat | src/common.cpp:79-90 | succeeds exactly when the decimal scan consumes the whole text |
| Common.ToVector2f | src/common.cpp:92-100 | succeeds exactly when there are two tokens and both read as floats, and then each coordinate is its token read as a float; any other token count fails with "Expected 2 values" |
| Common.ToVector3f | src/common.cpp:102-110 | succeeds exactly when there are three tokens and each reads as a float, and then the coordinates are those floats in order; any other token count fails with "Expected 3 values" |
| Common.ToVector4f | src/common.cpp:112-120 | succeeds exactly when there are four tokens and each reads as a float, and then the coordinates are those floats in order; any other token count fails with "Expected 4 values" |
| Common.EmptyTextIsNoVector | src/common.cpp:92-120 | a missing attribute (empty text) is rejected by all three vector readers |
| Objects.NewObject | src/GameObject.hpp:17-19 | a new object carries its id, the identity transform, black colour and no model or light component |
| Objects.IdAllocator.constructor | src/GameObject.hpp:46-49 | the static counter starts at 0 with no id issued |
| Objects.IdAllocator.CreateGameObject | src/GameObject.hpp:46-49 | returns a new object with the current counter as id, increments the counter, and the id was never issued before |
| Objects.FirstTwoIds | src/OmniVGameObject.hpp:41-44 | the first two calls give ids 0 and 1 |
| Objects.InitializeFromNode | src/OmniVGameObject.cpp:65-93 | the loop over the children gives the reference fold `ApplyChildren` |
| Objects.ApplyChild | src/OmniVGameObject.cpp:67-91 | one child is accepted exactly when it is not a scale, rotation or position, or has a `value` and its read attribute is three floats; an accepted field child overwrites just that field with the vector, and any other child changes nothing |
| Objects.ApplyChildren | src/OmniVGameObject.cpp:65-93 | the transform reader succeeds exactly when every child is accepted, whatever the starting transform |
| Objects.LastChildWins | src/OmniVGameObject.cpp:66-92 | after a successful read, each field holds the value of the last child with its name, or is unchanged when there is none |
| Objects.MalformedChildFails | src/OmniVGameObject.cpp:68-91 | a scale, rotation or position child without `value` makes the whole read throw |
| Objects.MalformedMessages | src/OmniVGameObject.cpp:68-91 | each of those three fields throws its own "Transform ... malformed" message |
| Objects.RotationReadsEulerAngles | src/OmniVGameObject.cpp:76-83 | a rotation child is checked for `value` but read from `eulerAngles`, so a missing `eulerAngles` fails as an empty vector |
| Objects.MakeSimpleDirectionalLight | src/OmniVGameObject.cpp:95-104 | uses one id; the object has the given colour and a directional component with the given intensity and direction, and no point component |
| Objects.MakeSimplePointLight | src/OmniVGameObject.cpp:106-116 | uses one id; the object has the given colour, `scale.x` equal to the radius with `scale.y` and `scale.z` left at 1, and a point component with the intensity and billboard flag |
| Objects.ReadLightParameters | src/OmniVGameObject.cpp:120-148 | succeeds exactly when there is a radiance child whose value is three floats and the intensity and radius children, where present, read as floats; then the radiance is that vector, intensity is the "intensity" value or 5, and radius is the "radius" value or 0.1; a missing radiance throws "Radiance undefinned" |
| Objects.LoadedLight | src/OmniVGameObject.cpp:118-157 | a loaded light has the allocated id and no model, and it loads only when its type and radiance allow an object to be created |
| Objects.LightLoadsExactly | src/OmniVGameObject.cpp:118-157 | a directional light loads exactly when its parameters read and its direction is three floats, and it then points along that direction with the read intensity; a point light loads exactly when its parameters read and every child of its transform is accepted |
| Objects.LoadLightFromNode | src/OmniVGameObject.cpp:118-157 | returns `LoadedLight` and uses an id exactly when an object is created |
| Objects.UnknownLightType | src/OmniVGameObject.cpp:156 | a type other than directional or point throws "Light type not defined" without using an id |
| Objects.LightNeedsRadiance | src/OmniVGameObject.cpp:123-141 | a directional or point light without radiance throws "Radiance undefinned" without using an id |
| Objects.DirectionalLightShape | src/OmniVGameObject.cpp:118-133 | a directional light has the radiance as colour, the default transform, the read intensity (5 if absent) and no point component |
| Objects.PointLightRadius | src/OmniVGameObject.cpp:138-153 | a point light has the radiance as colour and the read intensity; its `scale` is (radius, 1, 1) unless the transform has a scale child, whose last occurrence then wins |
| Cameras.DefaultCamera | src/Camera.hpp:43-57 | a default camera is perspective with a 50-degree fov, near 0.1, far 100, unit ortho planes, no target and up (0, -1, 0) |
| Cameras.NamedValue | src/Camera.cpp:144-155 | with a child named after the value, the result is that child's `value` read as a float, error included; without one, the current value is kept |
| Cameras.ReadProjection | src/Camera.cpp:141-157 | "perspective" succeeds exactly when the "fov" child, if any, reads as a float, and sets the fov from it or to 50; "orthographic" succeeds exactly when each present left/right/bottom/top child reads as a float, and overwrites only those planes; any other type changes nothing; no other field changes |
| Cameras.ReadTransform | src/Camera.cpp:159-170 | more than one lookat throws; `useTarget` holds exactly when there is one lookat; with one lookat the stage succeeds and keeps the viewer; with none it succeeds exactly when every child of the `transform` node is accepted, and the viewer's transform is then the transform reader applied to those children; only the viewer's transform and `useTarget` can change |
| Cameras.ReadLookAt | src/Camera.cpp:172-195 | the lookat loads exactly when target and origin are present and well formed and an `up` attribute, if present, is well formed (`up` is optional); it then stores target, origin as the viewer position and the given or kept `up`; a lookat missing target or origin throws "LookAt not fully defined or malformed" |
| Cameras.LookAtStage | src/Camera.cpp:172-195 | the lookat stage keeps the projection, `useTarget` and the clip planes, and does nothing without a lookat |
| Cameras.ReadClipAsWritten | src/Camera.cpp:198-205 | as written: the clip stage changes only `far`, and does nothing without a clip child |
| Cameras.NearClipLandsInFar | src/Camera.cpp:198-205 | as written, a "near" child leaves `near` at its old value and puts its value in `far` |
| Cameras.ReadClip | src/Camera.cpp:198-205 | corrected: the clip stage changes only `near` and `far`, and does nothing without a clip child |
| Cameras.ClipPlanesRead | src/Camera.cpp:198-205 | with a clip child, the read succeeds exactly when both named values read, `far` holds the "far" value and `near` the "near" value, and a missing "far" keeps `far` |
| Cameras.LoadLookAt | src/Camera.cpp:172-195 | the counting loop over target, origin and up gives `ReadLookAt` |
| Cameras.LoadClip | src/Camera.cpp:198-205 | the method gives the corrected `ReadClip` |
| Cameras.LoadTransform | src/Camera.cpp:159-196 | the method gives `ReadTransform` |
| Cameras.LoadCameraFromNode | src/Camera.cpp:139-208 | uses one id for the viewer object and gives `LoadedCamera`, whose clip stage is the corrected `ReadClip`, not lines 203-204 as written |
| Cameras.MakeCameraFromNode | src/OmniVCamera.cpp:131-206 | uses one id for the viewer object and gives `MadeCamera`, whose clip stage is the corrected `ReadClip`, not lines 193-204 as written |
| Cameras.PerspectiveFov | src/Camera.cpp:141-146 | a loaded perspective camera has its fov from the "fov" child (50 if absent) and the default ortho planes |
| Cameras.OrthographicPlanes | src/Camera.cpp:148-157 | a loaded orthographic camera has each plane from its child, or 1 if absent, and the default fov |
| Cameras.OtherTypeKeepsDefaults | src/Camera.cpp:141-157 | any other type loads a perspective camera with the default fov and planes |
| Cameras.TooManyLookAts | src/Camera.cpp:169-170 | both loaders throw "More than 1 lookAt defined for the camera" for two or more lookats |
| Cameras.LookAtDecidesTarget | src/Camera.cpp:162-170 | a loaded camera uses its target exactly when it had one lookat |
| Cameras.LookAtNeedsTargetAndOrigin | src/Camera.cpp:172-195 | a loaded camera with a lookat took its target and viewer position from the lookat's attributes |
| Cameras.EmptyLookAtFails | src/Camera.cpp:191-194 | a lookat without target, origin or up throws "LookAt not fully defined or malformed" |
| Cameras.OlderLoaderRejectsLookAt | src/OmniVCamera.cpp:161-166 | the older loader throws "Unfinished behavioiur" for any camera with exactly one lookat |
| Cameras.LoadedClipPlanes | src/Camera.cpp:198-205 | with the corrected clip stage, a loaded camera's near and far come from the named values when there is a clip child, else 0.1 and 100 |
| Cameras.OlderClipPlanes | src/OmniVCamera.cpp:193-204 | the same for the older loader, whose cameras never use a target |
| Cameras.MatrixSetters | src/Camera.cpp:12-24 | the target view is used exactly when `useTarget`, and the projection follows the projection type |
| Cameras.OlderMatrixSetters | src/OmniVCamera.cpp:12-16 | the older camera always uses the YXZ view, and the projection follows the projection type |
| Cameras.LookAtCameraUsesTargetView | src/Camera.cpp:12-14 | a camera loaded with a lookat is drawn with the target view |
| SwapChains.ChooseSwapSurfaceFormat | src/SwapChain.cpp:377-399 | returns the first B8G8R8A8_SRGB / SRGB_NONLINEAR entry when there is one, else the first entry |
| SwapChains.ChooseSwapPresentMode | src/SwapChain.cpp:401-419 | mailbox exactly when it is offered, else FIFO |
| SwapChains.ClampDimension | src/SwapChain.cpp:428-433 | `max(min, min(max, wanted))` is at least the minimum, at most the maximum when they are ordered, and equals `wanted` when it lies between them |
| SwapChains.ChooseSwapExtent | src/SwapChain.cpp:421-436 | the current extent unless its width is UINT32_MAX, else the window extent clamped per dimension |
| SwapChains.ChosenExtentAtLeastMinimum | src/SwapChain.cpp:421-436 | a chosen extent is never below the surface's minimum |
| SwapChains.RequestedImageCount | src/SwapChain.cpp:134-138 | one more than the minimum, in 32-bit arithmetic, lowered to the maximum when there is one (0 means none) |
| SwapChains.RequestedImageCountWithinLimits | src/SwapChain.cpp:134-138 | for a sane surface the request is at least the minimum, and exceeds it exactly when the maximum allows |
| SwapChains.SwapChain.constructor | src/SwapChain.cpp:127-187 | a new chain has the chosen format, present mode and extent, the driver's images, one view, depth buffer and framebuffer per image, signalled fences, slot 0, and no image owned |
| SwapChains.SwapChain.AcquireNextImage | src/SwapChain.cpp:61-78 | waits on the current slot's fence, signals the current slot's semaphore and leaves the slot unchanged |
| SwapChains.SwapChain.SameFormats | src/SwapChain.hpp:40-42 | two chains agree exactly when both their image and their depth formats are equal |
| SwapChains.SameFormatsIsEquivalence | src/SwapChain.hpp:40-42 | the comparison is reflexive, symmetric and transitive, so a recreated chain is compared the same way whichever side asks |
| SwapChains.SwapChain.SubmitCommandBuffers | src/SwapChain.cpp:80-125 | waits on the image's previous owner, records the current slot as its owner, throws "failed to submit draw command buffer!" before the slot moves on a refused submit, and otherwise advances the slot mod 2 |
| Renderers.Renderer.constructor | src/OmniVRenderer.cpp:10-14 | a new renderer has a fresh chain, one command buffer per slot, no frame in progress and frame index 0 |
| Renderers.Renderer.CurrentCommandBuffer | src/OmniVRenderer.hpp:26-29 | during a frame, the current command buffer is one of the renderer's |
| Renderers.Renderer.FrameIndex | src/OmniVRenderer.hpp:31-34 | during a frame, the frame index is below `MAX_FRAMES_IN_FLIGHT` |
| Renderers.Renderer.RecreateSwapChain | src/OmniVRenderer.cpp:18-37 | makes a fresh chain at slot 0 from the device's support, and throws "Swap chain image(or depth) format has changed!" exactly when its image or depth format differs from the old chain's |
| Renderers.Renderer.BeginFrame | src/OmniVRenderer.cpp:63-86 | requires no frame in progress; OUT_OF_DATE recreates the chain and returns no buffer with the frame not started; another failure throws "failed to acquire swap chain image!"; success or SUBOPTIMAL starts the frame and returns the current command buffer unless recording cannot begin |
| Renderers.Renderer.EndFrame | src/OmniVRenderer.cpp:88-107 | requires a frame in progress; the outcome is `EndOutcome` of the driver's answers, the resize flag and whether the recreated chain kept its formats: a refused recording or submit throws with the frame still started; OUT_OF_DATE, SUBOPTIMAL or a resize clears the flag and recreates the chain, passing unless the formats changed; another present failure throws; a successful present without a resize passes, ending the frame and advancing the index mod 2; without recreation the chain object, its images and the resize flag are unchanged; on every failure, including a failed recreation, the frame stays started on the same frame index |
| Renderers.Renderer.AfterPresent | src/OmniVRenderer.cpp:95-106 | after an accepted submit the outcome is `EndOutcome` for that present result; a recreation clears the resize flag and installs a fresh chain, otherwise the chain and flag are kept; a pass ends the frame and advances the index mod 2, a failure leaves both as they were |
| Renderers.EndPassesExactly | src/OmniVRenderer.cpp:88-107 | a frame ends normally exactly when its recording and submit were accepted and the present either succeeded or led to a recreation that kept the formats; every failure is a thrown exception |
| Renderers.Renderer.BeginSwapChainRenderPass | src/OmniVRenderer.cpp:109-140 | requires a frame in progress and its command buffer; the pass uses the current image's framebuffer and the chain's extent |
| Renderers.Renderer.EndSwapChainRenderPass | src/OmniVRenderer.cpp:142-148 | requires a frame in progress and its command buffer, and ends the pass on that buffer |
| Cascades.SplitsContiguous | src/OmniVUtils.cpp:39-46 | cascade 0 starts at the near clip and each cascade starts where the previous one ends |
| Cascades.SplitDepthsIncrease | src/OmniVUtils.cpp:44-102 | split depths strictly increase and every interval is non-empty |
| Cascades.RoundRadiusBounds | src/OmniVUtils.cpp:85 | the rounded radius is at least the radius, less than 1/16 above it, and 16 times it is an integer |
| Cascades.RoundRadiusIdempotent | src/OmniVUtils.cpp:85 | rounding a rounded radius changes nothing |
| Cascades.BoxFor | src/OmniVUtils.cpp:87-97 | the box is symmetric about the origin, and near is minus far |
| Cascades.MaxOf | src/OmniVUtils.cpp:80-84 | the radius is non-negative, at least every corner distance, and is one of them unless it is 0 |
| Cascades.FrustumRadius | src/OmniVUtils.cpp:80-84 | the max loop gives `MaxOf` |
| Cascades.ShadowmapCascadesMatrices | src/OmniVUtils.cpp:8-106 | for each of the four cascades, its interval and split depth come from the table and its matrix is the ortho box of its rounded radius composed with the light view |
| Cascades.CascadeBoxEnclosesCorners | src/OmniVUtils.cpp:80-97 | the half-width of every cascade box is at least each of its corners' given distances from the frustum center; the box is symmetric and has near equal to minus far |
| Billboards.Insert | src/RenderSystems/PointLightRenderSystem.cpp:77 | `sorted[key] = id` keeps the map sorted, adds the entry and drops any earlier entry with the same key |
| Billboards.SortedLights | src/RenderSystems/PointLightRenderSystem.cpp:68-78 | the map built by the insertion loop is sorted by key |
| Billboards.SortedLightsSound | src/RenderSystems/PointLightRenderSystem.cpp:70-78 | every entry is a billboard object under its squared distance, visited after every other billboard with the same distance |
| Billboards.SortedLightsComplete | src/RenderSystems/PointLightRenderSystem.cpp:70-78 | every billboard object that is the last one visited with its distance has an entry |
| Billboards.EveryBillboardDistanceIsKey | src/RenderSystems/PointLightRenderSystem.cpp:72-77 | every billboard's squared distance is a key of the map |
| Billboards.EntriesHaveBillboards | src/RenderSystems/PointLightRenderSystem.cpp:72 | every entry names an object with a point light that draws a billboard |
| Billboards.PushFor | src/RenderSystems/PointLightRenderSystem.cpp:97-100 | the push constants hold the position with w = 1, the colour with w = the intensity, and `scale.x` as radius |
| Billboards.DrawsFrom | src/RenderSystems/PointLightRenderSystem.cpp:93-111 | two commands per entry |
| Billboards.DrawsFromAt | src/RenderSystems/PointLightRenderSystem.cpp:93-111 | the k-th draw pushes the k-th entry from the end of the map and then draws 6 vertices |
| Billboards.Render | src/RenderSystems/PointLightRenderSystem.cpp:66-113 | binds the pipeline and descriptor set once, then draws the map's entries in reverse key order |
| Billboards.FarToNear | src/RenderSystems/OmniVPointLightRenderSystem.cpp:95 | draws go in strictly decreasing squared distance |
| LightUploads.GlobalUbo.constructor | src/FrameInfo.hpp:23-33 | a new uniform buffer has ambient light (1, 1, 1, 0.02) and ten default light slots |
| LightUploads.RotateRoundTrip | src/EngineApp.cpp:241 | turning by the inverse rotation undoes the per-frame turn |
| LightUploads.RotateKeepsOrbit | src/EngineApp.cpp:241-264 | the turn keeps the height and the distance from the vertical axis |
| LightUploads.Moved | src/EngineApp.cpp:260-264 | the upload turns only the position of a point-light object and keeps everything else |
| LightUploads.WritesOf | src/EngineApp.cpp:250-273 | an object produces one slot write per light component |
| LightUploads.UploadChecked | src/EngineApp.cpp:244-275 | the corrected upload keeps ten slots and the object keys |
| LightUploads.UploadAsWritten | src/EngineApp.cpp:244-275 | the upload as written keeps ten slots and the object keys |
| LightUploads.VisitCheckedMeaning | src/EngineApp.cpp:246-273 | one corrected visit passes exactly when the object's components fit, then fills the next slots and turns the object |
| LightUploads.UploadCheckedMeaning | src/EngineApp.cpp:243-275 | the corrected upload passes exactly when all writes fit; it then turns the scene, counts the writes and fills the slots from the old count, and otherwise fails on the light assertion |
| LightUploads.AsWrittenPasses | src/EngineApp.cpp:244-273 | the upload as written passes exactly when the lights fit and a slot is still free when the last object is reached |
| LightUploads.AsWrittenAgrees | src/EngineApp.cpp:244-273 | when the upload as written passes, it equals the corrected one; when the lights fit, it can only fail on the light assertion |
| LightUploads.FullSceneRejected | src/EngineApp.cpp:244-248 | ten lights followed by an object without lights fail as written and pass corrected |
| LightUploads.TenLightsThenAMeshRejected | src/EngineApp.cpp:244-248 | the concrete scene of ten directional lights and one mesh visited last fails as written and passes corrected |
| LightUploads.SecondWritePastTheArray | src/EngineApp.cpp:248-273 | an object with both components reached with exactly one slot free passes the assertion as written and writes its point light at index 10, past the array; the corrected upload fails on the light assertion |
| LightUploads.NineLightsThenALampOverflow | src/EngineApp.cpp:248-273 | nine directional lights and then one object with both components: as written the point light is written at index 10; corrected, the light assertion fails |
| LightUploads.UploadKeepsIds | src/EngineApp.cpp:244-275 | every object stays under its key with its own id |
| LightUploads.FrameUpload | src/EngineApp.cpp:239-276 | into fresh slots: passes exactly when the scene has at most ten light components; slot k holds the k-th write, later slots stay default, and the count is the number of components |
| LightUploads.UploadLights | src/EngineApp.cpp:239-276 | writes the uniform buffer's slots in place and gives the outcome, turned scene and count of the corrected upload; the ambient light is unchanged |
| Frames.ShadowPasses | src/EngineApp.cpp:124-134 | each cascade pass has the same number of events |
| Frames.RecordShadowPasses | src/EngineApp.cpp:124-134 | the cascade loop records the passes of cascades 0 to 3 |
| Frames.BillboardCommands | src/EngineApp.cpp:140-141 | the billboard system records two binds and two commands per sorted light |
| Frames.ShadowPassesAt | src/EngineApp.cpp:124-134 | the pass of cascade k begins and ends at its own place, and renders in between when the shadow-map system exists |
| Frames.ShadowPassesOnly | src/EngineApp.cpp:124-134 | every shadow event belongs to a cascade below the count, and the shadow-map system renders only when it exists |
| Frames.FrameOrder | src/EngineApp.cpp:100-146 | the four cascade passes come in order, then the main pass begins, the simple system draws first, the billboards last, and the main pass ends the frame |
| Frames.MainPassOnce | src/EngineApp.cpp:100-146 | the main pass begins and ends exactly once, and everything before it is a shadow event |
| EngineApps.AmbientLightIsFourFloats | src/FrameInfo.hpp:47-54 | the render settings load exactly when the ambient light has four tokens that each read as a float, which give its components in order; another token count, or a missing node, throws "Expected 4 values" |
| EngineApps.LoadRenderSettings | src/FrameInfo.hpp:47-54 | the settings load exactly when the `value` of the `ambientlight` child reads as four floats; the ambient light is then that vector, and otherwise the reader's error is thrown unchanged |
| EngineApps.CountCheckExactlyOne | src/EngineApp.cpp:167-190 | the count checks pass exactly when there is one scene, one render-settings node and one camera; a missing scene is reported first |
| EngineApps.Emplace | src/EngineApp.cpp:217 | `emplace` adds the key, keeps every existing entry, and stores a new object under a new key |
| EngineApps.CheckObjectCount | src/EngineApp.cpp:220-234 | the assertion passes exactly when the map holds fewer than `MAX_GAME_OBJECTS` objects, and fails with its message otherwise |
| EngineApps.MeshObject | src/EngineApp.cpp:207-217 | an "obj" mesh makes an object with the allocated id, the filename as its model and no light; it succeeds exactly when every child of the mesh's `transform` node is accepted, and its transform is then the transform reader applied from the default transform to those children |
| EngineApps.DrawBillboard | src/EngineApp.cpp:226 | without a `billboard` child the light draws no billboard; with one, the flag reads exactly when the lower-cased `enabled` is "true" or "false", and it is true exactly when a `billboard` child says "true" |
| EngineApps.AddObjectKeepsConsistent | src/EngineApp.cpp:217-234 | adding an object under the next id keeps every object under its own id, with all ids below the counter |
| EngineApps.MeshStepKeepsConsistent | src/EngineApp.cpp:200-221 | one mesh step keeps the scene consistent |
| EngineApps.LightStepKeepsConsistent | src/EngineApp.cpp:224-235 | one light step keeps the scene consistent |
| EngineApps.CreateMeshObject | src/EngineApp.cpp:207-216 | uses one id and gives `MeshObject` |
| EngineApps.LoadMesh | src/EngineApp.cpp:200-221 | one mesh iteration keeps the id counter in step with the scene and gives `MeshStep` |
| EngineApps.LoadLight | src/EngineApp.cpp:224-235 | one light iteration keeps the id counter in step with the scene and gives `LightStep` |
| EngineApps.EngineApp.constructor | src/EngineApp.hpp:39-50 | a new application has no objects, a default camera whose viewer used one id, no render settings and the default enabled systems |
| EngineApps.EngineApp.LoadScene | src/EngineApp.cpp:153-236 | the outcome and new state are those of `LoadedScene`: count checks, then settings, camera (with the corrected clip stage `ReadClip`) and objects |
| EngineApps.EngineApp.LoadSettings | src/EngineApp.cpp:193 | stores the loaded render settings or throws |
| EngineApps.EngineApp.LoadCamera | src/EngineApp.cpp:196 | loads the camera of the scene node, with the corrected clip stage `ReadClip` rather than src/Camera.cpp:203-204 as written |
| EngineApps.EngineApp.TakeCamera | src/EngineApp.cpp:196 | stores the loaded camera (read with the corrected clip stage `ReadClip`), using one id |
| EngineApps.EngineApp.LoadObjects | src/EngineApp.cpp:199-235 | runs the mesh loop and then the light loop |
| EngineApps.EngineApp.LoadMeshes | src/EngineApp.cpp:200-221 | the mesh loop gives `Meshes` and leaves the camera, settings and enabled systems alone |
| EngineApps.EngineApp.LoadLights | src/EngineApp.cpp:224-235 | the light loop gives `Lights` and changes only the billboard flag among the enabled systems |
| EngineApps.EngineApp.UpdateLights | src/EngineApp.cpp:239-276 | fills the buffer's slots and the scene as the corrected upload does, sets `numLights` when it passes, and changes nothing else |
| EngineApps.EngineApp.RecordFrame | src/EngineApp.cpp:103-144 | the lights are uploaded with the corrected light check (`UploadChecked`), not the assertion at src/EngineApp.cpp:248 as written; when that check fails nothing is recorded; otherwise the buffer holds the settings' ambient light with the uploaded slots and count, and the four cascade passes and the main pass are recorded in order |
| EngineApps.EngineApp.RecordMainPass | src/EngineApp.cpp:137-144 | the main pass records the simple system and then the billboards of the sorted point lights, each when enabled |
| EngineApps.EngineApp.FinishFrame | src/EngineApp.cpp:103-146 | records the frame with the corrected light check (`UploadChecked`), not src/EngineApp.cpp:248 as written, and ends it; a failed light check leaves the frame started; a recorded frame's outcome is `EndOutcome`: a refused recording, a refused submit and a failed present each throw their message, and a successful present without a resize passes; a completed frame advances the frame index |
| EngineApps.EngineApp.RunFrame | src/EngineApp.cpp:99-146 | a failed acquire throws and records nothing; OUT_OF_DATE skips the frame and passes unless the recreated chain changed its formats, which throws the format error; a begun frame is recorded with the corrected light check (`UploadChecked`), not src/EngineApp.cpp:248 as written, and ended with the outcome `EndOutcome` |
| SceneFacts.MeshStepPasses | src/EngineApp.cpp:200-221 | a mesh step that passes had a type, and an "obj" mesh adds one object under a new id within the object limit |
| SceneFacts.MeshesFacts | src/EngineApp.cpp:200-221 | the mesh loop keeps the scene consistent and the billboard flag; when it passes every mesh had a type, and each "obj" mesh used one id and added one object |
| SceneFacts.LightStepPasses | src/EngineApp.cpp:224-235 | a light step that passes creates one object under a new id within the limit, and turns billboards on when the light asks |
| SceneFacts.LightsKeepConsistent | src/EngineApp.cpp:224-235 | the light loop keeps the scene consistent and never turns billboards off |
| SceneFacts.LightsCount | src/EngineApp.cpp:224-235 | when the light loop passes, every light node created an object, one id each |
| SceneFacts.LightsBillboards | src/EngineApp.cpp:226-232 | after the light loop, billboards are on exactly when they were before or some light asks for one |
| SceneFacts.ObjectsStageFacts | src/EngineApp.cpp:199-235 | the objects stage adds the "obj" meshes and the lights under their own ids and sets billboards as the lights ask |
| SceneFacts.LoadedSceneCounts | src/EngineApp.cpp:167-190 | a scene that loads had exactly one scene, one render-settings node and one camera |
| SceneFacts.SettingsAndCamera | src/EngineApp.cpp:193-196 | loading settings and camera sets the settings and uses one id |
| SceneFacts.LoadedSceneFacts | src/EngineApp.cpp:153-236 | a scene that loads has its settings set, one id used for the camera, and the meshes and lights added |
| SceneFacts.FailedCountsChangeNothing | src/EngineApp.cpp:167-190 | a document that fails the count checks leaves the application unchanged |

## Left out

- Floating point is modelled as `real`. `strtof` is modelled only for decimal notation without exponents, hexadecimal, "inf" or "nan".
- Trigonometry is left out. `glm::radians` is not applied, so the fov is kept in degrees. The cosine and sine of the light rotation's angle are parameters.
- Matrices are left out: `TransformComponent::mat4` and `normalMatrix`, and the camera's view and projection matrix setters. Only which setter `updateMatricesValues` calls is modelled.
- The frustum corners of a cascade and `glm::length` are left out. They enter only as given non-negative corner distances, and cascade matrices are symbolic.
- Vulkan object creation and destruction are left out: images, views, depth resources, framebuffers, render passes, pipelines, descriptors and buffers. Handles are indices.
- Fence waits, semaphores and queue submission are left out, because they are GPU concurrency. The driver's results are parameters.
- The zero-extent wait loop in `recreateSwapChain` is left out, because it blocks on window events. Window and input code is left out too.
- The command-recording render systems (simple and shadow-map) appear only as events in the frame order. Their draw loops are not modelled.
- The per-frame uniform buffer's view, projection and cascade matrices are left out. So are the `lightViewMat` built from `ubo.lights[0]` and `getCascadeMatrices`.
- `OmniVEngineApp.cpp` is left out: a hard-coded demo scene and loop plumbing. So is `main.cpp`, which is a `chdir` and app construction.
- `hashCombine` and `print_mat4` in `OmniVUtils.hpp` are left out, because they depend on `std::hash` and console output.
- Reading the scene file from disk, with its "Error while parsing" error, is left out. The document is given already parsed, and the XML parser itself is not modelled.
- Loading a mesh file (`Model::createModelFromFile`) is left out. A mesh object records its filename as its model.
- The iteration order of the `unordered_map` of objects is a parameter, required to list every key once.
- `numLights` of a fresh `GlobalUbo` is uninitialised in the source. The model keeps the application's last stored count when the upload fails.
- EngineApps.EngineApp.RecordFrame: requires render settings to be loaded, because the source always runs `loadScene` before `run`.
- EngineApps.EngineApp.RecordMainPass: uses the viewer object's position as the camera position.
- Objects.IdAllocator.CreateGameObject: does not model the wrap-around of the 32-bit `id_t` counter. Scenes are bounded by `MAX_GAME_OBJECTS`, far below it.
- Common.ToInt / Common.ToUInt / Common.ToIntWraps: `long` and `unsigned long` are taken as 64-bit (LP64, as on Linux and macOS). With a 32-bit `long`, as on Windows, `strtol` would saturate at the 32-bit range, and the `(int)` cast would then never wrap.
- The in-flight fences of the present chain are recorded only as created signalled. Their waits and resets during a frame are not modelled.
- Common.ToVector2f / Common.ToVector3f / Common.ToVector4f: the tokens are read left to right, so with several malformed tokens the error names the first. C++ leaves the evaluation order of the constructor's arguments unspecified, so a compiler may report another malformed token.
- In a release build the debug assertions are compiled out. The model keeps them as failures, as a debug build runs.

## Findings

| source | as written | input that shows it | evidently intended | confidence | as-written member | corrected member |
|---|---|---|---|---|---|---|
| src/EngineApp.cpp:244-273 | `assert(lightIndex < MAX_LIGHTS)` sits at the top of each object visit, before any write. It fails on any object visited once ten slots are full, even one without lights. It also does not guard the second write of an object with both light components. | Ten directional lights followed, in the visiting order, by a mesh with no light. The ten lights fit exactly, yet the visit of the mesh trips the assertion. Second, latent: nine directional lights, then one object with both a directional and a point component. The assertion passes with one slot free, and the point light is written to index 10 of the ten-slot array. `loadScene` never makes such an object, since `loadLightFromNode` gives each light one component, so this half cannot be reached from a scene file. | Fail only when a light component finds no free slot, checking before each write. | not executed | LightUploads.UploadAsWritten, LightUploads.TenLightsThenAMeshRejected, LightUploads.AsWrittenPasses, LightUploads.NineLightsThenALampOverflow | LightUploads.UploadChecked, LightUploads.UploadCheckedMeaning, LightUploads.UploadLights |
| src/Camera.cpp:198-205 and src/OmniVCamera.cpp:193-204 | The "near" clip value is assigned to the far plane, and the near plane is never set. | A camera node with a `clip` child and children name="far" value="50" and name="near" value="1". It loads with far 1 and near 0.1. | Store the "near" value in the near plane. | not executed | Cameras.ReadClipAsWritten, Cameras.NearClipLandsInFar | Cameras.ReadClip, Cameras.ClipPlanesRead, Cameras.LoadedClipPlanes |
