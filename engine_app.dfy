/** The application (src/EngineApp.cpp, src/EngineApp.hpp, src/FrameInfo.hpp): loading
    a scene document into the object map, the camera and the render settings; copying
    the scene's lights into the per-frame uniform buffer; and the order of the render
    passes in one frame of the main loop.

    The scene file is given already parsed (reading it from disk is not modelled).
    The static id counter of `createGameObject` is the shared `IdAllocator`.
*/
module EngineApps {
  import opened Wrappers
  import opened Xml
  import opened Common
  import opened Objects
  import opened Cameras
  import opened LightUploads
  import SwapChains
  import Renderers
  import Frames
  import Billboards
  import Cascades

  /** `MAX_GAME_OBJECTS`. */
  const MaxGameObjects: nat := 10000

  /** `EnabledRenderSystems` with its member defaults. */
  datatype EnabledRenderSystems = EnabledRenderSystems(shadowmap: bool, simple: bool, pointLight: bool)

  const DefaultEnabledSystems: EnabledRenderSystems := EnabledRenderSystems(true, true, false)

  /** `RenderSettings`: the ambient light, intensity in `w`. */
  datatype RenderSettings = RenderSettings(ambientLight: Vec4)

  /** `RenderSettings::loadRenderSettings`: the `value` of the `ambientlight` child, read
      with `toVector4f`. */
  function LoadRenderSettings(settingsNode: Option<Node>): (r: Result<RenderSettings>)
    ensures var ambient := ToVector4f(AttributeValue(Child(settingsNode, "ambientlight"), "value"));
      (r.Ok? <==> ambient.Ok?) && (r.Ok? ==> ambient == Ok(r.value.ambientLight))
      && (r.Err? ==> r.error == ambient.error)
  {
    var ambient :- ToVector4f(AttributeValue(Child(settingsNode, "ambientlight"), "value"));
    Ok(RenderSettings(ambient))
  }

  /** The settings load exactly when the ambient light is four floats, which are then its
      components in order; without an `ambientlight` child they always throw. */
  lemma AmbientLightIsFourFloats(settingsNode: Option<Node>)
    ensures var r := LoadRenderSettings(settingsNode);
      var t := Tokens(AttributeValue(Child(settingsNode, "ambientlight"), "value"), DefaultDelimiters, false);
      (r.Ok? ==> |t| == 4 && ToFloat(t[0]) == Ok(r.value.ambientLight.x) && ToFloat(t[1]) == Ok(r.value.ambientLight.y)
                 && ToFloat(t[2]) == Ok(r.value.ambientLight.z) && ToFloat(t[3]) == Ok(r.value.ambientLight.w))
      && (|t| != 4 ==> r == Err(Exception("Expected 4 values")))
      && (|t| == 4 && ToFloat(t[0]).Ok? && ToFloat(t[1]).Ok? && ToFloat(t[2]).Ok? && ToFloat(t[3]).Ok? ==> r.Ok?)
    ensures Child(settingsNode, "ambientlight").None? ==> LoadRenderSettings(settingsNode) == Err(Exception("Expected 4 values"))
  {
    EmptyTextIsNoVector();
  }

  // ---------------------------------------------------------------------------
  // loadScene
  // ---------------------------------------------------------------------------

  /** The checks before parsing: exactly one scene, then exactly one render-settings node
      and exactly one camera inside it, each with its own message. */
  function CountCheck(doc: Node): Outcome {
    var scenes := |ChildrenNamed(Some(doc), "scene")|;
    var sceneNode := Child(Some(doc), "scene");
    var settings := |ChildrenNamed(sceneNode, "rendersettings")|;
    var cameras := |ChildrenNamed(sceneNode, "camera")|;
    if scenes == 0 then Fail(Exception("No scene defined"))
    else if scenes > 1 then Fail(Exception("Multiple scenes are not allowed"))
    else if settings == 0 then Fail(Exception("No render settings defined"))
    else if settings > 1 then Fail(Exception("Multiple rendersettings not allowed"))
    else if cameras == 0 then Fail(Exception("No camera defined"))
    else if cameras > 1 then Fail(Exception("Multiple cameras are not allowed (bound to change)"))
    else Pass
  }

  /** The checks pass exactly when there is one of each; a missing scene is reported
      before anything else, and then the scene, settings and camera are all present. */
  lemma CountCheckExactlyOne(doc: Node)
    ensures var sceneNode := Child(Some(doc), "scene");
      CountCheck(doc).Pass? <==>
        |ChildrenNamed(Some(doc), "scene")| == 1 && |ChildrenNamed(sceneNode, "rendersettings")| == 1
        && |ChildrenNamed(sceneNode, "camera")| == 1
    ensures Child(Some(doc), "scene").None? ==> CountCheck(doc) == Fail(Exception("No scene defined"))
    ensures CountCheck(doc).Pass? ==>
      var sceneNode := Child(Some(doc), "scene");
      sceneNode.Some? && Child(sceneNode, "rendersettings").Some? && Child(sceneNode, "camera").Some?
  {
  }

  /** What the mesh and light loops change: the object map, the id counter and whether
      the billboard (point light) render system is enabled. */
  datatype SceneState = SceneState(objects: map<nat, GameObject>, nextId: nat, billboards: bool)

  /** The state reached by a loop, and whether it finished or threw there. */
  datatype Progress = Progress(state: SceneState, outcome: Outcome)

  /** Every object is stored under its own id. */
  predicate StoredUnderOwnId(objects: map<nat, GameObject>) {
    forall id :: id in objects ==> objects[id].id == id
  }

  /** Every stored id was handed out before `nextId`. */
  predicate IdsBelow(s: SceneState) {
    forall id :: id in s.objects ==> id < s.nextId
  }

  /** `unordered_map::emplace`: inserts unless the key is present, which keeps the old entry. */
  function Emplace(objects: map<nat, GameObject>, obj: GameObject): (r: map<nat, GameObject>)
    ensures r.Keys == objects.Keys + {obj.id}
    ensures forall id :: id in objects ==> r[id] == objects[id]
    ensures obj.id !in objects ==> r[obj.id] == obj && |r| == |objects| + 1
  {
    if obj.id in objects then objects else objects[obj.id := obj]
  }

  /** The debug assertion that ends every mesh and light iteration. */
  function CheckObjectCount(s: SceneState): (p: Progress)
    ensures p.state == s
    ensures p.outcome.Pass? <==> |s.objects| < MaxGameObjects
    ensures p.outcome.Fail? ==> p.outcome.error == AssertionFailure("Exceeded maximum number of objects in scene")
  {
    Progress(s, if |s.objects| < MaxGameObjects then Pass
                else Fail(AssertionFailure("Exceeded maximum number of objects in scene")))
  }

  predicate IsObjMesh(meshNode: Node) {
    AttributeValue(Some(meshNode), "type") == "obj"
  }

  /** The object an "obj" mesh makes when the next id is `id`: the path of its model and
      its transform read from the `transform` child. */
  function MeshObject(id: nat, meshNode: Node, filenameNode: Node): (r: Result<GameObject>)
    ensures r.Ok? ==> r.value.id == id && r.value.model == Some(AttributeValue(Some(filenameNode), "value"))
    ensures r.Ok? ==> r.value.directionalLight.None? && r.value.pointLight.None?
    ensures var children := Children(Child(Some(meshNode), "transform"));
      (r.Ok? <==> WellFormedTransform(children))
      && (r.Ok? ==> ApplyChildren(DefaultTransform, children) == Ok(r.value.transform))
  {
    var obj := NewObject(id).(model := Some(AttributeValue(Some(filenameNode), "value")));
    var transform :- ApplyChildren(obj.transform, Children(Child(Some(meshNode), "transform")));
    Ok(obj.(transform := transform))
  }

  /** The rest of an iteration once an object has been made (or has thrown) with the
      next id: that id is used up, the object is emplaced, and the count is checked. */
  function AddObject(s: SceneState, obj: Result<GameObject>, usesId: bool, billboard: bool): Progress {
    var after := s.(nextId := s.nextId + (if usesId then 1 else 0));
    if obj.Err? then Progress(after, Fail(obj.error))
    else CheckObjectCount(after.(objects := Emplace(s.objects, obj.value), billboards := s.billboards || billboard))
  }

  /** One iteration of the mesh loop. A mesh needs a type; only an "obj" mesh makes an
      object, which needs a `filename` child. Its id is used up as soon as it is created,
      even when its transform then throws; the model holds the file path. */
  function MeshStep(s: SceneState, meshNode: Node): Progress {
    if !HasAttribute(Some(meshNode), "type") then Progress(s, Fail(Exception("Mesh without type defined")))
    else if !IsObjMesh(meshNode) then CheckObjectCount(s)
    else
      var filename := FindChildByAttribute(Some(meshNode), "name", "filename");
      if filename.None? then Progress(s, Fail(Exception("Obj no defined")))
      else AddObject(s, MeshObject(s.nextId, meshNode, filename.value), true, false)
  }

  /** The mesh loop: the steps in document order, stopping at the first that throws. */
  function Meshes(s: SceneState, meshNodes: seq<Node>): Progress
    decreases |meshNodes|
  {
    if meshNodes == [] then Progress(s, Pass)
    else
      var first := MeshStep(s, meshNodes[0]);
      if first.outcome.Fail? then first else Meshes(first.state, meshNodes[1..])
  }

  /** `drawBillboard`: the `enabled` attribute of the `billboard` child, read with
      `toBool`; false when there is no such child. */
  function DrawBillboard(lightNode: Node): (r: Result<bool>)
    ensures var billboard := Child(Some(lightNode), "billboard");
      var enabled := Lowered(AttributeValue(billboard, "enabled"));
      (billboard.None? ==> r == Ok(false))
      && (billboard.Some? ==> (r.Ok? <==> enabled == "true" || enabled == "false"))
      && (r == Ok(true) <==> billboard.Some? && enabled == "true")
  {
    var billboard := Child(Some(lightNode), "billboard");
    if billboard.Some? then ToBool(AttributeValue(billboard, "enabled")) else Ok(false)
  }

  /** One iteration of the light loop: the billboard flag, the light object, then the
      billboard system is switched on (never off) by a light that draws one. */
  function LightStep(s: SceneState, lightNode: Node): Progress {
    var drawBillboard := DrawBillboard(lightNode);
    if drawBillboard.Err? then Progress(s, Fail(drawBillboard.error))
    else AddObject(s, LoadedLight(lightNode, drawBillboard.value, s.nextId), LoadCreatesObject(lightNode), drawBillboard.value)
  }

  /** The light loop, stopping at the first step that throws. */
  function Lights(s: SceneState, lightNodes: seq<Node>): Progress
    decreases |lightNodes|
  {
    if lightNodes == [] then Progress(s, Pass)
    else
      var first := LightStep(s, lightNodes[0]);
      if first.outcome.Fail? then first else Lights(first.state, lightNodes[1..])
  }

  /** The light loop from position `i` on, one step further. */
  lemma LightsAdvance(start: SceneState, cur: SceneState, lightNodes: seq<Node>, i: nat)
    requires i < |lightNodes| && Lights(cur, lightNodes[i..]) == Lights(start, lightNodes)
    ensures var p := LightStep(cur, lightNodes[i]);
      (p.outcome.Fail? ==> p == Lights(start, lightNodes))
      && (p.outcome.Pass? ==> Lights(p.state, lightNodes[i + 1..]) == Lights(start, lightNodes))
  {
    assert lightNodes[i..][1..] == lightNodes[i + 1..];
  }

  /** The object map stays keyed by id and every id stays below the counter, which
      grows by at most one per mesh or light. */
  predicate Consistent(s: SceneState) {
    StoredUnderOwnId(s.objects) && IdsBelow(s)
  }

  /** Adding an object that carries the next id keeps the scene consistent. */
  lemma AddObjectKeepsConsistent(s: SceneState, obj: Result<GameObject>, usesId: bool, billboard: bool)
    requires Consistent(s)
    requires obj.Ok? ==> obj.value.id == s.nextId && usesId
    ensures var p := AddObject(s, obj, usesId, billboard);
      Consistent(p.state) && s.nextId <= p.state.nextId <= s.nextId + 1 && (s.billboards ==> p.state.billboards)
      && (!billboard ==> p.state.billboards == s.billboards)
  {
  }

  lemma MeshStepKeepsConsistent(s: SceneState, meshNode: Node)
    requires Consistent(s)
    ensures var p := MeshStep(s, meshNode);
      Consistent(p.state) && s.nextId <= p.state.nextId <= s.nextId + 1 && p.state.billboards == s.billboards
  {
    var filename := FindChildByAttribute(Some(meshNode), "name", "filename");
    if HasAttribute(Some(meshNode), "type") && IsObjMesh(meshNode) && filename.Some? {
      AddObjectKeepsConsistent(s, MeshObject(s.nextId, meshNode, filename.value), true, false);
    }
  }

  lemma LightStepKeepsConsistent(s: SceneState, lightNode: Node)
    requires Consistent(s)
    ensures var p := LightStep(s, lightNode);
      Consistent(p.state) && s.nextId <= p.state.nextId <= s.nextId + 1 && (s.billboards ==> p.state.billboards)
  {
    var drawBillboard := DrawBillboard(lightNode);
    if drawBillboard.Ok? {
      var light := LoadedLight(lightNode, drawBillboard.value, s.nextId);
      AddObjectKeepsConsistent(s, light, LoadCreatesObject(lightNode), drawBillboard.value);
    }
  }

  /** Handing out another id keeps the scene consistent. */
  lemma MoreIdsKeepConsistent(s: SceneState)
    requires Consistent(s)
    ensures Consistent(s.(nextId := s.nextId + 1))
  {
  }

  /** The application state that `loadScene` reads and writes. */
  datatype AppState = AppState(objects: map<nat, GameObject>, nextId: nat, camera: Camera,
                               settings: Option<RenderSettings>, enabled: EnabledRenderSystems)

  function SceneOf(a: AppState): SceneState {
    SceneState(a.objects, a.nextId, a.enabled.pointLight)
  }

  function WithScene(a: AppState, s: SceneState): AppState {
    a.(objects := s.objects, nextId := s.nextId, enabled := a.enabled.(pointLight := s.billboards))
  }

  /** The mesh loop, then the light loop unless the mesh loop threw. */
  function SceneObjects(sceneNode: Option<Node>, s: SceneState): Progress {
    var meshes := Meshes(s, ChildrenNamed(sceneNode, "mesh"));
    if meshes.outcome.Fail? then meshes else Lights(meshes.state, ChildrenNamed(sceneNode, "light"))
  }

  /** The render settings: assigned once they load. */
  function SettingsStage(sceneNode: Option<Node>, a: AppState): (Outcome, AppState) {
    var settings := LoadRenderSettings(Child(sceneNode, "rendersettings"));
    if settings.Err? then (Fail(settings.error), a)
    else (Pass, a.(settings := Some(settings.value)))
  }

  /** The camera: without a camera node the count check would have thrown. */
  function CameraStage(sceneNode: Option<Node>, a: AppState): (Outcome, AppState) {
    var cameraNode := Child(sceneNode, "camera");
    if cameraNode.None? then (Fail(Exception("No camera defined")), a)
    else CameraFromNode(cameraNode.value, a)
  }

  /** `loadCameraFromNode`: the camera uses one id whether or not it loads, and is
      assigned once it does. */
  function CameraFromNode(cameraNode: Node, a: AppState): (Outcome, AppState) {
    var camera := LoadedCamera(cameraNode, a.nextId);
    var withId := a.(nextId := a.nextId + 1);
    if camera.Err? then (Fail(camera.error), withId)
    else (Pass, withId.(camera := camera.value))
  }

  /** The meshes and lights. */
  function ObjectsStage(sceneNode: Option<Node>, a: AppState): (Outcome, AppState) {
    var objects := SceneObjects(sceneNode, SceneOf(a));
    (objects.outcome, WithScene(a, objects.state))
  }

  /** `loadScene` on a parsed document: the count checks, the render settings, the
      camera, then the meshes and lights, stopping at the first that throws. */
  function LoadedScene(doc: Node, a: AppState): (Outcome, AppState) {
    var counts := CountCheck(doc);
    var sceneNode := Child(Some(doc), "scene");
    if counts.Fail? then (counts, a)
    else
      var settings := SettingsStage(sceneNode, a);
      if settings.0.Fail? then settings
      else
        var camera := CameraStage(sceneNode, settings.1);
        if camera.0.Fail? then camera
        else ObjectsStage(sceneNode, camera.1)
  }

  /** `createGameObject`, the model path and `initializeFromNode` for an "obj" mesh. */
  method CreateMeshObject(ids: IdAllocator, meshNode: Node, filenameNode: Node) returns (r: Result<GameObject>)
    requires ids.Valid()
    modifies ids
    ensures ids.Valid() && ids.currentId == old(ids.currentId) + 1
    ensures r == MeshObject(old(ids.currentId), meshNode, filenameNode)
  {
    var obj := ids.CreateGameObject();
    obj := obj.(model := Some(AttributeValue(Some(filenameNode), "value")));
    var transform := InitializeFromNode(Child(Some(meshNode), "transform"), obj.transform);
    if transform.Err? {
      return Err(transform.error);
    }
    return Ok(obj.(transform := transform.value));
  }

  /** One iteration of the mesh loop, with the map passed in and returned. */
  method LoadMesh(ids: IdAllocator, s: SceneState, meshNode: Node) returns (p: Progress)
    requires ids.Valid() && ids.currentId == s.nextId
    modifies ids
    ensures ids.Valid() && ids.currentId == p.state.nextId
    ensures p == MeshStep(s, meshNode)
  {
    if !HasAttribute(Some(meshNode), "type") {
      return Progress(s, Fail(Exception("Mesh without type defined")));
    }
    if AttributeValue(Some(meshNode), "type") != "obj" {
      return CheckObjectCount(s);
    }
    var filename := FindChildByAttribute(Some(meshNode), "name", "filename");
    if filename.None? {
      return Progress(s, Fail(Exception("Obj no defined")));
    }
    var obj := CreateMeshObject(ids, meshNode, filename.value);
    return AddObject(s, obj, true, false);
  }

  /** One iteration of the light loop, with the map and the billboard flag passed in and returned. */
  method LoadLight(ids: IdAllocator, s: SceneState, lightNode: Node) returns (p: Progress)
    requires ids.Valid() && ids.currentId == s.nextId
    modifies ids
    ensures ids.Valid() && ids.currentId == p.state.nextId
    ensures p == LightStep(s, lightNode)
  {
    var billboardNode := Child(Some(lightNode), "billboard");
    var drawBillboard := false;
    if billboardNode.Some? {
      var enabled := ToBool(AttributeValue(billboardNode, "enabled"));
      if enabled.Err? {
        return Progress(s, Fail(enabled.error));
      }
      drawBillboard := enabled.value;
    }
    var light := LoadLightFromNode(ids, lightNode, drawBillboard);
    return AddObject(s, light, LoadCreatesObject(lightNode), drawBillboard);
  }

  /** The application: the object map, the camera, the render settings (absent until a
      scene is loaded) and the enabled render systems. */
  class EngineApp {
    const ids: IdAllocator
    var gameObjects: map<nat, GameObject>
    var camera: Camera
    var renderSettings: Option<RenderSettings>
    var enabledSystems: EnabledRenderSystems

    ghost predicate Valid()
      reads this, ids
    {
      ids.Valid() && Consistent(Scene())
    }

    /** The part of the state that the mesh and light loops change. */
    function Scene(): SceneState
      reads this, ids
    {
      SceneState(gameObjects, ids.currentId, enabledSystems.pointLight)
    }

    function State(): AppState
      reads this, ids
    {
      AppState(gameObjects, ids.currentId, camera, renderSettings, enabledSystems)
    }

    /** The members hold the scene `s`. */
    predicate HoldsScene(s: SceneState)
      reads this, ids
    {
      gameObjects == s.objects && ids.currentId == s.nextId && enabledSystems.pointLight == s.billboards
    }

    /** The members hold the state `a`. */
    predicate Holds(a: AppState)
      reads this, ids
    {
      gameObjects == a.objects && ids.currentId == a.nextId && camera == a.camera
      && renderSettings == a.settings && enabledSystems == a.enabled
    }

    /** `EngineApp()`: the members' defaults; the default camera creates its viewer
        object, which uses an id. */
    constructor(ids: IdAllocator)
      requires ids.Valid()
      modifies ids
      ensures Valid() && this.ids == ids
      ensures State() == AppState(map[], old(ids.currentId) + 1, DefaultCamera(NewObject(old(ids.currentId))),
                                  None, DefaultEnabledSystems)
    {
      var viewer := ids.CreateGameObject();
      this.ids := ids;
      gameObjects := map[];
      camera := DefaultCamera(viewer);
      renderSettings := None;
      enabledSystems := DefaultEnabledSystems;
    }

    /** `loadScene` on a parsed document. */
    method LoadScene(doc: Node) returns (o: Outcome)
      requires Valid()
      modifies this, ids
      ensures Valid()
      ensures var r := LoadedScene(doc, old(State())); o == r.0 && Holds(r.1)
    {
      o := CountCheck(doc);
      if o.Fail? {
        return;
      }
      var sceneNode := Child(Some(doc), "scene");
      o := LoadSettings(sceneNode);
      if o.Fail? {
        return;
      }
      o := LoadCamera(sceneNode);
      if o.Fail? {
        return;
      }
      o := LoadObjects(sceneNode);
    }

    /** `loadScene`: the render settings. */
    method LoadSettings(sceneNode: Option<Node>) returns (o: Outcome)
      requires Valid()
      modifies this
      ensures Valid()
      ensures var r := SettingsStage(sceneNode, old(State())); o == r.0 && Holds(r.1)
    {
      var settings := LoadRenderSettings(Child(sceneNode, "rendersettings"));
      if settings.Err? {
        return Fail(settings.error);
      }
      renderSettings := Some(settings.value);
      return Pass;
    }

    /** `loadScene`: the camera. */
    method LoadCamera(sceneNode: Option<Node>) returns (o: Outcome)
      requires Valid()
      modifies this, ids
      ensures Valid()
      ensures var r := CameraStage(sceneNode, old(State())); o == r.0 && Holds(r.1)
    {
      var cameraNode := Child(sceneNode, "camera");
      if cameraNode.None? {
        return Fail(Exception("No camera defined"));
      }
      o := TakeCamera(cameraNode.value);
    }

    /** `m_camera = Camera::loadCameraFromNode(...)`. */
    method TakeCamera(cameraNode: Node) returns (o: Outcome)
      requires Valid()
      modifies this, ids
      ensures Valid()
      ensures var r := CameraFromNode(cameraNode, old(State())); o == r.0 && Holds(r.1)
    {
      ghost var before := Scene();
      var loaded := LoadCameraFromNode(ids, cameraNode);
      MoreIdsKeepConsistent(before);
      if loaded.Err? {
        o := Fail(loaded.error);
      } else {
        camera := loaded.value;
        o := Pass;
      }
    }

    /** `loadScene`: the meshes, then the lights. */
    method LoadObjects(sceneNode: Option<Node>) returns (o: Outcome)
      requires Valid()
      modifies this, ids
      ensures Valid()
      ensures var r := ObjectsStage(sceneNode, old(State())); o == r.0 && Holds(r.1)
    {
      o := LoadMeshes(ChildrenNamed(sceneNode, "mesh"));
      if o.Fail? {
        return;
      }
      o := LoadLights(ChildrenNamed(sceneNode, "light"));
    }

    /** The mesh loop of `loadScene`: `child("mesh")` and `next_sibling("mesh")`. */
    method LoadMeshes(meshNodes: seq<Node>) returns (o: Outcome)
      requires Valid()
      modifies this, ids
      ensures Valid()
      ensures var p := Meshes(old(Scene()), meshNodes); o == p.outcome && HoldsScene(p.state)
      ensures camera == old(camera) && renderSettings == old(renderSettings) && enabledSystems == old(enabledSystems)
    {
      var cur := Scene();
      ghost var start := cur;
      var i := 0;
      while i < |meshNodes|
        invariant 0 <= i <= |meshNodes|
        invariant ids.Valid() && Consistent(cur) && HoldsScene(cur)
        invariant camera == old(camera) && renderSettings == old(renderSettings) && enabledSystems == old(enabledSystems)
        invariant Meshes(cur, meshNodes[i..]) == Meshes(start, meshNodes)
      {
        assert meshNodes[i..][1..] == meshNodes[i + 1..];
        MeshStepKeepsConsistent(cur, meshNodes[i]);
        var p := LoadMesh(ids, cur, meshNodes[i]);
        gameObjects := p.state.objects;
        cur := p.state;
        if p.outcome.Fail? {
          return p.outcome;
        }
        i := i + 1;
      }
      return Pass;
    }

    /** The light loop of `loadScene`. */
    method LoadLights(lightNodes: seq<Node>) returns (o: Outcome)
      requires Valid()
      modifies this, ids
      ensures Valid()
      ensures var p := Lights(old(Scene()), lightNodes); o == p.outcome && HoldsScene(p.state)
      ensures camera == old(camera) && renderSettings == old(renderSettings)
      ensures enabledSystems.shadowmap == old(enabledSystems.shadowmap) && enabledSystems.simple == old(enabledSystems.simple)
    {
      var cur := Scene();
      ghost var start := cur;
      var i := 0;
      while i < |lightNodes|
        invariant 0 <= i <= |lightNodes|
        invariant ids.Valid() && Consistent(cur) && HoldsScene(cur)
        invariant camera == old(camera) && renderSettings == old(renderSettings)
        invariant enabledSystems.shadowmap == old(enabledSystems.shadowmap) && enabledSystems.simple == old(enabledSystems.simple)
        invariant Lights(cur, lightNodes[i..]) == Lights(start, lightNodes)
      {
        LightsAdvance(start, cur, lightNodes, i);
        LightStepKeepsConsistent(cur, lightNodes[i]);
        var p := LoadLight(ids, cur, lightNodes[i]);
        gameObjects := p.state.objects;
        enabledSystems := enabledSystems.(pointLight := p.state.billboards);
        cur := p.state;
        if p.outcome.Fail? {
          return p.outcome;
        }
        i := i + 1;
      }
      return Pass;
    }

    /** `updateLights` (with the check before each write) on the application's objects:
        the point lights turn, the ids and everything else stay. */
    method UpdateLights(ubo: GlobalUbo, order: seq<nat>, r: Rotation) returns (o: Outcome)
      requires Valid() && Visitable(gameObjects, order) && ubo.lights.Length == MaxLights
      modifies this, ubo, ubo.lights
      ensures Valid() && gameObjects.Keys == old(gameObjects).Keys
      ensures var p := UploadChecked(Upload(old(gameObjects), old(ubo.lights[..]), 0), order, r);
        o == p.outcome && gameObjects == p.upload.objects && ubo.lights[..] == p.upload.slots
        && ubo.numLights == (if o.Pass? then p.upload.count else old(ubo.numLights))
      ensures ubo.ambientLight == old(ubo.ambientLight)
      ensures camera == old(camera) && renderSettings == old(renderSettings) && enabledSystems == old(enabledSystems)
    {
      UploadKeepsIds(Upload(gameObjects, ubo.lights[..], 0), order, r);
      var moved;
      o, moved := UploadLights(gameObjects, order, r, ubo);
      gameObjects := moved;
    }

    /** A frame recorded from the objects `before`: the lights were uploaded from
        them into a fresh buffer with the corrected light check (`UploadChecked`, not
        the assertion of `updateLights` as written), turning the point lights; when
        the light check failed
        nothing was recorded, and otherwise the buffer holds the ambient light and
        the lights, and the passes were recorded in order. */
    predicate Recorded(before: map<nat, GameObject>, order: seq<nat>, r: Rotation,
                       events: seq<Frames.FrameEvent>, written: Option<UboContents>)
      reads this
    {
      Visitable(before, order) && renderSettings.Some?
      && Billboards.WellFormedScene(gameObjects, order)
      && var p := UploadChecked(Upload(before, DefaultSlots, 0), order, r);
      gameObjects == p.upload.objects
      && (p.outcome.Fail? ==> events == [] && written == None)
      && (p.outcome.Pass? ==>
            written == Some(UboContents(renderSettings.value.ambientLight, p.upload.slots, p.upload.count))
            && events == Frames.FrameEvents(enabledSystems.shadowmap, enabledSystems.simple, enabledSystems.pointLight,
                                            Frames.BillboardCommands(gameObjects, order, camera.viewer.transform.position)))
    }

    /** The body of a started frame in `run`: fill a fresh uniform buffer with the
        ambient light and the lights, record a shadow pass per cascade, then the main
        pass with the enabled systems. The upload uses the corrected light check; a
        failed check ends the frame there. */
    method RecordFrame(renderer: Renderers.Renderer, commandBuffer: nat, order: seq<nat>, r: Rotation)
      returns (o: Outcome, events: seq<Frames.FrameEvent>, written: Option<UboContents>)
      requires Valid() && renderSettings.Some? && IterationOrder(gameObjects, order)
      requires renderer.Valid() && renderer.isFrameStarted
      requires renderer.currentImageIndex < |renderer.swapChain.images|
      requires commandBuffer == renderer.CurrentCommandBuffer()
      modifies this
      ensures Valid() && gameObjects.Keys == old(gameObjects).Keys
      ensures camera == old(camera) && renderSettings == old(renderSettings) && enabledSystems == old(enabledSystems)
      ensures Recorded(old(gameObjects), order, r, events, written)
      ensures (o.Pass? <==> written.Some?) && (o.Fail? ==> o == Fail(AssertionFailure(LightsExceeded)))
    {
      FrameUpload(gameObjects, order, r);
      var ubo := new GlobalUbo();
      assert ubo.lights[..] == DefaultSlots;
      ubo.ambientLight := renderSettings.value.ambientLight;
      o := UpdateLights(ubo, order, r);
      if o.Fail? {
        return o, [], None;
      }
      written := Some(UboContents(ubo.ambientLight, ubo.lights[..], ubo.numLights));
      var shadowPasses := Frames.RecordShadowPasses(enabledSystems.shadowmap);
      var mainPass := RecordMainPass(renderer, commandBuffer, order);
      events := shadowPasses + mainPass;
    }

    /** The main pass of `run`: the enabled systems draw into the swap-chain render
        pass, the simple system first, then the billboards as seen from the camera. */
    method RecordMainPass(renderer: Renderers.Renderer, commandBuffer: nat, order: seq<nat>)
      returns (events: seq<Frames.FrameEvent>)
      requires Valid() && Billboards.WellFormedScene(gameObjects, order)
      requires renderer.Valid() && renderer.isFrameStarted
      requires renderer.currentImageIndex < |renderer.swapChain.images|
      requires commandBuffer == renderer.CurrentCommandBuffer()
      ensures events == Frames.MainPass(enabledSystems.simple, enabledSystems.pointLight,
                                        Frames.BillboardCommands(gameObjects, order, camera.viewer.transform.position))
    {
      var framebuffer, renderArea := renderer.BeginSwapChainRenderPass(commandBuffer);
      events := [Frames.MainPassBegin];
      if enabledSystems.simple {
        events := events + [Frames.SimpleRender];
      }
      if enabledSystems.pointLight {
        var commands := Billboards.Render(gameObjects, order, camera.viewer.transform.position);
        events := events + [Frames.BillboardRender(commands)];
      }
      var endedOn := renderer.EndSwapChainRenderPass(commandBuffer);
      events := events + [Frames.MainPassEnd];
    }

    /** A started frame of `run`: record it into the frame's command buffer and, unless
        the light check failed, end the frame. */
    method FinishFrame(renderer: Renderers.Renderer, device: Renderers.Device, commandBuffer: nat,
                       recordAccepted: bool, submitAccepted: bool, presented: SwapChains.VkResult,
                       order: seq<nat>, r: Rotation)
      returns (o: Outcome, events: seq<Frames.FrameEvent>, written: Option<UboContents>)
      requires Valid() && renderSettings.Some? && IterationOrder(gameObjects, order)
      requires renderer.Valid() && Renderers.Usable(device) && renderer.isFrameStarted
      requires renderer.currentImageIndex < |renderer.swapChain.images|
      requires commandBuffer == renderer.CurrentCommandBuffer()
      modifies this, renderer, renderer.swapChain, renderer.window
      ensures Valid() && renderer.Valid()
      ensures camera == old(camera) && renderSettings == old(renderSettings) && enabledSystems == old(enabledSystems)
      ensures Recorded(old(gameObjects), order, r, events, written)
      ensures written == None ==> o == Fail(AssertionFailure(LightsExceeded)) && renderer.isFrameStarted
      ensures written.Some? && !recordAccepted ==> o == Fail(Exception("failed to record command buffer!"))
      ensures (written.Some? && recordAccepted && submitAccepted && presented == SwapChains.Success
               && !old(renderer.window.framebufferResized)) ==> o == Pass
      ensures written.Some? ==>
        o == Renderers.EndOutcome(recordAccepted, submitAccepted, presented, old(renderer.window.framebufferResized),
                                  old(renderer.swapChain).SameFormats(renderer.swapChain))
      ensures o.Pass? ==>
        !renderer.isFrameStarted && renderer.currentFrameIndex == (old(renderer.currentFrameIndex) + 1) % SwapChains.MaxFramesInFlight
    {
      o, events, written := RecordFrame(renderer, commandBuffer, order, r);
      if o.Fail? {
        return;
      }
      o := renderer.EndFrame(device, recordAccepted, submitAccepted, presented);
    }

    /** One iteration of the main loop of `run`: begin a frame; when the renderer hands
        out a command buffer, record the frame into it and end the frame. */
    method RunFrame(renderer: Renderers.Renderer, device: Renderers.Device, acquired: SwapChains.VkResult,
                    imageIndex: nat, beginAccepted: bool, recordAccepted: bool, submitAccepted: bool,
                    presented: SwapChains.VkResult, order: seq<nat>, r: Rotation)
      returns (o: Outcome, events: seq<Frames.FrameEvent>, written: Option<UboContents>)
      requires Valid() && renderSettings.Some? && IterationOrder(gameObjects, order)
      requires renderer.Valid() && Renderers.Usable(device) && !renderer.isFrameStarted
      requires (acquired == SwapChains.Success || acquired == SwapChains.Suboptimal) ==>
        imageIndex < |renderer.swapChain.images|
      modifies this, renderer, renderer.swapChain, renderer.window
      ensures Valid() && renderer.Valid()
      ensures camera == old(camera) && renderSettings == old(renderSettings) && enabledSystems == old(enabledSystems)
      ensures acquired.OtherResult? ==>
        o == Fail(Exception("failed to acquire swap chain image!")) && events == [] && gameObjects == old(gameObjects)
      ensures acquired == SwapChains.ErrorOutOfDate ==>
        events == [] && written == None && gameObjects == old(gameObjects)
        && o == (if old(renderer.swapChain).SameFormats(renderer.swapChain) then Pass
                 else Fail(Exception("Swap chain image(or depth) format has changed!")))
      ensures (acquired == SwapChains.Success || acquired == SwapChains.Suboptimal) && !beginAccepted ==>
        o == Fail(Exception("failed to begin recording command buffer!")) && events == [] && gameObjects == old(gameObjects)
      ensures (acquired == SwapChains.Success || acquired == SwapChains.Suboptimal) && beginAccepted ==>
        Recorded(old(gameObjects), order, r, events, written)
        && (written == None ==> o == Fail(AssertionFailure(LightsExceeded)) && renderer.isFrameStarted)
        && (written.Some? && !recordAccepted ==> o == Fail(Exception("failed to record command buffer!")))
        && (written.Some? ==>
              o == Renderers.EndOutcome(recordAccepted, submitAccepted, presented, old(renderer.window.framebufferResized),
                                        old(renderer.swapChain).SameFormats(renderer.swapChain)))
      ensures o.Pass? && written.Some? ==>
        !renderer.isFrameStarted && renderer.currentFrameIndex == (old(renderer.currentFrameIndex) + 1) % SwapChains.MaxFramesInFlight
    {
      var begun := renderer.BeginFrame(device, acquired, imageIndex, beginAccepted);
      if begun.Err? {
        return Fail(begun.error), [], None;
      }
      if begun.value.None? {
        return Pass, [], None;
      }
      o, events, written := FinishFrame(renderer, device, begun.value.value, recordAccepted, submitAccepted, presented, order, r);
    }
  }
}
