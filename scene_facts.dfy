/** What a successful `loadScene` (src/EngineApp.cpp) guarantees about the scene it
    built: which nodes it accepted, how many objects and ids it used, and when the
    billboard render system ends up enabled. */
module SceneFacts {
  import opened Wrappers
  import opened Xml
  import opened Objects
  import opened EngineApps

  /** How many of `meshNodes` are "obj" meshes. */
  function ObjMeshCount(meshNodes: seq<Node>): nat
    decreases |meshNodes|
  {
    if meshNodes == [] then 0
    else (if IsObjMesh(meshNodes[0]) then 1 else 0) + ObjMeshCount(meshNodes[1..])
  }

  /** Some light in `lightNodes` asks for a billboard. */
  predicate SomeBillboard(lightNodes: seq<Node>) {
    exists k :: 0 <= k < |lightNodes| && DrawBillboard(lightNodes[k]) == Ok(true)
  }

  /** A mesh step that does not throw: the mesh has a type, and an "obj" mesh adds one
      new object under a fresh id, which stays within the object limit. */
  lemma MeshStepPasses(s: SceneState, meshNode: Node)
    requires Consistent(s)
    requires MeshStep(s, meshNode).outcome.Pass?
    ensures var p := MeshStep(s, meshNode);
      var added := if IsObjMesh(meshNode) then 1 else 0;
      HasAttribute(Some(meshNode), "type")
      && p.state.nextId == s.nextId + added && |p.state.objects| == |s.objects| + added
      && |p.state.objects| < MaxGameObjects
  {
    if IsObjMesh(meshNode) {
      assert s.nextId !in s.objects;
    }
  }

  /** The mesh loop keeps the scene consistent and never touches the billboard flag. When
      it does not throw, every mesh had a type, each "obj" mesh used one id and added one
      object, and the map stays within the object limit. */
  lemma {:induction false} MeshesFacts(s: SceneState, meshNodes: seq<Node>)
    requires Consistent(s)
    ensures var p := Meshes(s, meshNodes);
      Consistent(p.state) && p.state.billboards == s.billboards && s.nextId <= p.state.nextId
    ensures var p := Meshes(s, meshNodes);
      p.outcome.Pass? ==>
        (forall k :: 0 <= k < |meshNodes| ==> HasAttribute(Some(meshNodes[k]), "type"))
        && p.state.nextId == s.nextId + ObjMeshCount(meshNodes)
        && |p.state.objects| == |s.objects| + ObjMeshCount(meshNodes)
        && (meshNodes != [] ==> |p.state.objects| < MaxGameObjects)
    decreases |meshNodes|
  {
    if meshNodes != [] {
      var first := MeshStep(s, meshNodes[0]);
      MeshStepKeepsConsistent(s, meshNodes[0]);
      if first.outcome.Pass? {
        MeshStepPasses(s, meshNodes[0]);
        MeshesFacts(first.state, meshNodes[1..]);
        var p := Meshes(s, meshNodes);
        if p.outcome.Pass? {
          forall k | 0 <= k < |meshNodes|
            ensures HasAttribute(Some(meshNodes[k]), "type")
          {
            if k > 0 {
              assert meshNodes[k] == meshNodes[1..][k - 1];
            }
          }
        }
      }
    }
  }

  /** A light step that does not throw: the light loaded, so it used one id and added
      one object, within the object limit, and the billboard flag became set exactly
      when it already was or the light asks for a billboard. */
  lemma LightStepPasses(s: SceneState, lightNode: Node)
    requires Consistent(s)
    requires LightStep(s, lightNode).outcome.Pass?
    ensures var p := LightStep(s, lightNode);
      LoadCreatesObject(lightNode)
      && p.state.nextId == s.nextId + 1 && |p.state.objects| == |s.objects| + 1
      && |p.state.objects| < MaxGameObjects
      && p.state.billboards == (s.billboards || DrawBillboard(lightNode) == Ok(true))
  {
    assert s.nextId !in s.objects;
  }

  /** The light loop keeps the scene consistent and never switches billboards off. */
  lemma {:induction false} LightsKeepConsistent(s: SceneState, lightNodes: seq<Node>)
    requires Consistent(s)
    ensures var p := Lights(s, lightNodes);
      Consistent(p.state) && (s.billboards ==> p.state.billboards) && s.nextId <= p.state.nextId
    decreases |lightNodes|
  {
    if lightNodes != [] {
      LightStepKeepsConsistent(s, lightNodes[0]);
      var first := LightStep(s, lightNodes[0]);
      if first.outcome.Pass? {
        LightsKeepConsistent(first.state, lightNodes[1..]);
      }
    }
  }

  /** When the light loop does not throw, every light loaded as an object under its own
      id: one id and one object per light. */
  lemma {:induction false} LightsCount(s: SceneState, lightNodes: seq<Node>)
    requires Consistent(s)
    requires Lights(s, lightNodes).outcome.Pass?
    ensures forall k :: 0 <= k < |lightNodes| ==> LoadCreatesObject(lightNodes[k])
    ensures var p := Lights(s, lightNodes);
      p.state.nextId == s.nextId + |lightNodes| && |p.state.objects| == |s.objects| + |lightNodes|
    decreases |lightNodes|
  {
    if lightNodes != [] {
      var first := LightStep(s, lightNodes[0]);
      LightStepKeepsConsistent(s, lightNodes[0]);
      LightStepPasses(s, lightNodes[0]);
      var rest := lightNodes[1..];
      LightsCount(first.state, rest);
      forall k | 0 < k < |lightNodes|
        ensures LoadCreatesObject(lightNodes[k])
      {
        assert lightNodes[k] == rest[k - 1];
      }
    }
  }

  /** When the light loop does not throw, the billboard system is on exactly when it was
      before or some light asks for a billboard. */
  lemma {:induction false} LightsBillboards(s: SceneState, lightNodes: seq<Node>)
    requires Consistent(s)
    requires Lights(s, lightNodes).outcome.Pass?
    ensures Lights(s, lightNodes).state.billboards <==> s.billboards || SomeBillboard(lightNodes)
    decreases |lightNodes|
  {
    if lightNodes != [] {
      var first := LightStep(s, lightNodes[0]);
      LightStepKeepsConsistent(s, lightNodes[0]);
      LightStepPasses(s, lightNodes[0]);
      var rest := lightNodes[1..];
      LightsBillboards(first.state, rest);
      if SomeBillboard(rest) {
        var k :| 0 <= k < |rest| && DrawBillboard(rest[k]) == Ok(true);
        assert lightNodes[k + 1] == rest[k];
      }
      if SomeBillboard(lightNodes) && DrawBillboard(lightNodes[0]) != Ok(true) {
        var k :| 0 <= k < |lightNodes| && DrawBillboard(lightNodes[k]) == Ok(true);
        assert k > 0 && rest[k - 1] == lightNodes[k];
      }
    }
  }

  /** The meshes and lights of a scene that load: the objects are the "obj" meshes
      and the lights, each under its own id, and the billboard system is on exactly
      when it was before or a light asks for one. */
  lemma ObjectsStageFacts(sceneNode: Option<Node>, a: AppState)
    requires Consistent(SceneOf(a))
    requires ObjectsStage(sceneNode, a).0.Pass?
    ensures var b := ObjectsStage(sceneNode, a).1;
      var meshNodes := ChildrenNamed(sceneNode, "mesh");
      var lightNodes := ChildrenNamed(sceneNode, "light");
      Consistent(SceneOf(b))
      && |b.objects| == |a.objects| + ObjMeshCount(meshNodes) + |lightNodes|
      && b.nextId == a.nextId + ObjMeshCount(meshNodes) + |lightNodes|
      && (b.enabled.pointLight <==> a.enabled.pointLight || SomeBillboard(lightNodes))
      && b.camera == a.camera && b.settings == a.settings
      && b.enabled.shadowmap == a.enabled.shadowmap && b.enabled.simple == a.enabled.simple
  {
    var meshes := Meshes(SceneOf(a), ChildrenNamed(sceneNode, "mesh"));
    MeshesFacts(SceneOf(a), ChildrenNamed(sceneNode, "mesh"));
    LightsKeepConsistent(meshes.state, ChildrenNamed(sceneNode, "light"));
    LightsCount(meshes.state, ChildrenNamed(sceneNode, "light"));
    LightsBillboards(meshes.state, ChildrenNamed(sceneNode, "light"));
  }

  /** A scene that loads had exactly one scene, one render-settings node and one camera. */
  lemma LoadedSceneCounts(doc: Node, a: AppState)
    requires LoadedScene(doc, a).0.Pass?
    ensures var sceneNode := Child(Some(doc), "scene");
      |ChildrenNamed(Some(doc), "scene")| == 1 && |ChildrenNamed(sceneNode, "rendersettings")| == 1
      && |ChildrenNamed(sceneNode, "camera")| == 1
  {
    CountCheckExactlyOne(doc);
  }

  /** `b` is `a` with the render settings set, one id used for the camera, and the
      meshes and lights of `sceneNode` added as `ObjectsStageFacts` says. */
  predicate LoadedFrom(sceneNode: Option<Node>, a: AppState, b: AppState) {
    var meshNodes := ChildrenNamed(sceneNode, "mesh");
    var lightNodes := ChildrenNamed(sceneNode, "light");
    b.settings.Some? && Consistent(SceneOf(b))
    && |b.objects| == |a.objects| + ObjMeshCount(meshNodes) + |lightNodes|
    && b.nextId == a.nextId + 1 + ObjMeshCount(meshNodes) + |lightNodes|
    && (b.enabled.pointLight <==> a.enabled.pointLight || SomeBillboard(lightNodes))
    && b.enabled.shadowmap == a.enabled.shadowmap && b.enabled.simple == a.enabled.simple
  }

  /** The render settings and the camera of a scene that loads: the settings are set,
      the camera used one id, and the objects are those `a` had. */
  lemma SettingsAndCamera(sceneNode: Option<Node>, a: AppState)
    requires Consistent(SceneOf(a))
    requires SettingsStage(sceneNode, a).0.Pass?
    requires CameraStage(sceneNode, SettingsStage(sceneNode, a).1).0.Pass?
    ensures var c := CameraStage(sceneNode, SettingsStage(sceneNode, a).1).1;
      c.settings.Some? && Consistent(SceneOf(c)) && c.objects == a.objects
      && c.nextId == a.nextId + 1 && c.enabled == a.enabled
  {
    var settings := SettingsStage(sceneNode, a);
    MoreIdsKeepConsistent(SceneOf(settings.1));
  }

  /** A scene that loads sets the render settings, uses one id for the camera, and adds
      the meshes and lights as `ObjectsStageFacts` says. */
  lemma LoadedSceneFacts(doc: Node, a: AppState)
    requires Consistent(SceneOf(a))
    requires LoadedScene(doc, a).0.Pass?
    ensures LoadedFrom(Child(Some(doc), "scene"), a, LoadedScene(doc, a).1)
  {
    CountCheckExactlyOne(doc);
    var sceneNode := Child(Some(doc), "scene");
    var c := CameraStage(sceneNode, SettingsStage(sceneNode, a).1).1;
    SettingsAndCamera(sceneNode, a);
    ObjectsStageFacts(sceneNode, c);
  }

  /** A document that fails the count checks leaves the application untouched. */
  lemma FailedCountsChangeNothing(doc: Node, a: AppState)
    requires CountCheck(doc).Fail?
    ensures LoadedScene(doc, a) == (CountCheck(doc), a)
  {
  }
}
