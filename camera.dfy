/** Camera loading from a scene's `camera` node (src/Camera.cpp and its older copy
    src/OmniVCamera.cpp), and the choice of view and projection made each frame.

    Matrices are not modelled: the field of view is kept in the degrees the scene
    gives (the source stores `glm::radians` of it), and `updateMatricesValues` is
    modelled by which view and projection setter it calls.
*/
module Cameras {
  import opened Wrappers
  import opened Xml
  import opened Common
  import opened Objects

  datatype ProjectionType = Perspective | Orthographic

  datatype Camera = Camera(
    viewer: GameObject,
    near: real,
    far: real,
    projection: ProjectionType,
    fovYDegrees: real,
    left: real,
    right: real,
    bottom: real,
    top: real,
    useTarget: bool,
    target: Vec3,
    up: Vec3)

  /** `Camera{}`: the member defaults, around a freshly created viewer object. */
  function DefaultCamera(viewer: GameObject): (c: Camera)
    ensures c.viewer == viewer && c.near == 0.1 && c.far == 100.0
    ensures c.projection == Perspective && c.fovYDegrees == 50.0
    ensures c.left == 1.0 && c.right == 1.0 && c.bottom == 1.0 && c.top == 1.0
    ensures !c.useTarget && c.target == Vec3(0.0, 0.0, 0.0) && c.up == Vec3(0.0, -1.0, 0.0)
  {
    Camera(viewer, 0.1, 100.0, Perspective, 50.0, 1.0, 1.0, 1.0, 1.0, false, Vec3(0.0, 0.0, 0.0), Vec3(0.0, -1.0, 0.0))
  }

  /** The `value` of the child whose `name` attribute is `name`, or `current` without one. */
  function NamedValue(cameraNode: Node, name: string, current: real): (r: Result<real>)
    ensures FindChildByAttribute(Some(cameraNode), "name", name).None? ==> r == Ok(current)
    ensures var child := FindChildByAttribute(Some(cameraNode), "name", name);
      child.Some? ==> r == ToFloat(AttributeValue(child, "value"))
  {
    var child := FindChildByAttribute(Some(cameraNode), "name", name);
    if child.Some? then ToFloat(AttributeValue(child, "value")) else Ok(current)
  }

  /** The projection settings of a camera: its type, field of view and orthographic planes. */
  predicate SameProjection(a: Camera, b: Camera) {
    a.projection == b.projection && a.fovYDegrees == b.fovYDegrees
    && a.left == b.left && a.right == b.right && a.bottom == b.bottom && a.top == b.top
  }

  /** The projection part of both loaders: "perspective" reads the field of view (50
      degrees without a fov child); "orthographic" overwrites each clip plane that is
      given; any other type keeps every default. Nothing else changes. */
  function ReadProjection(cameraNode: Node, camera: Camera): (r: Result<Camera>)
    ensures r.Ok? ==> r.value.(projection := camera.projection, fovYDegrees := camera.fovYDegrees,
                               left := camera.left, right := camera.right, bottom := camera.bottom, top := camera.top) == camera
    ensures r.Ok? && AttributeValue(Some(cameraNode), "type") == "perspective" ==>
      r.value.projection == Perspective && NamedValue(cameraNode, "fov", 50.0) == Ok(r.value.fovYDegrees)
      && SameProjection(r.value.(projection := camera.projection, fovYDegrees := camera.fovYDegrees), camera)
    ensures r.Ok? && AttributeValue(Some(cameraNode), "type") == "orthographic" ==>
      r.value.projection == Orthographic && r.value.fovYDegrees == camera.fovYDegrees
      && NamedValue(cameraNode, "left", camera.left) == Ok(r.value.left)
      && NamedValue(cameraNode, "right", camera.right) == Ok(r.value.right)
      && NamedValue(cameraNode, "bottom", camera.bottom) == Ok(r.value.bottom)
      && NamedValue(cameraNode, "top", camera.top) == Ok(r.value.top)
    ensures AttributeValue(Some(cameraNode), "type") != "perspective" && AttributeValue(Some(cameraNode), "type") != "orthographic" ==>
      r == Ok(camera)
    ensures AttributeValue(Some(cameraNode), "type") == "perspective" ==>
      (r.Ok? <==> NamedValue(cameraNode, "fov", 50.0).Ok?)
    ensures AttributeValue(Some(cameraNode), "type") == "orthographic" ==>
      (r.Ok? <==> NamedValue(cameraNode, "left", camera.left).Ok? && NamedValue(cameraNode, "right", camera.right).Ok?
                  && NamedValue(cameraNode, "bottom", camera.bottom).Ok? && NamedValue(cameraNode, "top", camera.top).Ok?)
  {
    var kind := AttributeValue(Some(cameraNode), "type");
    if kind == "perspective" then
      var fov :- NamedValue(cameraNode, "fov", 50.0);
      Ok(camera.(projection := Perspective, fovYDegrees := fov))
    else if kind == "orthographic" then
      var left :- NamedValue(cameraNode, "left", camera.left);
      var right :- NamedValue(cameraNode, "right", camera.right);
      var bottom :- NamedValue(cameraNode, "bottom", camera.bottom);
      var top :- NamedValue(cameraNode, "top", camera.top);
      Ok(camera.(projection := Orthographic, left := left, right := right, bottom := bottom, top := top))
    else Ok(camera)
  }

  /** The number of `lookat` children of the camera's `transform` child. */
  function LookAtCount(cameraNode: Node): nat {
    |ChildrenNamed(Child(Some(cameraNode), "transform"), "lookat")|
  }

  /** The lookat node, when there is one. */
  function LookAtNode(cameraNode: Node): (r: Option<Node>)
    ensures r.Some? <==> LookAtCount(cameraNode) > 0
  {
    Child(Child(Some(cameraNode), "transform"), "lookat")
  }

  /** The transform part of both loaders: `useTarget` records whether there is exactly
      one lookat; without a lookat the transform children place the viewer; more than
      one throws. Only the viewer's transform and `useTarget` change. */
  function ReadTransform(cameraNode: Node, camera: Camera): (r: Result<Camera>)
    ensures LookAtCount(cameraNode) > 1 ==> r == Err(Exception("More than 1 lookAt defined for the camera"))
    ensures r.Ok? ==> (LookAtCount(cameraNode) <= 1
      && r.value.useTarget == (LookAtCount(cameraNode) == 1)
      && r.value == camera.(useTarget := r.value.useTarget, viewer := camera.viewer.(transform := r.value.viewer.transform))
      && (LookAtCount(cameraNode) == 1 ==> r.value.viewer == camera.viewer))
    ensures LookAtCount(cameraNode) == 1 ==> r.Ok?
    ensures var children := Children(Child(Some(cameraNode), "transform"));
      LookAtCount(cameraNode) == 0 ==>
        (r.Ok? <==> WellFormedTransform(children))
        && (r.Ok? ==> ApplyChildren(camera.viewer.transform, children) == Ok(r.value.viewer.transform))
  {
    var count := LookAtCount(cameraNode);
    var camera := camera.(useTarget := count == 1);
    var camera :-
      if count == 0 then
        var t :- ApplyChildren(camera.viewer.transform, Children(Child(Some(cameraNode), "transform")));
        Ok(camera.(viewer := camera.viewer.(transform := t)))
      else Ok(camera);
    if count > 1 then Err(Exception("More than 1 lookAt defined for the camera"))
    else Ok(camera)
  }

  /** A vector attribute of the lookat node, or `current` when it is absent. */
  function VectorAttribute(lookat: Node, name: string, current: Vec3): (r: Result<Vec3>)
    ensures !HasAttribute(Some(lookat), name) ==> r == Ok(current)
  {
    if HasAttribute(Some(lookat), name) then ToVector3f(AttributeValue(Some(lookat), name)) else Ok(current)
  }

  /** The lookat part of `loadCameraFromNode`: `target` and `origin` (the viewer's
      position) must both be present, `up` is optional. */
  function ReadLookAt(lookat: Node, camera: Camera): (r: Result<Camera>)
    ensures r.Ok? ==> (HasAttribute(Some(lookat), "target") && HasAttribute(Some(lookat), "origin")
      && ToVector3f(AttributeValue(Some(lookat), "target")) == Ok(r.value.target)
      && ToVector3f(AttributeValue(Some(lookat), "origin")) == Ok(r.value.viewer.transform.position)
      && r.value == camera.(target := r.value.target, up := r.value.up,
                            viewer := camera.viewer.(transform := camera.viewer.transform.(position := r.value.viewer.transform.position))))
    ensures !HasAttribute(Some(lookat), "target") && !HasAttribute(Some(lookat), "origin") && !HasAttribute(Some(lookat), "up") ==>
      r == Err(Exception("LookAt not fully defined or malformed"))
    ensures r.Ok? <==>
      HasAttribute(Some(lookat), "target") && HasAttribute(Some(lookat), "origin")
      && ToVector3f(AttributeValue(Some(lookat), "target")).Ok? && ToVector3f(AttributeValue(Some(lookat), "origin")).Ok?
      && (HasAttribute(Some(lookat), "up") ==> ToVector3f(AttributeValue(Some(lookat), "up")).Ok?)
    ensures r.Ok? ==> VectorAttribute(lookat, "up", camera.up) == Ok(r.value.up)
  {
    var target :- VectorAttribute(lookat, "target", camera.target);
    var origin :- VectorAttribute(lookat, "origin", camera.viewer.transform.position);
    var up :- VectorAttribute(lookat, "up", camera.up);
    if !HasAttribute(Some(lookat), "target") || !HasAttribute(Some(lookat), "origin") then
      Err(Exception("LookAt not fully defined or malformed"))
    else
      Ok(camera.(target := target, up := up,
                 viewer := camera.viewer.(transform := camera.viewer.transform.(position := origin))))
  }

  /** The lookat stage: read the lookat node when there is one. */
  function LookAtStage(cameraNode: Node, camera: Camera): (r: Result<Camera>)
    ensures r.Ok? ==> (SameProjection(r.value, camera) && r.value.useTarget == camera.useTarget
      && r.value.near == camera.near && r.value.far == camera.far)
    ensures LookAtNode(cameraNode).None? ==> r == Ok(camera)
  {
    var lookat := LookAtNode(cameraNode);
    if lookat.Some? then ReadLookAt(lookat.value, camera) else Ok(camera)
  }

  /** The clipping-plane part of both loaders, as written: with a `clip` child, the
      values named "far" and then "near" (searched among the camera node's own
      children) are both stored in `far`; `near` is never assigned. */
  function ReadClipAsWritten(cameraNode: Node, camera: Camera): (r: Result<Camera>)
    ensures r.Ok? ==> r.value == camera.(far := r.value.far)
    ensures Child(Some(cameraNode), "clip").None? ==> r == Ok(camera)
  {
    if Child(Some(cameraNode), "clip").None? then Ok(camera)
    else
      var far :- NamedValue(cameraNode, "far", camera.far);
      var far' :- NamedValue(cameraNode, "near", far);
      Ok(camera.(far := far'))
  }

  /** The clipping-plane part of both loaders with the value named "near" stored in
      `near`: with a `clip` child, each plane that is given is read into its own field. */
  function ReadClip(cameraNode: Node, camera: Camera): (r: Result<Camera>)
    ensures r.Ok? ==> r.value == camera.(near := r.value.near, far := r.value.far)
    ensures Child(Some(cameraNode), "clip").None? ==> r == Ok(camera)
  {
    if Child(Some(cameraNode), "clip").None? then Ok(camera)
    else
      var far :- NamedValue(cameraNode, "far", camera.far);
      var near :- NamedValue(cameraNode, "near", camera.near);
      Ok(camera.(near := near, far := far))
  }

  /** As written, a "near" value never reaches `near`: it replaces whatever "far" gave. */
  lemma NearClipLandsInFar(cameraNode: Node, camera: Camera)
    requires Child(Some(cameraNode), "clip").Some?
    requires FindChildByAttribute(Some(cameraNode), "name", "near").Some?
    requires ReadClipAsWritten(cameraNode, camera).Ok?
    ensures var c := ReadClipAsWritten(cameraNode, camera).value;
      c.near == camera.near
      && ToFloat(AttributeValue(FindChildByAttribute(Some(cameraNode), "name", "near"), "value")) == Ok(c.far)
  {
  }

  /** With the fix, the clip stage succeeds exactly when each given plane reads as a
      float, and then each plane holds its own value, or keeps its old one when absent. */
  lemma ClipPlanesRead(cameraNode: Node, camera: Camera)
    requires Child(Some(cameraNode), "clip").Some?
    ensures var r := ReadClip(cameraNode, camera);
      var farValue := NamedValue(cameraNode, "far", camera.far);
      var nearValue := NamedValue(cameraNode, "near", camera.near);
      (r.Ok? <==> farValue.Ok? && nearValue.Ok?)
      && (r.Ok? ==> farValue == Ok(r.value.far) && nearValue == Ok(r.value.near))
      && (r.Ok? && FindChildByAttribute(Some(cameraNode), "name", "near").Some? ==>
            ToFloat(AttributeValue(FindChildByAttribute(Some(cameraNode), "name", "near"), "value")) == Ok(r.value.near))
      && (r.Ok? && FindChildByAttribute(Some(cameraNode), "name", "far").None? ==> r.value.far == camera.far)
  {
  }

  /** `Camera::loadCameraFromNode` when the viewer object gets id `viewerId`. */
  function LoadedCamera(cameraNode: Node, viewerId: nat): Result<Camera> {
    var camera :- ReadProjection(cameraNode, DefaultCamera(NewObject(viewerId)));
    var camera :- ReadTransform(cameraNode, camera);
    var camera :- LookAtStage(cameraNode, camera);
    ReadClip(cameraNode, camera)
  }

  /** The lookat stage of `loadCameraFromNode`, counting the two required values. */
  method LoadLookAt(lookat: Node, camera: Camera) returns (r: Result<Camera>)
    ensures r == ReadLookAt(lookat, camera)
  {
    var camera := camera;
    var valueCounter := 0;
    if HasAttribute(Some(lookat), "target") {
      var target :- ToVector3f(AttributeValue(Some(lookat), "target"));
      camera := camera.(target := target);
      valueCounter := valueCounter + 1;
    }
    if HasAttribute(Some(lookat), "origin") {
      var origin :- ToVector3f(AttributeValue(Some(lookat), "origin"));
      camera := camera.(viewer := camera.viewer.(transform := camera.viewer.transform.(position := origin)));
      valueCounter := valueCounter + 1;
    }
    if HasAttribute(Some(lookat), "up") {
      var up :- ToVector3f(AttributeValue(Some(lookat), "up"));
      camera := camera.(up := up);
    }
    if valueCounter != 2 {
      return Err(Exception("LookAt not fully defined or malformed"));
    }
    return Ok(camera);
  }

  /** The clip stage shared by both loaders, storing the "near" value in `near`. */
  method LoadClip(cameraNode: Node, camera: Camera) returns (r: Result<Camera>)
    ensures r == ReadClip(cameraNode, camera)
  {
    var camera := camera;
    if Child(Some(cameraNode), "clip").Some? {
      var farNode := FindChildByAttribute(Some(cameraNode), "name", "far");
      if farNode.Some? {
        var far :- ToFloat(AttributeValue(farNode, "value"));
        camera := camera.(far := far);
      }
      var nearNode := FindChildByAttribute(Some(cameraNode), "name", "near");
      if nearNode.Some? {
        var near :- ToFloat(AttributeValue(nearNode, "value"));
        camera := camera.(near := near);
      }
    }
    return Ok(camera);
  }

  /** The transform stage shared by both loaders. */
  method LoadTransform(cameraNode: Node, camera: Camera) returns (r: Result<Camera>)
    ensures r == ReadTransform(cameraNode, camera)
  {
    var camera := camera;
    var transformNode := Child(Some(cameraNode), "transform");
    var count := |ChildrenNamed(transformNode, "lookat")|;
    camera := camera.(useTarget := count == 1);
    if count == 0 {
      var t :- InitializeFromNode(transformNode, camera.viewer.transform);
      camera := camera.(viewer := camera.viewer.(transform := t));
    }
    if count > 1 {
      return Err(Exception("More than 1 lookAt defined for the camera"));
    }
    return Ok(camera);
  }

  /** `loadCameraFromNode`: builds a default camera (creating its viewer object), then
      sets its fields one source branch at a time. */
  method LoadCameraFromNode(ids: IdAllocator, cameraNode: Node) returns (r: Result<Camera>)
    requires ids.Valid()
    modifies ids
    ensures ids.Valid() && ids.currentId == old(ids.currentId) + 1
    ensures r == LoadedCamera(cameraNode, old(ids.currentId))
  {
    var viewer := ids.CreateGameObject();
    var camera := DefaultCamera(viewer);
    camera :- ReadProjection(cameraNode, camera);
    camera :- LoadTransform(cameraNode, camera);
    var lookatNode := LookAtNode(cameraNode);
    if lookatNode.Some? {
      camera :- LoadLookAt(lookatNode.value, camera);
    }
    r := LoadClip(cameraNode, camera);
  }

  /** `OmniVCamera::makeCameraFromNode` when the viewer object gets id `viewerId`: the
      same as `loadCameraFromNode` except that any lookat throws. */
  function MadeCamera(cameraNode: Node, viewerId: nat): Result<Camera> {
    var camera :- ReadProjection(cameraNode, DefaultCamera(NewObject(viewerId)));
    var camera :- ReadTransform(cameraNode, camera);
    if LookAtNode(cameraNode).Some? then Err(Exception("Unfinished behavioiur"))
    else ReadClip(cameraNode, camera)
  }

  /** `makeCameraFromNode` (src/OmniVCamera.cpp). */
  method MakeCameraFromNode(ids: IdAllocator, cameraNode: Node) returns (r: Result<Camera>)
    requires ids.Valid()
    modifies ids
    ensures ids.Valid() && ids.currentId == old(ids.currentId) + 1
    ensures r == MadeCamera(cameraNode, old(ids.currentId))
  {
    var viewer := ids.CreateGameObject();
    var camera := DefaultCamera(viewer);
    camera :- ReadProjection(cameraNode, camera);
    camera :- LoadTransform(cameraNode, camera);
    if LookAtNode(cameraNode).Some? {
      return Err(Exception("Unfinished behavioiur"));
    }
    r := LoadClip(cameraNode, camera);
  }

  // ---------------------------------------------------------------------------
  // Properties of the loaders
  // ---------------------------------------------------------------------------

  /** A perspective camera's field of view is the fov child's value, 50 degrees without one. */
  lemma PerspectiveFov(cameraNode: Node, viewerId: nat)
    requires AttributeValue(Some(cameraNode), "type") == "perspective"
    requires LoadedCamera(cameraNode, viewerId).Ok?
    ensures var c := LoadedCamera(cameraNode, viewerId).value;
      c.projection == Perspective
      && NamedValue(cameraNode, "fov", 50.0) == Ok(c.fovYDegrees)
      && (FindChildByAttribute(Some(cameraNode), "name", "fov").None? ==> c.fovYDegrees == 50.0)
      && c.left == 1.0 && c.right == 1.0 && c.bottom == 1.0 && c.top == 1.0
  {
  }

  /** An orthographic camera takes each clip plane that is given and keeps 1 for the others. */
  lemma OrthographicPlanes(cameraNode: Node, viewerId: nat)
    requires AttributeValue(Some(cameraNode), "type") == "orthographic"
    requires LoadedCamera(cameraNode, viewerId).Ok?
    ensures var c := LoadedCamera(cameraNode, viewerId).value;
      c.projection == Orthographic && c.fovYDegrees == 50.0
      && NamedValue(cameraNode, "left", 1.0) == Ok(c.left)
      && NamedValue(cameraNode, "right", 1.0) == Ok(c.right)
      && NamedValue(cameraNode, "bottom", 1.0) == Ok(c.bottom)
      && NamedValue(cameraNode, "top", 1.0) == Ok(c.top)
  {
  }

  /** Any other type keeps every projection default. */
  lemma OtherTypeKeepsDefaults(cameraNode: Node, viewerId: nat)
    requires AttributeValue(Some(cameraNode), "type") != "perspective"
    requires AttributeValue(Some(cameraNode), "type") != "orthographic"
    requires LoadedCamera(cameraNode, viewerId).Ok?
    ensures var c := LoadedCamera(cameraNode, viewerId).value;
      c.projection == Perspective && c.fovYDegrees == 50.0
      && c.left == 1.0 && c.right == 1.0 && c.bottom == 1.0 && c.top == 1.0
  {
  }

  /** Two or more lookat children throw (once the projection has been read). */
  lemma TooManyLookAts(cameraNode: Node, viewerId: nat)
    requires ReadProjection(cameraNode, DefaultCamera(NewObject(viewerId))).Ok?
    requires LookAtCount(cameraNode) > 1
    ensures LoadedCamera(cameraNode, viewerId) == Err(Exception("More than 1 lookAt defined for the camera"))
    ensures MadeCamera(cameraNode, viewerId) == Err(Exception("More than 1 lookAt defined for the camera"))
  {
  }

  /** `useTarget` holds exactly when there is one lookat; the transform children are
      read only when there is none. */
  lemma LookAtDecidesTarget(cameraNode: Node, viewerId: nat)
    requires LoadedCamera(cameraNode, viewerId).Ok?
    ensures var c := LoadedCamera(cameraNode, viewerId).value;
      c.useTarget <==> LookAtCount(cameraNode) == 1
    ensures LookAtCount(cameraNode) <= 1
  {
  }

  /** With a lookat, the camera loads only when both `target` and `origin` are given;
      the viewer then stands at `origin`. */
  lemma LookAtNeedsTargetAndOrigin(cameraNode: Node, viewerId: nat)
    requires LookAtCount(cameraNode) == 1
    requires LoadedCamera(cameraNode, viewerId).Ok?
    ensures var lookat := LookAtNode(cameraNode);
      var c := LoadedCamera(cameraNode, viewerId).value;
      HasAttribute(lookat, "target") && HasAttribute(lookat, "origin")
      && ToVector3f(AttributeValue(lookat, "target")) == Ok(c.target)
      && ToVector3f(AttributeValue(lookat, "origin")) == Ok(c.viewer.transform.position)
  {
  }

  /** A lookat with neither target, origin nor up attribute throws. */
  lemma EmptyLookAtFails(cameraNode: Node, viewerId: nat)
    requires ReadProjection(cameraNode, DefaultCamera(NewObject(viewerId))).Ok?
    requires LookAtCount(cameraNode) == 1
    requires var lookat := LookAtNode(cameraNode);
      !HasAttribute(lookat, "target") && !HasAttribute(lookat, "origin") && !HasAttribute(lookat, "up")
    ensures LoadedCamera(cameraNode, viewerId) == Err(Exception("LookAt not fully defined or malformed"))
  {
  }

  /** The older loader rejects every lookat, so none of its cameras targets a point. */
  lemma OlderLoaderRejectsLookAt(cameraNode: Node, viewerId: nat)
    requires ReadProjection(cameraNode, DefaultCamera(NewObject(viewerId))).Ok?
    requires LookAtCount(cameraNode) == 1
    ensures MadeCamera(cameraNode, viewerId) == Err(Exception("Unfinished behavioiur"))
  {
  }

  /** Without a clip child the planes keep their defaults (0.1 and 100); with one,
      each plane that is named among the camera node's children takes that value. */
  predicate ClipPlanesFrom(cameraNode: Node, c: Camera) {
    var nearNode := FindChildByAttribute(Some(cameraNode), "name", "near");
    var farNode := FindChildByAttribute(Some(cameraNode), "name", "far");
    (Child(Some(cameraNode), "clip").None? ==> c.near == 0.1 && c.far == 100.0)
    && (Child(Some(cameraNode), "clip").Some? ==>
          (if nearNode.Some? then ToFloat(AttributeValue(nearNode, "value")) == Ok(c.near) else c.near == 0.1)
          && (if farNode.Some? then ToFloat(AttributeValue(farNode, "value")) == Ok(c.far) else c.far == 100.0))
  }

  /** A loaded camera's clipping planes are the ones the scene gives. */
  lemma LoadedClipPlanes(cameraNode: Node, viewerId: nat)
    requires LoadedCamera(cameraNode, viewerId).Ok?
    ensures ClipPlanesFrom(cameraNode, LoadedCamera(cameraNode, viewerId).value)
  {
    var c1 := ReadProjection(cameraNode, DefaultCamera(NewObject(viewerId))).value;
    var c2 := ReadTransform(cameraNode, c1).value;
    var c3 := LookAtStage(cameraNode, c2).value;
    assert LoadedCamera(cameraNode, viewerId) == ReadClip(cameraNode, c3);
    assert c3.near == 0.1 && c3.far == 100.0;
  }

  /** The same holds for the older loader, whose cameras never target a point. */
  lemma OlderClipPlanes(cameraNode: Node, viewerId: nat)
    requires MadeCamera(cameraNode, viewerId).Ok?
    ensures var c := MadeCamera(cameraNode, viewerId).value;
      ClipPlanesFrom(cameraNode, c) && !c.useTarget
  {
    var c1 := ReadProjection(cameraNode, DefaultCamera(NewObject(viewerId))).value;
    var c2 := ReadTransform(cameraNode, c1).value;
    assert MadeCamera(cameraNode, viewerId) == ReadClip(cameraNode, c2);
    assert c2.near == 0.1 && c2.far == 100.0;
  }

  // ---------------------------------------------------------------------------
  // updateMatricesValues
  // ---------------------------------------------------------------------------

  datatype ViewSetter = ViewTarget | ViewYXZ

  /** The setters `Camera::updateMatricesValues` calls: the target view when
      `useTarget` is set, else the YXZ view, and the projection of the camera's type. */
  function MatrixSetters(c: Camera): (r: (ViewSetter, ProjectionType))
    ensures r.0 == ViewTarget <==> c.useTarget
    ensures r.1 == c.projection
  {
    (if c.useTarget then ViewTarget else ViewYXZ, c.projection)
  }

  /** The setters `OmniVCamera::updateMatricesValues` calls: always the YXZ view. */
  function OlderMatrixSetters(c: Camera): (r: (ViewSetter, ProjectionType))
    ensures r.0 == ViewYXZ
    ensures r.1 == c.projection
  {
    (ViewYXZ, c.projection)
  }

  /** A camera loaded with a lookat is drawn from the target view. */
  lemma LookAtCameraUsesTargetView(cameraNode: Node, viewerId: nat)
    requires LookAtCount(cameraNode) == 1
    requires LoadedCamera(cameraNode, viewerId).Ok?
    ensures MatrixSetters(LoadedCamera(cameraNode, viewerId).value).0 == ViewTarget
  {
  }
}
