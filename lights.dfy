/** The per-frame light upload (`EngineApp::updateLights`, src/EngineApp.cpp, with the
    `Light` and `GlobalUbo` records of src/FrameInfo.hpp): the scene's objects are
    visited in the order their `unordered_map` iterates, each directional and each
    point component takes the next slot of the fixed light array, and point lights are
    first turned a little about the vertical axis (`ROTATE_LIGHTS` is 1), in the scene
    itself.

    Two versions of the capacity check are modelled. As written, the debug assertion
    `lightIndex < MAX_LIGHTS` sits at the top of every object iteration, so it fails on
    any object visited once the ten slots are full, even one without lights, and it
    does not guard the second write of an object with both components
    (`UploadAsWritten`). The corrected check asserts a free slot before each write
    (`UploadChecked`), which the method `UploadLights` implements.

    The rotation's angle is `0.5 * frameTime`; its cosine and sine are given, since
    trigonometry is not modelled.
*/
module LightUploads {
  import opened Wrappers
  import opened Common
  import opened Objects

  /** `MAX_LIGHTS`. */
  const MaxLights: nat := 10

  const LightsExceeded: string := "Exceeded maximum number of lights in scene"

  datatype LightType = Directional | Point

  /** One slot of the uniform buffer's light array; for a directional light the
      position holds the direction, and `color.w` is the intensity. */
  datatype Light = Light(kind: LightType, position: Vec4, color: Vec4, radius: real)

  /** `Light{}`: directional, zero vectors, radius 0.1. */
  const DefaultLight: Light := Light(Directional, Vec4(0.0, 0.0, 0.0, 0.0), Vec4(0.0, 0.0, 0.0, 0.0), 0.1)

  /** The part of `GlobalUbo` that the light upload fills. The view, projection and
      cascade matrices are not modelled. */
  class GlobalUbo {
    var ambientLight: Vec4
    const lights: array<Light>
    var numLights: int

    /** `GlobalUbo ubo;`: the ambient default and `MAX_LIGHTS` default lights. */
    constructor()
      ensures ambientLight == Vec4(1.0, 1.0, 1.0, 0.02)
      ensures fresh(lights) && lights.Length == MaxLights
      ensures forall k :: 0 <= k < lights.Length ==> lights[k] == DefaultLight
    {
      ambientLight := Vec4(1.0, 1.0, 1.0, 0.02);
      lights := new Light[MaxLights](_ => DefaultLight);
      numLights := 0;
    }
  }

  // ---------------------------------------------------------------------------
  // The rotation of point lights
  // ---------------------------------------------------------------------------

  /** `glm::rotate(mat4(1), angle, {0, -1, 0})`, given by the cosine and sine of the angle. */
  datatype Rotation = Rotation(cos: real, sin: real)

  predicate IsRotation(r: Rotation) {
    r.cos * r.cos + r.sin * r.sin == 1.0
  }

  /** A point with w = 1 through the rotation about -Y. */
  function Rotate(r: Rotation, p: Vec3): Vec3 {
    Vec3(p.x * r.cos - p.z * r.sin, p.y, p.x * r.sin + p.z * r.cos)
  }

  /** The rotation by the opposite angle. */
  function Inverse(r: Rotation): Rotation {
    Rotation(r.cos, -r.sin)
  }

  /** Turning back by the same angle restores the position. */
  lemma RotateRoundTrip(r: Rotation, p: Vec3)
    requires IsRotation(r)
    ensures Rotate(Inverse(r), Rotate(r, p)) == p
  {
    var q := Rotate(r, p);
    calc {
      q.x * r.cos + q.z * r.sin;
      (p.x * r.cos - p.z * r.sin) * r.cos + (p.x * r.sin + p.z * r.cos) * r.sin;
      p.x * (r.cos * r.cos + r.sin * r.sin);
      p.x;
    }
    calc {
      q.z * r.cos - q.x * r.sin;
      (p.x * r.sin + p.z * r.cos) * r.cos - (p.x * r.cos - p.z * r.sin) * r.sin;
      p.z * (r.cos * r.cos + r.sin * r.sin);
      p.z;
    }
  }

  /** A light keeps its height and its distance from the vertical axis: it stays on its orbit. */
  lemma RotateKeepsOrbit(r: Rotation, p: Vec3)
    requires IsRotation(r)
    ensures var q := Rotate(r, p);
      q.y == p.y && q.x * q.x + q.z * q.z == p.x * p.x + p.z * p.z
  {
    var q := Rotate(r, p);
    calc {
      q.x * q.x + q.z * q.z;
      (p.x * r.cos - p.z * r.sin) * (p.x * r.cos - p.z * r.sin) + (p.x * r.sin + p.z * r.cos) * (p.x * r.sin + p.z * r.cos);
      (p.x * p.x + p.z * p.z) * (r.cos * r.cos + r.sin * r.sin);
      p.x * p.x + p.z * p.z;
    }
  }

  /** An object as the upload leaves it: a point light has been turned, anything else
      is untouched. */
  function Moved(obj: GameObject, r: Rotation): (m: GameObject)
    ensures m.id == obj.id && m.color == obj.color && m.model == obj.model
    ensures m.directionalLight == obj.directionalLight && m.pointLight == obj.pointLight
    ensures m.transform.scale == obj.transform.scale && m.transform.rotation == obj.transform.rotation
    ensures obj.pointLight.None? ==> m == obj
  {
    if obj.pointLight.Some? then obj.(transform := obj.transform.(position := Rotate(r, obj.transform.position)))
    else obj
  }

  // ---------------------------------------------------------------------------
  // What each object writes
  // ---------------------------------------------------------------------------

  /** The writes into one slot: a directional light keeps the slot's old radius. */
  datatype LightWrite =
    | DirectionalWrite(position: Vec4, color: Vec4)
    | PointWrite(position: Vec4, color: Vec4, radius: real)

  /** The directional write: the direction with w = 0, the color with w = the intensity. */
  function DirectionalWriteOf(obj: GameObject): LightWrite
    requires obj.directionalLight.Some?
  {
    var d := obj.directionalLight.value.direction;
    DirectionalWrite(Vec4(d.x, d.y, d.z, 0.0),
                     Vec4(obj.color.x, obj.color.y, obj.color.z, obj.directionalLight.value.intensity))
  }

  /** The point write: the position with w = 1, the color with w = the intensity and the
      x scale as radius. */
  function PointWriteOf(obj: GameObject): LightWrite
    requires obj.pointLight.Some?
  {
    var p := obj.transform.position;
    PointWrite(Vec4(p.x, p.y, p.z, 1.0), Vec4(obj.color.x, obj.color.y, obj.color.z, obj.pointLight.value.intensity),
               obj.transform.scale.x)
  }

  /** How many light components an object has. */
  function LightCountOf(obj: GameObject): nat {
    (if obj.directionalLight.Some? then 1 else 0) + (if obj.pointLight.Some? then 1 else 0)
  }

  /** The writes of an object already moved: its directional light, then its point light. */
  function WritesOf(obj: GameObject): (ws: seq<LightWrite>)
    ensures |ws| == LightCountOf(obj)
  {
    (if obj.directionalLight.Some? then [DirectionalWriteOf(obj)] else [])
    + (if obj.pointLight.Some? then [PointWriteOf(obj)] else [])
  }

  /** A slot after a write. */
  function Apply(w: LightWrite, slot: Light): Light {
    match w
    case DirectionalWrite(position, color) => Light(Directional, position, color, slot.radius)
    case PointWrite(position, color, radius) => Light(Point, position, color, radius)
  }

  /** Every id of `order` is a key of `objects`, and none is repeated. */
  predicate Visitable(objects: map<nat, GameObject>, order: seq<nat>) {
    (forall i :: 0 <= i < |order| ==> order[i] in objects)
    && (forall i, j :: 0 <= i < j < |order| ==> order[i] != order[j])
  }

  /** The iteration order of the object map: each key exactly once. */
  predicate IterationOrder(objects: map<nat, GameObject>, order: seq<nat>) {
    Visitable(objects, order) && |order| == |objects|
  }

  /** How many light components the objects of `order` have. */
  function LightCount(objects: map<nat, GameObject>, order: seq<nat>): nat
    requires forall i :: 0 <= i < |order| ==> order[i] in objects
    decreases |order|
  {
    if order == [] then 0 else LightCountOf(objects[order[0]]) + LightCount(objects, order[1..])
  }

  /** The writes of the scene in visiting order. */
  function SceneWrites(objects: map<nat, GameObject>, order: seq<nat>, r: Rotation): seq<LightWrite>
    requires forall i :: 0 <= i < |order| ==> order[i] in objects
    decreases |order|
  {
    if order == [] then [] else WritesOf(Moved(objects[order[0]], r)) + SceneWrites(objects, order[1..], r)
  }

  /** The scene once every visited point light has been turned. */
  function MovedScene(objects: map<nat, GameObject>, order: seq<nat>, r: Rotation): map<nat, GameObject> {
    map id | id in objects :: if id in order then Moved(objects[id], r) else objects[id]
  }

  /** `slots` once the writes `ws` have filled the slots from `from` on. */
  function Uploaded(slots: seq<Light>, from: nat, ws: seq<LightWrite>): seq<Light>
    requires from + |ws| <= |slots|
  {
    seq(|slots|, k requires 0 <= k < |slots| =>
      if from <= k < from + |ws| then Apply(ws[k - from], slots[k]) else slots[k])
  }

  // ---------------------------------------------------------------------------
  // The upload loop
  // ---------------------------------------------------------------------------

  /** The loop's state: the scene, the light array and `lightIndex`. */
  datatype Upload = Upload(objects: map<nat, GameObject>, slots: seq<Light>, count: nat)

  datatype UploadProgress = UploadProgress(upload: Upload, outcome: Outcome)

  /** A write into the next slot. */
  function Fill(u: Upload, w: LightWrite): (v: Upload)
    requires u.count < |u.slots|
    ensures |v.slots| == |u.slots| && v.objects == u.objects
  {
    u.(slots := u.slots[u.count := Apply(w, u.slots[u.count])], count := u.count + 1)
  }

  /** The corrected write: the assertion that a slot is free comes first. */
  function CheckedFill(u: Upload, w: LightWrite): (p: UploadProgress)
    requires |u.slots| == MaxLights
    ensures |p.upload.slots| == MaxLights && p.upload.objects == u.objects
  {
    if u.count < MaxLights then UploadProgress(Fill(u, w), Pass)
    else UploadProgress(u, Fail(AssertionFailure(LightsExceeded)))
  }

  /** One object, corrected: each write asserts a free slot; a point light is turned
      before its write. */
  function VisitChecked(u: Upload, id: nat, r: Rotation): (p: UploadProgress)
    requires id in u.objects && |u.slots| == MaxLights
    ensures |p.upload.slots| == MaxLights && p.upload.objects.Keys == u.objects.Keys
  {
    var obj := u.objects[id];
    var afterDirectional := if obj.directionalLight.Some? then CheckedFill(u, DirectionalWriteOf(obj))
                            else UploadProgress(u, Pass);
    if afterDirectional.outcome.Fail? || obj.pointLight.None? then afterDirectional
    else
      var moved := Moved(obj, r);
      var u' := afterDirectional.upload;
      CheckedFill(u'.(objects := u'.objects[id := moved]), PointWriteOf(moved))
  }

  /** One object, as written: the assertion once at the top; the point light's write
      goes past the array when the directional light took the last slot. */
  function VisitAsWritten(u: Upload, id: nat, r: Rotation): (p: UploadProgress)
    requires id in u.objects && |u.slots| == MaxLights
    ensures |p.upload.slots| == MaxLights && p.upload.objects.Keys == u.objects.Keys
  {
    if u.count >= MaxLights then UploadProgress(u, Fail(AssertionFailure(LightsExceeded)))
    else
      var obj := u.objects[id];
      var afterDirectional := if obj.directionalLight.Some? then Fill(u, DirectionalWriteOf(obj)) else u;
      if obj.pointLight.None? then UploadProgress(afterDirectional, Pass)
      else
        var moved := Moved(obj, r);
        var u' := afterDirectional.(objects := afterDirectional.objects[id := moved]);
        if u'.count < MaxLights then UploadProgress(Fill(u', PointWriteOf(moved)), Pass)
        else UploadProgress(u', Fail(OutOfBoundsWrite(u'.count)))
  }

  /** The corrected loop over `order`, stopping at the first failed assertion. */
  function UploadChecked(u: Upload, order: seq<nat>, r: Rotation): (p: UploadProgress)
    requires |u.slots| == MaxLights && forall i :: 0 <= i < |order| ==> order[i] in u.objects
    ensures |p.upload.slots| == MaxLights && p.upload.objects.Keys == u.objects.Keys
    decreases |order|
  {
    if order == [] then UploadProgress(u, Pass)
    else
      var first := VisitChecked(u, order[0], r);
      if first.outcome.Fail? then first else UploadChecked(first.upload, order[1..], r)
  }

  /** The loop as written. */
  function UploadAsWritten(u: Upload, order: seq<nat>, r: Rotation): (p: UploadProgress)
    requires |u.slots| == MaxLights && forall i :: 0 <= i < |order| ==> order[i] in u.objects
    ensures |p.upload.slots| == MaxLights && p.upload.objects.Keys == u.objects.Keys
    decreases |order|
  {
    if order == [] then UploadProgress(u, Pass)
    else
      var first := VisitAsWritten(u, order[0], r);
      if first.outcome.Fail? then first else UploadAsWritten(first.upload, order[1..], r)
  }

  // ---------------------------------------------------------------------------
  // What the corrected loop computes
  // ---------------------------------------------------------------------------

  /** Filling further slots after earlier ones is filling them all at once. */
  lemma UploadedTwice(slots: seq<Light>, from: nat, ws: seq<LightWrite>, ws': seq<LightWrite>)
    requires from + |ws| + |ws'| <= |slots|
    ensures Uploaded(Uploaded(slots, from, ws), from + |ws|, ws') == Uploaded(slots, from, ws + ws')
  {
  }

  /** The writes and light count of the objects of `order` do not depend on an object
      outside `order`. */
  lemma {:induction false} SceneWritesFrame(objects: map<nat, GameObject>, order: seq<nat>, r: Rotation, id: nat, obj: GameObject)
    requires forall i :: 0 <= i < |order| ==> order[i] in objects && order[i] != id
    ensures SceneWrites(objects[id := obj], order, r) == SceneWrites(objects, order, r)
    ensures LightCount(objects[id := obj], order) == LightCount(objects, order)
    decreases |order|
  {
    if order != [] {
      SceneWritesFrame(objects, order[1..], r, id, obj);
    }
  }

  /** There are as many writes as light components. */
  lemma {:induction false} SceneWritesCount(objects: map<nat, GameObject>, order: seq<nat>, r: Rotation)
    requires forall i :: 0 <= i < |order| ==> order[i] in objects
    ensures |SceneWrites(objects, order, r)| == LightCount(objects, order)
    decreases |order|
  {
    if order != [] {
      SceneWritesCount(objects, order[1..], r);
      assert LightCountOf(Moved(objects[order[0]], r)) == LightCountOf(objects[order[0]]);
    }
  }

  /** One corrected visit passes exactly when the object's components fit in the free
      slots, and then fills the next slots with its writes and turns it. */
  lemma VisitCheckedMeaning(u: Upload, id: nat, r: Rotation)
    requires id in u.objects && |u.slots| == MaxLights && u.count <= MaxLights
    ensures var p := VisitChecked(u, id, r);
      var obj := u.objects[id];
      var ws := WritesOf(Moved(obj, r));
      (p.outcome.Pass? <==> u.count + |ws| <= MaxLights)
      && (p.outcome.Fail? ==> p.outcome == Fail(AssertionFailure(LightsExceeded)))
      && (p.outcome.Pass? ==>
            p.upload.objects == u.objects[id := Moved(obj, r)] && p.upload.count == u.count + |ws|
            && p.upload.slots == Uploaded(u.slots, u.count, ws))
  {
    var obj := u.objects[id];
    var moved := Moved(obj, r);
    if obj.directionalLight.Some? && u.count < MaxLights {
      assert DirectionalWriteOf(moved) == DirectionalWriteOf(obj);
    }
  }

  /** The rest of a visiting order can still be visited once the first object has
      been, and does not visit it again. */
  lemma VisitableTail(objects: map<nat, GameObject>, objects': map<nat, GameObject>, order: seq<nat>)
    requires Visitable(objects, order) && order != [] && objects'.Keys == objects.Keys
    ensures Visitable(objects', order[1..]) && order[0] !in order[1..]
  {
    forall i | 0 <= i < |order| - 1 ensures order[1..][i] in objects' && order[1..][i] != order[0] {
      assert order[1..][i] == order[i + 1];
    }
  }

  /** Turning the first object, then the rest, turns them all. */
  lemma MovedSceneStep(objects: map<nat, GameObject>, order: seq<nat>, r: Rotation)
    requires Visitable(objects, order) && order != []
    ensures MovedScene(objects[order[0] := Moved(objects[order[0]], r)], order[1..], r) == MovedScene(objects, order, r)
  {
    VisitableTail(objects, objects, order);
    var id := order[0];
    var objects' := objects[id := Moved(objects[id], r)];
    forall k | k in objects
      ensures MovedScene(objects', order[1..], r)[k] == MovedScene(objects, order, r)[k]
    {
      if k != id && k in order {
        assert k in order[1..];
      }
    }
  }

  /** The corrected upload passes exactly when the scene's lights fit in the free slots.
      Then the slots from `count` on hold the scene's writes in visiting order, the
      count grows by their number, and every visited point light has been turned;
      otherwise the light assertion fails. */
  lemma {:induction false} UploadCheckedMeaning(u: Upload, order: seq<nat>, r: Rotation)
    requires |u.slots| == MaxLights && u.count <= MaxLights && Visitable(u.objects, order)
    ensures var p := UploadChecked(u, order, r);
      var ws := SceneWrites(u.objects, order, r);
      (p.outcome.Pass? <==> u.count + |ws| <= MaxLights)
      && (p.outcome.Fail? ==> p.outcome == Fail(AssertionFailure(LightsExceeded)))
      && (p.outcome.Pass? ==>
            p.upload.objects == MovedScene(u.objects, order, r) && p.upload.count == u.count + |ws|
            && p.upload.slots == Uploaded(u.slots, u.count, ws))
    decreases |order|
  {
    if order == [] {
      assert MovedScene(u.objects, order, r) == u.objects;
      assert Uploaded(u.slots, u.count, []) == u.slots;
    } else {
      var id := order[0];
      var moved := Moved(u.objects[id], r);
      var first := VisitChecked(u, id, r);
      VisitCheckedMeaning(u, id, r);
      if first.outcome.Pass? {
        VisitableTail(u.objects, first.upload.objects, order);
        SceneWritesFrame(u.objects, order[1..], r, id, moved);
        UploadCheckedMeaning(first.upload, order[1..], r);
        if UploadChecked(first.upload, order[1..], r).outcome.Pass? {
          UploadedTwice(u.slots, u.count, WritesOf(moved), SceneWrites(u.objects, order[1..], r));
          MovedSceneStep(u.objects, order, r);
        }
      }
    }
  }

  // ---------------------------------------------------------------------------
  // The upload as written, against the corrected one
  // ---------------------------------------------------------------------------

  /** The light count of all but the last object, and the last one's. */
  lemma {:induction false} LightCountSnoc(objects: map<nat, GameObject>, order: seq<nat>)
    requires order != [] && forall i :: 0 <= i < |order| ==> order[i] in objects
    ensures LightCount(objects, order) == LightCount(objects, order[..|order| - 1]) + LightCountOf(objects[order[|order| - 1]])
    decreases |order|
  {
    if |order| > 1 {
      LightCountSnoc(objects, order[1..]);
      assert order[1..][..|order| - 2] == order[..|order| - 1][1..];
    }
  }

  /** The light count of all but the last object, split after the first. */
  lemma LightCountInit(objects: map<nat, GameObject>, order: seq<nat>)
    requires |order| >= 2 && forall i :: 0 <= i < |order| ==> order[i] in objects
    ensures LightCount(objects, order[..|order| - 1])
         == LightCountOf(objects[order[0]]) + LightCount(objects, order[1..][..|order| - 2])
  {
    assert order[..|order| - 1][1..] == order[1..][..|order| - 2];
  }

  /** One object as written: it passes exactly when a slot is free on arrival and its
      components fit, and then does what the corrected visit does. When its components
      fit, only the light assertion can fail. */
  lemma VisitAsWrittenAgainstChecked(u: Upload, id: nat, r: Rotation)
    requires id in u.objects && |u.slots| == MaxLights && u.count <= MaxLights
    ensures var p := VisitAsWritten(u, id, r);
      var n := LightCountOf(u.objects[id]);
      (p.outcome.Pass? <==> u.count < MaxLights && u.count + n <= MaxLights)
      && (p.outcome.Pass? ==> p == VisitChecked(u, id, r))
      && (p.outcome.Fail? && u.count + n <= MaxLights ==> p.outcome == Fail(AssertionFailure(LightsExceeded)))
  {
    var obj := u.objects[id];
    if obj.directionalLight.Some? {
      assert DirectionalWriteOf(Moved(obj, r)) == DirectionalWriteOf(obj);
    }
  }

  /** As written, the upload passes exactly when the lights fit and the last object is
      reached with a slot still free. */
  lemma {:induction false} AsWrittenPasses(u: Upload, order: seq<nat>, r: Rotation)
    requires |u.slots| == MaxLights && u.count <= MaxLights && Visitable(u.objects, order)
    ensures UploadAsWritten(u, order, r).outcome.Pass? <==>
      u.count + LightCount(u.objects, order) <= MaxLights
      && (order == [] || u.count + LightCount(u.objects, order[..|order| - 1]) < MaxLights)
    decreases |order|
  {
    if order != [] {
      var id := order[0];
      var first := VisitAsWritten(u, id, r);
      VisitAsWrittenAgainstChecked(u, id, r);
      if |order| >= 2 {
        LightCountInit(u.objects, order);
      }
      if first.outcome.Pass? {
        VisitableTail(u.objects, first.upload.objects, order);
        var moved := Moved(u.objects[id], r);
        VisitCheckedMeaning(u, id, r);
        SceneWritesFrame(u.objects, order[1..], r, id, moved);
        if |order| >= 2 {
          SceneWritesFrame(u.objects, order[1..][..|order| - 2], r, id, moved);
        }
        AsWrittenPasses(first.upload, order[1..], r);
      }
    }
  }

  /** When the upload as written passes it agrees with the corrected one, and when the
      lights fit it can only fail on the light assertion. */
  lemma {:induction false} AsWrittenAgrees(u: Upload, order: seq<nat>, r: Rotation)
    requires |u.slots| == MaxLights && u.count <= MaxLights && Visitable(u.objects, order)
    ensures var p := UploadAsWritten(u, order, r);
      (p.outcome.Pass? ==> p == UploadChecked(u, order, r))
      && (p.outcome.Fail? && u.count + LightCount(u.objects, order) <= MaxLights ==>
            p.outcome == Fail(AssertionFailure(LightsExceeded)))
    decreases |order|
  {
    if order != [] {
      var id := order[0];
      var first := VisitAsWritten(u, id, r);
      VisitAsWrittenAgainstChecked(u, id, r);
      if first.outcome.Pass? {
        VisitableTail(u.objects, first.upload.objects, order);
        VisitCheckedMeaning(u, id, r);
        SceneWritesFrame(u.objects, order[1..], r, id, Moved(u.objects[id], r));
        AsWrittenAgrees(first.upload, order[1..], r);
      }
    }
  }

  /** The discrepancy: a scene whose lights exactly fill the array but whose last visited
      object has no light is rejected as written, and accepted by the corrected check. */
  lemma FullSceneRejected(objects: map<nat, GameObject>, slots: seq<Light>, order: seq<nat>, r: Rotation)
    requires |slots| == MaxLights && Visitable(objects, order) && order != []
    requires LightCount(objects, order) == MaxLights
    requires LightCountOf(objects[order[|order| - 1]]) == 0
    ensures UploadAsWritten(Upload(objects, slots, 0), order, r).outcome == Fail(AssertionFailure(LightsExceeded))
    ensures UploadChecked(Upload(objects, slots, 0), order, r).outcome.Pass?
  {
    LightCountSnoc(objects, order);
    AsWrittenPasses(Upload(objects, slots, 0), order, r);
    AsWrittenAgrees(Upload(objects, slots, 0), order, r);
    SceneWritesCount(objects, order, r);
    UploadCheckedMeaning(Upload(objects, slots, 0), order, r);
  }

  /** Objects with one light each contribute one slot each. */
  lemma {:induction false} OneLightEach(objects: map<nat, GameObject>, order: seq<nat>)
    requires forall i :: 0 <= i < |order| ==> order[i] in objects && LightCountOf(objects[order[i]]) == 1
    ensures LightCount(objects, order) == |order|
    decreases |order|
  {
    if order != [] {
      OneLightEach(objects, order[1..]);
    }
  }

  /** A scene of ten directional lights, ids 0 to 9, and a mesh object with id 10. */
  function TenLightsAndAMesh(): map<nat, GameObject> {
    map id: nat | id <= 10 :: if id < 10 then NewObject(id).(directionalLight := Some(DefaultDirectionalLight))
                              else NewObject(id)
  }

  /** When the mesh is visited last, the upload as written fails on the light assertion
      although the ten lights fit exactly; the corrected upload fills all ten slots. */
  lemma TenLightsThenAMeshRejected(slots: seq<Light>, r: Rotation)
    requires |slots| == MaxLights
    ensures var objects := TenLightsAndAMesh();
      var order := seq(11, i => i);
      Visitable(objects, order)
      && UploadAsWritten(Upload(objects, slots, 0), order, r).outcome == Fail(AssertionFailure(LightsExceeded))
      && UploadChecked(Upload(objects, slots, 0), order, r).outcome.Pass?
  {
    var objects := TenLightsAndAMesh();
    var order: seq<nat> := seq(11, i => i);
    assert order[..10] == seq(10, i => i);
    OneLightEach(objects, order[..10]);
    LightCountSnoc(objects, order);
    FullSceneRejected(objects, slots, order, r);
  }

  /** The second discrepancy: when an object with both components arrives with one
      slot free, the assertion at the top passes and, as written, its point light is
      written one past the array; the corrected check stops on the light assertion.
      This is latent: `loadLightFromNode` gives each light object one component, so a
      loaded scene holds no such object. */
  lemma {:induction false} SecondWritePastTheArray(u: Upload, order: seq<nat>, r: Rotation)
    requires |u.slots| == MaxLights && Visitable(u.objects, order) && order != []
    requires u.count + LightCount(u.objects, order[..|order| - 1]) == MaxLights - 1
    requires var last := u.objects[order[|order| - 1]];
      last.directionalLight.Some? && last.pointLight.Some?
    ensures UploadAsWritten(u, order, r).outcome == Fail(OutOfBoundsWrite(MaxLights))
    ensures UploadChecked(u, order, r).outcome == Fail(AssertionFailure(LightsExceeded))
    decreases |order|
  {
    LightCountSnoc(u.objects, order);
    SceneWritesCount(u.objects, order, r);
    UploadCheckedMeaning(u, order, r);
    if |order| >= 2 {
      var id := order[0];
      var moved := Moved(u.objects[id], r);
      var first := VisitAsWritten(u, id, r);
      LightCountInit(u.objects, order);
      VisitAsWrittenAgainstChecked(u, id, r);
      VisitCheckedMeaning(u, id, r);
      assert LightCountOf(moved) == LightCountOf(u.objects[id]);
      VisitableTail(u.objects, first.upload.objects, order);
      var rest := order[1..];
      assert rest[..|rest| - 1] == order[1..][..|order| - 2];
      SceneWritesFrame(u.objects, rest[..|rest| - 1], r, id, moved);
      assert rest[|rest| - 1] == order[|order| - 1] != id;
      SecondWritePastTheArray(first.upload, rest, r);
    }
  }

  /** Nine directional lights, ids 0 to 8, and an object with id 9 carrying both a
      directional and a point light. */
  function NineLightsAndALamp(): map<nat, GameObject> {
    map id: nat | id <= 9 :: if id < 9 then NewObject(id).(directionalLight := Some(DefaultDirectionalLight))
                             else NewObject(id).(directionalLight := Some(DefaultDirectionalLight),
                                                 pointLight := Some(DefaultPointLight))
  }

  /** Visiting the lamp last, the upload as written writes slot 10 of a ten-slot array;
      the corrected upload rejects the scene on the light assertion. */
  lemma NineLightsThenALampOverflow(slots: seq<Light>, r: Rotation)
    requires |slots| == MaxLights
    ensures var objects := NineLightsAndALamp();
      var order := seq(10, i => i);
      Visitable(objects, order)
      && UploadAsWritten(Upload(objects, slots, 0), order, r).outcome == Fail(OutOfBoundsWrite(10))
      && UploadChecked(Upload(objects, slots, 0), order, r).outcome == Fail(AssertionFailure(LightsExceeded))
  {
    var objects := NineLightsAndALamp();
    var order: seq<nat> := seq(10, i => i);
    assert order[..9] == seq(9, i => i);
    OneLightEach(objects, order[..9]);
    SecondWritePastTheArray(Upload(objects, slots, 0), order, r);
  }

  /** The upload stores every object under the same key with the same id. */
  lemma {:induction false} UploadKeepsIds(u: Upload, order: seq<nat>, r: Rotation)
    requires |u.slots| == MaxLights && forall i :: 0 <= i < |order| ==> order[i] in u.objects
    ensures var p := UploadChecked(u, order, r);
      forall id :: id in u.objects ==> p.upload.objects[id].id == u.objects[id].id
    decreases |order|
  {
    if order != [] {
      var first := VisitChecked(u, order[0], r);
      if first.outcome.Pass? {
        assert forall id :: id in u.objects ==> first.upload.objects[id].id == u.objects[id].id;
        UploadKeepsIds(first.upload, order[1..], r);
      }
    }
  }

  /** The light array of a freshly constructed `GlobalUbo`. */
  const DefaultSlots: seq<Light> := seq(MaxLights, _ => DefaultLight)

  /** What a frame writes into its uniform buffer: the ambient light, the light array
      and `numLights`. */
  datatype UboContents = UboContents(ambientLight: Vec4, lights: seq<Light>, numLights: int)

  /** The upload into a fresh buffer, as `run` does it every frame: it passes exactly
      when the scene holds at most `MAX_LIGHTS` lights; then `numLights` is their
      number, the first slots hold the scene's lights in visiting order and the rest
      keep the default light. */
  lemma FrameUpload(objects: map<nat, GameObject>, order: seq<nat>, r: Rotation)
    requires Visitable(objects, order)
    ensures var p := UploadChecked(Upload(objects, DefaultSlots, 0), order, r);
      var ws := SceneWrites(objects, order, r);
      var n := LightCount(objects, order);
      |ws| == n && (p.outcome.Pass? <==> n <= MaxLights)
      && (p.outcome.Fail? ==> p.outcome == Fail(AssertionFailure(LightsExceeded)))
      && (p.outcome.Pass? ==>
            p.upload.count == n && p.upload.objects == MovedScene(objects, order, r)
            && (forall k :: 0 <= k < n ==> p.upload.slots[k] == Apply(ws[k], DefaultLight))
            && (forall k :: n <= k < MaxLights ==> p.upload.slots[k] == DefaultLight))
  {
    UploadCheckedMeaning(Upload(objects, DefaultSlots, 0), order, r);
    SceneWritesCount(objects, order, r);
  }

  // ---------------------------------------------------------------------------
  // The corrected upload in place
  // ---------------------------------------------------------------------------

  /** `updateLights` with the corrected check: fills `ubo.lights` in visiting order,
      turns the point lights in the returned scene, and sets `numLights` once every
      object has been visited. */
  method UploadLights(objects: map<nat, GameObject>, order: seq<nat>, r: Rotation, ubo: GlobalUbo)
    returns (o: Outcome, moved: map<nat, GameObject>)
    requires Visitable(objects, order) && ubo.lights.Length == MaxLights
    modifies ubo, ubo.lights
    ensures var p := UploadChecked(Upload(objects, old(ubo.lights[..]), 0), order, r);
      o == p.outcome && moved == p.upload.objects && ubo.lights[..] == p.upload.slots
      && ubo.numLights == (if o.Pass? then p.upload.count else old(ubo.numLights))
    ensures ubo.ambientLight == old(ubo.ambientLight)
  {
    ghost var start := Upload(objects, ubo.lights[..], 0);
    moved := objects;
    var lightIndex := 0;
    for i := 0 to |order|
      invariant moved.Keys == objects.Keys && lightIndex <= MaxLights
      invariant ubo.numLights == old(ubo.numLights) && ubo.ambientLight == old(ubo.ambientLight)
      invariant UploadChecked(Upload(moved, ubo.lights[..], lightIndex), order[i..], r) == UploadChecked(start, order, r)
    {
      assert order[i..][1..] == order[i + 1..];
      var id := order[i];
      var obj := moved[id];
      if obj.directionalLight.Some? {
        if lightIndex >= MaxLights {
          return Fail(AssertionFailure(LightsExceeded)), moved;
        }
        ubo.lights[lightIndex] := Apply(DirectionalWriteOf(obj), ubo.lights[lightIndex]);
        lightIndex := lightIndex + 1;
      }
      if obj.pointLight.Some? {
        obj := Moved(obj, r);
        moved := moved[id := obj];
        if lightIndex >= MaxLights {
          return Fail(AssertionFailure(LightsExceeded)), moved;
        }
        ubo.lights[lightIndex] := Apply(PointWriteOf(obj), ubo.lights[lightIndex]);
        lightIndex := lightIndex + 1;
      }
    }
    ubo.numLights := lightIndex;
    o := Pass;
  }
}
