/** Scene entities (src/GameObject.hpp, src/OmniVGameObject.hpp, src/OmniVGameObject.cpp):
    the transform and light components with their defaults, the id counter shared by
    every `createGameObject` call, the transform loader and the light loaders.

    A game object is a value here. The counter, a function-local `static` in the
    source, is an `IdAllocator` object that every creating operation receives and
    advances. Floats are reals.
*/
module Objects {
  import opened Wrappers
  import opened Xml
  import opened Common

  datatype Transform = Transform(position: Vec3, scale: Vec3, rotation: Vec3)

  /** A fresh `TransformComponent`: at the origin, unrotated, unit scale. */
  const DefaultTransform: Transform := Transform(Vec3(0.0, 0.0, 0.0), Vec3(1.0, 1.0, 1.0), Vec3(0.0, 0.0, 0.0))

  datatype DirectionalLight = DirectionalLight(intensity: real, direction: Vec3)

  /** A fresh `DirectionalLightComponent`. */
  const DefaultDirectionalLight: DirectionalLight := DirectionalLight(1.0, Vec3(0.0, 0.0, 0.0))

  datatype PointLight = PointLight(intensity: real, drawBillboard: bool)

  /** A fresh `PointLightComponent`. */
  const DefaultPointLight: PointLight := PointLight(1.0, false)

  /** A game object; `model` is the path the model was loaded from, when there is one. */
  datatype GameObject = GameObject(
    id: nat,
    color: Vec3,
    transform: Transform,
    model: Option<string>,
    directionalLight: Option<DirectionalLight>,
    pointLight: Option<PointLight>)

  /** The private constructor `GameObject(id)`: the given id and every other member default. */
  function NewObject(id: nat): (obj: GameObject)
    ensures obj.id == id
    ensures obj.transform == DefaultTransform && obj.color == Vec3(0.0, 0.0, 0.0)
    ensures obj.model.None? && obj.directionalLight.None? && obj.pointLight.None?
  {
    GameObject(id, Vec3(0.0, 0.0, 0.0), DefaultTransform, None, None, None)
  }

  /** `getObjectID` (`getId` in the older header). */
  function ObjectId(obj: GameObject): nat {
    obj.id
  }

  /** The static `currentId` of `createGameObject`. `issued` records the ids handed out. */
  class IdAllocator {
    var currentId: nat
    ghost var issued: set<nat>

    ghost predicate Valid()
      reads this
    {
      forall id: nat :: id in issued <==> id < currentId
    }

    /** The counter before the first call. */
    constructor ()
      ensures Valid() && currentId == 0 && issued == {}
    {
      currentId := 0;
      issued := {};
    }

    /** `createGameObject`: returns a default object carrying the counter value, then
        increments the counter. The id was never handed out before. */
    method CreateGameObject() returns (obj: GameObject)
      requires Valid()
      modifies this
      ensures Valid()
      ensures obj == NewObject(old(currentId))
      ensures currentId == old(currentId) + 1
      ensures obj.id !in old(issued) && issued == old(issued) + {obj.id}
    {
      obj := NewObject(currentId);
      issued := issued + {currentId};
      currentId := currentId + 1;
    }
  }

  /** Two consecutive calls on a fresh counter give ids 0 and 1. */
  method FirstTwoIds() returns (first: nat, second: nat)
    ensures first == 0 && second == 1
  {
    var ids := new IdAllocator();
    var a := ids.CreateGameObject();
    var b := ids.CreateGameObject();
    first, second := ObjectId(a), ObjectId(b);
  }

  // ---------------------------------------------------------------------------
  // TransformComponent::initializeFromNode
  // ---------------------------------------------------------------------------

  /** The attribute a transform child is read from: a rotation is checked for `value`
      but read from `eulerAngles`. */
  function ReadAttribute(childName: string): string {
    if childName == "rotation" then "eulerAngles" else "value"
  }

  predicate IsTransformField(name: string) {
    name == "scale" || name == "rotation" || name == "position"
  }

  function Field(t: Transform, name: string): Vec3
    requires IsTransformField(name)
  {
    if name == "scale" then t.scale else if name == "rotation" then t.rotation else t.position
  }

  function WithField(t: Transform, name: string, v: Vec3): Transform
    requires IsTransformField(name)
  {
    if name == "scale" then t.(scale := v) else if name == "rotation" then t.(rotation := v) else t.(position := v)
  }

  function MalformedMessage(name: string): string {
    if name == "scale" then "Transform scale malformed"
    else if name == "rotation" then "Transform rotation malformed"
    else "Transform position malformed"
  }

  /** A child the transform reader accepts: any child that is not a scale, rotation or
      position, or one with a `value` whose read attribute is three floats. */
  predicate WellFormedChild(child: Node) {
    !IsTransformField(child.name)
    || (HasAttribute(Some(child), "value") && ToVector3f(AttributeValue(Some(child), ReadAttribute(child.name))).Ok?)
  }

  /** Every child of a transform node is accepted. */
  predicate WellFormedTransform(children: seq<Node>) {
    forall i :: 0 <= i < |children| ==> WellFormedChild(children[i])
  }

  /** The effect of one child of a transform node. */
  function ApplyChild(t: Transform, child: Node): (r: Result<Transform>)
    ensures r.Ok? <==> WellFormedChild(child)
    ensures r.Ok? && IsTransformField(child.name) ==>
      r.value == WithField(t, child.name, ToVector3f(AttributeValue(Some(child), ReadAttribute(child.name))).value)
    ensures !IsTransformField(child.name) ==> r == Ok(t)
  {
    if !IsTransformField(child.name) then Ok(t)
    else if !HasAttribute(Some(child), "value") then Err(Exception(MalformedMessage(child.name)))
    else
      var v :- ToVector3f(AttributeValue(Some(child), ReadAttribute(child.name)));
      Ok(WithField(t, child.name, v))
  }

  /** The effect of the children, first to last: it succeeds exactly when every child
      is accepted, whatever the starting transform. */
  function ApplyChildren(t: Transform, children: seq<Node>): (r: Result<Transform>)
    ensures r.Ok? <==> WellFormedTransform(children)
    decreases |children|
  {
    if children == [] then Ok(t)
    else
      assert WellFormedTransform(children) <==> WellFormedChild(children[0]) && WellFormedTransform(children[1..]) by {
        if WellFormedChild(children[0]) && WellFormedTransform(children[1..]) {
          forall i | 0 < i < |children| ensures WellFormedChild(children[i]) {
            assert children[i] == children[1..][i - 1];
          }
        }
      }
      var next :- ApplyChild(t, children[0]);
      ApplyChildren(next, children[1..])
  }

  /** `initializeFromNode`: walks the children of the transform node in order; a scale,
      rotation or position child overwrites that field, any other child is ignored.
      A null node has no children and changes nothing. */
  method InitializeFromNode(transformNode: Option<Node>, transform: Transform) returns (r: Result<Transform>)
    ensures r == ApplyChildren(transform, Children(transformNode))
  {
    var children := Children(transformNode);
    var current := transform;
    var i := 0;
    while i < |children|
      invariant 0 <= i <= |children|
      invariant ApplyChildren(current, children[i..]) == ApplyChildren(transform, children)
    {
      assert children[i..][1..] == children[i + 1..];
      var step := ApplyChild(current, children[i]);
      if step.Err? {
        return Err(step.error);
      }
      current := step.value;
      i := i + 1;
    }
    return Ok(current);
  }

  /** The last node of `nodes` called `name`. */
  function LastNamed(nodes: seq<Node>, name: string): (r: Option<Node>)
    ensures r.Some? ==> r.value in nodes && r.value.name == name
  {
    if nodes == [] then None
    else
      match LastNamed(nodes[1..], name)
      case Some(n) => Some(n)
      case None => if nodes[0].name == name then Some(nodes[0]) else None
  }

  /** After a successful load each field holds the vector of the LAST child naming it,
      and keeps its old value when no child names it. */
  lemma {:induction false} LastChildWins(t: Transform, children: seq<Node>, name: string)
    requires IsTransformField(name)
    requires ApplyChildren(t, children).Ok?
    ensures match LastNamed(children, name)
      case None => Field(ApplyChildren(t, children).value, name) == Field(t, name)
      case Some(c) => ToVector3f(AttributeValue(Some(c), ReadAttribute(name))) == Ok(Field(ApplyChildren(t, children).value, name))
    decreases |children|
  {
    if children != [] {
      var next := ApplyChild(t, children[0]).value;
      LastChildWins(next, children[1..], name);
      if LastNamed(children[1..], name).None? && children[0].name == name {
        assert HasAttribute(Some(children[0]), "value");
      }
    }
  }

  /** A scale, rotation or position child without a `value` attribute makes the load
      throw, whatever comes before or after it. */
  lemma {:induction false} MalformedChildFails(t: Transform, children: seq<Node>, k: nat)
    requires k < |children| && IsTransformField(children[k].name)
    requires !HasAttribute(Some(children[k]), "value")
    ensures ApplyChildren(t, children).Err?
    decreases |children|
  {
    if k > 0 && ApplyChild(t, children[0]).Ok? {
      MalformedChildFails(ApplyChild(t, children[0]).value, children[1..], k - 1);
    }
  }

  /** The error messages name the field. */
  lemma MalformedMessages(t: Transform, c: Node)
    requires !HasAttribute(Some(c), "value")
    ensures c.name == "scale" ==> ApplyChildren(t, [c]) == Err(Exception("Transform scale malformed"))
    ensures c.name == "rotation" ==> ApplyChildren(t, [c]) == Err(Exception("Transform rotation malformed"))
    ensures c.name == "position" ==> ApplyChildren(t, [c]) == Err(Exception("Transform position malformed"))
  {
    assert [c][1..] == [];
  }

  /** A rotation written like the other fields (a `value` and no `eulerAngles`) is read
      as the empty string, which is not three values. */
  lemma RotationReadsEulerAngles(t: Transform, c: Node)
    requires c.name == "rotation" && HasAttribute(Some(c), "value")
    requires FindAttribute(c.attributes, "eulerAngles").None?
    ensures ApplyChildren(t, [c]) == Err(Exception("Expected 3 values"))
  {
    EmptyTextIsNoVector();
    assert [c][1..] == [];
  }

  // ---------------------------------------------------------------------------
  // Light factories and loader (src/OmniVGameObject.cpp)
  // ---------------------------------------------------------------------------

  /** `makeSimpleDirectionalLight(direction, color = (1,1,1), intensity = 5)`. */
  method MakeSimpleDirectionalLight(ids: IdAllocator, direction: Vec3, color: Vec3 := Vec3(1.0, 1.0, 1.0), intensity: real := 5.0)
    returns (obj: GameObject)
    requires ids.Valid()
    modifies ids
    ensures ids.Valid() && ids.currentId == old(ids.currentId) + 1 && ids.issued == old(ids.issued) + {obj.id}
    ensures obj == NewObject(old(ids.currentId)).(color := color, directionalLight := Some(DirectionalLight(intensity, direction)))
  {
    obj := ids.CreateGameObject();
    obj := obj.(color := color);
    var light := DefaultDirectionalLight;
    light := light.(intensity := intensity);
    light := light.(direction := direction);
    obj := obj.(directionalLight := Some(light));
  }

  /** `makeSimplePointLight(drawBillboard = false, color = (1,1,1), intensity = 5, radius = 0.1)`:
      the radius is stored in `scale.x`. */
  method MakeSimplePointLight(ids: IdAllocator, drawBillboard: bool := false, color: Vec3 := Vec3(1.0, 1.0, 1.0),
                              intensity: real := 5.0, radius: real := 0.1)
    returns (obj: GameObject)
    requires ids.Valid()
    modifies ids
    ensures ids.Valid() && ids.currentId == old(ids.currentId) + 1 && ids.issued == old(ids.issued) + {obj.id}
    ensures obj == NewObject(old(ids.currentId)).(
      color := color,
      pointLight := Some(PointLight(intensity, drawBillboard)),
      transform := DefaultTransform.(scale := Vec3(radius, 1.0, 1.0)))
  {
    obj := ids.CreateGameObject();
    obj := obj.(color := color);
    var light := DefaultPointLight;
    light := light.(intensity := intensity);
    light := light.(drawBillboard := drawBillboard);
    obj := obj.(pointLight := Some(light));
    obj := obj.(transform := obj.transform.(scale := obj.transform.scale.(x := radius)));
  }

  /** The values every light node carries: its radiance (required), intensity (5 when
      absent) and radius (0.1 when absent). */
  datatype LightParameters = LightParameters(radiance: Vec3, intensity: real, radius: real)

  /** A scalar child's `value`, or `default` when the child is absent. */
  function ScalarChild(node: Node, name: string, default: real): Result<real> {
    var child := Child(Some(node), name);
    if child.Some? then ToFloat(AttributeValue(child, "value")) else Ok(default)
  }

  function ReadLightParameters(lightNode: Node): (r: Result<LightParameters>)
    ensures Child(Some(lightNode), "radiance").None? ==> r == Err(Exception("Radiance undefinned"))
    ensures var radiance := Child(Some(lightNode), "radiance");
      r.Ok? <==> radiance.Some? && ToVector3f(AttributeValue(radiance, "value")).Ok?
                 && ScalarChild(lightNode, "intensity", 5.0).Ok? && ScalarChild(lightNode, "radius", 0.1).Ok?
    ensures r.Ok? ==>
      ToVector3f(AttributeValue(Child(Some(lightNode), "radiance"), "value")) == Ok(r.value.radiance)
      && ScalarChild(lightNode, "intensity", 5.0) == Ok(r.value.intensity)
      && ScalarChild(lightNode, "radius", 0.1) == Ok(r.value.radius)
    ensures r.Ok? ==> Child(Some(lightNode), "intensity").None? ==> r.value.intensity == 5.0
    ensures r.Ok? ==> Child(Some(lightNode), "radius").None? ==> r.value.radius == 0.1
  {
    var radianceNode := Child(Some(lightNode), "radiance");
    if radianceNode.None? then Err(Exception("Radiance undefinned"))
    else
      var radiance :- ToVector3f(AttributeValue(radianceNode, "value"));
      var intensity :- ScalarChild(lightNode, "intensity", 5.0);
      var radius :- ScalarChild(lightNode, "radius", 0.1);
      Ok(LightParameters(radiance, intensity, radius))
  }

  function LightType(lightNode: Node): string {
    AttributeValue(Some(lightNode), "type")
  }

  /** Whether loading the light node reaches `createGameObject`: a directional light does
      so only once its direction has been read, a point light before its transform is. */
  predicate LoadCreatesObject(lightNode: Node) {
    var p := ReadLightParameters(lightNode);
    if LightType(lightNode) == "directional" then
      p.Ok? && ToVector3f(AttributeValue(Child(Some(lightNode), "direction"), "value")).Ok?
    else LightType(lightNode) == "point" && p.Ok?
  }

  /** What `loadLightFromNode` returns when the next id is `id`. */
  function LoadedLight(lightNode: Node, drawBillboard: bool, id: nat): (r: Result<GameObject>)
    ensures r.Ok? ==> r.value.id == id && r.value.model.None?
    ensures r.Ok? ==> LoadCreatesObject(lightNode)
  {
    var kind := LightType(lightNode);
    if kind == "directional" then
      var p :- ReadLightParameters(lightNode);
      var direction :- ToVector3f(AttributeValue(Child(Some(lightNode), "direction"), "value"));
      Ok(NewObject(id).(color := p.radiance, directionalLight := Some(DirectionalLight(p.intensity, direction))))
    else if kind == "point" then
      var p :- ReadLightParameters(lightNode);
      var start := DefaultTransform.(scale := Vec3(p.radius, 1.0, 1.0));
      var transform :- ApplyChildren(start, Children(Child(Some(lightNode), "transform")));
      Ok(NewObject(id).(color := p.radiance, pointLight := Some(PointLight(p.intensity, drawBillboard)), transform := transform))
    else Err(Exception("Light type not defined"))
  }

  /** `loadLightFromNode`: dispatches on the `type` attribute, reads the shared
      parameters, then builds the light with the factory; a point light then reads its
      transform, which may override the radius kept in `scale.x`. */
  method LoadLightFromNode(ids: IdAllocator, lightNode: Node, drawBillboard: bool) returns (r: Result<GameObject>)
    requires ids.Valid()
    modifies ids
    ensures ids.Valid()
    ensures r == LoadedLight(lightNode, drawBillboard, old(ids.currentId))
    ensures ids.currentId == old(ids.currentId) + (if LoadCreatesObject(lightNode) then 1 else 0)
  {
    var kind := LightType(lightNode);
    if kind == "directional" {
      var p := ReadLightParameters(lightNode);
      if p.Err? {
        return Err(p.error);
      }
      var direction := ToVector3f(AttributeValue(Child(Some(lightNode), "direction"), "value"));
      if direction.Err? {
        return Err(direction.error);
      }
      var obj := MakeSimpleDirectionalLight(ids, direction.value, p.value.radiance, p.value.intensity);
      return Ok(obj);
    }
    if kind == "point" {
      var p := ReadLightParameters(lightNode);
      if p.Err? {
        return Err(p.error);
      }
      var obj := MakeSimplePointLight(ids, drawBillboard, p.value.radiance, p.value.intensity, p.value.radius);
      var transform := InitializeFromNode(Child(Some(lightNode), "transform"), obj.transform);
      if transform.Err? {
        return Err(transform.error);
      }
      return Ok(obj.(transform := transform.value));
    }
    return Err(Exception("Light type not defined"));
  }

  /** A light loads exactly when its parameters read and, for a directional light, its
      direction is three floats, or, for a point light, every transform child is
      accepted. A directional light then points along the given direction. */
  lemma LightLoadsExactly(lightNode: Node, drawBillboard: bool, id: nat)
    ensures var r := LoadedLight(lightNode, drawBillboard, id);
      var direction := ToVector3f(AttributeValue(Child(Some(lightNode), "direction"), "value"));
      (LightType(lightNode) == "directional" ==>
         (r.Ok? <==> ReadLightParameters(lightNode).Ok? && direction.Ok?)
         && (r.Ok? ==> r.value.directionalLight == Some(DirectionalLight(ReadLightParameters(lightNode).value.intensity, direction.value))))
      && (LightType(lightNode) == "point" ==>
         (r.Ok? <==> ReadLightParameters(lightNode).Ok? && WellFormedTransform(Children(Child(Some(lightNode), "transform")))))
  {
  }

  /** Any type other than "directional" or "point" throws, and no id is used. */
  lemma UnknownLightType(lightNode: Node, drawBillboard: bool, id: nat)
    requires LightType(lightNode) != "directional" && LightType(lightNode) != "point"
    ensures LoadedLight(lightNode, drawBillboard, id) == Err(Exception("Light type not defined"))
    ensures !LoadCreatesObject(lightNode)
  {
  }

  /** Either light type without a radiance child throws before any object is created. */
  lemma LightNeedsRadiance(lightNode: Node, drawBillboard: bool, id: nat)
    requires LightType(lightNode) == "directional" || LightType(lightNode) == "point"
    requires Child(Some(lightNode), "radiance").None?
    ensures LoadedLight(lightNode, drawBillboard, id) == Err(Exception("Radiance undefinned"))
    ensures !LoadCreatesObject(lightNode)
  {
  }

  /** A loaded directional light has the radiance as color, the default transform and no
      point component; its intensity is 5 unless given. */
  lemma DirectionalLightShape(lightNode: Node, drawBillboard: bool, id: nat)
    requires LightType(lightNode) == "directional"
    requires LoadedLight(lightNode, drawBillboard, id).Ok?
    ensures var obj := LoadedLight(lightNode, drawBillboard, id).value;
      var p := ReadLightParameters(lightNode).value;
      obj.color == p.radiance && obj.transform == DefaultTransform && obj.pointLight.None?
      && obj.directionalLight.Some? && obj.directionalLight.value.intensity == p.intensity
      && (Child(Some(lightNode), "intensity").None? ==> obj.directionalLight.value.intensity == 5.0)
  {
  }

  /** A loaded point light keeps the radius in `scale.x` unless its transform has a scale
      child, whose last occurrence then wins; `scale.y` and `scale.z` stay 1 otherwise. */
  lemma PointLightRadius(lightNode: Node, drawBillboard: bool, id: nat)
    requires LightType(lightNode) == "point"
    requires LoadedLight(lightNode, drawBillboard, id).Ok?
    ensures var obj := LoadedLight(lightNode, drawBillboard, id).value;
      var p := ReadLightParameters(lightNode).value;
      var children := Children(Child(Some(lightNode), "transform"));
      obj.directionalLight.None? && obj.pointLight == Some(PointLight(p.intensity, drawBillboard))
      && obj.color == p.radiance
      && (LastNamed(children, "scale").None? ==> obj.transform.scale == Vec3(p.radius, 1.0, 1.0))
      && (LastNamed(children, "scale").Some? ==>
            ToVector3f(AttributeValue(LastNamed(children, "scale"), "value")) == Ok(obj.transform.scale))
  {
    var p := ReadLightParameters(lightNode).value;
    var start := DefaultTransform.(scale := Vec3(p.radius, 1.0, 1.0));
    LastChildWins(start, Children(Child(Some(lightNode), "transform")), "scale");
  }
}
