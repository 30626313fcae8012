/** The point-light billboard pass (`PointLightRenderSystem::render`, and its older copy
    `OmniVPointLightRenderSystem::render`, which does the same): objects whose point
    light draws a billboard are put in an ordered map keyed by their squared distance
    to the camera, then drawn from the largest key to the smallest.

    The scene's objects are the app's `unordered_map` from id to object, together with
    the order in which that map happens to iterate. The ordered map (`std::map`) is the
    sequence of its entries in key order. Command recording is a list of commands.
*/
module Billboards {
  import opened Common
  import opened Objects

  /** One entry of the ordered map: a squared distance and the id stored under it. */
  datatype Entry = Entry(key: real, id: nat)

  /** Keys strictly increase along the entries, so each key appears once. */
  predicate Sorted(entries: seq<Entry>) {
    forall i, j :: 0 <= i < j < |entries| ==> entries[i].key < entries[j].key
  }

  /** `sorted[key] = id` on an ordered map: the entry for `key` now holds `id`, and every
      entry with another key stays. */
  function Insert(entries: seq<Entry>, key: real, id: nat): (r: seq<Entry>)
    requires Sorted(entries)
    ensures Sorted(r)
    ensures forall e :: e in r <==> (e == Entry(key, id) || (e in entries && e.key != key))
  {
    if |entries| == 0 then [Entry(key, id)]
    else if key < entries[0].key then [Entry(key, id)] + entries
    else if key == entries[0].key then [Entry(key, id)] + entries[1..]
    else
      var rest := Insert(entries[1..], key, id);
      assert forall k :: 0 <= k < |rest| ==> rest[k] in rest;
      [entries[0]] + rest
  }

  function SquaredDistance(a: Vec3, b: Vec3): (d: real)
    ensures d >= 0.0
  {
    var dx := a.x - b.x;
    var dy := a.y - b.y;
    var dz := a.z - b.z;
    dx * dx + dy * dy + dz * dz
  }

  /** Only objects with a point light that draws a billboard take part. */
  predicate HasBillboard(obj: GameObject) {
    obj.pointLight.Some? && obj.pointLight.value.drawBillboard
  }

  /** The scene as the render pass sees it: every id in the iteration order is a key of
      the map, and every object is stored under its own id. */
  predicate WellFormedScene(objects: map<nat, GameObject>, order: seq<nat>) {
    (forall i :: 0 <= i < |order| ==> order[i] in objects)
    && forall id :: id in objects ==> objects[id].id == id
  }

  /** The key of the object visited at position `i`. */
  function KeyAt(objects: map<nat, GameObject>, order: seq<nat>, camera: Vec3, i: nat): real
    requires WellFormedScene(objects, order) && i < |order|
  {
    SquaredDistance(camera, objects[order[i]].transform.position)
  }

  /** The ordered map after the insertion loop has visited `order`. */
  function SortedLights(objects: map<nat, GameObject>, order: seq<nat>, camera: Vec3): (r: seq<Entry>)
    requires WellFormedScene(objects, order)
    ensures Sorted(r)
    decreases |order|
  {
    if |order| == 0 then []
    else
      var prefix := order[..|order| - 1];
      var before := SortedLights(objects, prefix, camera);
      var obj := objects[order[|order| - 1]];
      if HasBillboard(obj) then Insert(before, SquaredDistance(camera, obj.transform.position), obj.id)
      else before
  }

  /** The object visited at position `i` is the one whose entry survives: it has a
      billboard, and no later billboard object has the same squared distance. */
  predicate WinsKey(objects: map<nat, GameObject>, order: seq<nat>, camera: Vec3, i: nat)
    requires WellFormedScene(objects, order) && i < |order|
  {
    HasBillboard(objects[order[i]])
    && forall j :: i < j < |order| && HasBillboard(objects[order[j]]) ==>
         KeyAt(objects, order, camera, j) != KeyAt(objects, order, camera, i)
  }

  /** Every entry of the map comes from the last billboard object visited with its key. */
  lemma {:induction false} SortedLightsSound(objects: map<nat, GameObject>, order: seq<nat>, camera: Vec3, e: Entry)
    requires WellFormedScene(objects, order)
    requires e in SortedLights(objects, order, camera)
    ensures exists i :: (0 <= i < |order| && WinsKey(objects, order, camera, i)
      && e == Entry(KeyAt(objects, order, camera, i), order[i]))
    decreases |order|
  {
    var n := |order| - 1;
    var prefix := order[..n];
    assert WellFormedScene(objects, prefix);
    var obj := objects[order[n]];
    var key := SquaredDistance(camera, obj.transform.position);
    if HasBillboard(obj) && e == Entry(key, obj.id) {
      assert WinsKey(objects, order, camera, n) && e == Entry(KeyAt(objects, order, camera, n), order[n]);
    } else {
      assert e in SortedLights(objects, prefix, camera);
      SortedLightsSound(objects, prefix, camera, e);
      var i :| 0 <= i < |prefix| && WinsKey(objects, prefix, camera, i)
        && e == Entry(KeyAt(objects, prefix, camera, i), prefix[i]);
      assert KeyAt(objects, prefix, camera, i) == KeyAt(objects, order, camera, i);
      forall j | i < j < |order| && HasBillboard(objects[order[j]])
        ensures KeyAt(objects, order, camera, j) != KeyAt(objects, order, camera, i)
      {
        if j < n {
          assert KeyAt(objects, prefix, camera, j) == KeyAt(objects, order, camera, j);
        }
      }
      assert WinsKey(objects, order, camera, i);
    }
  }

  /** The last billboard object visited with a given key has its entry in the map. */
  lemma {:induction false} SortedLightsComplete(objects: map<nat, GameObject>, order: seq<nat>, camera: Vec3, i: nat)
    requires WellFormedScene(objects, order)
    requires i < |order| && WinsKey(objects, order, camera, i)
    ensures Entry(KeyAt(objects, order, camera, i), order[i]) in SortedLights(objects, order, camera)
    decreases |order|
  {
    var n := |order| - 1;
    var prefix := order[..n];
    assert WellFormedScene(objects, prefix);
    var e := Entry(KeyAt(objects, order, camera, i), order[i]);
    if i < n {
      assert KeyAt(objects, prefix, camera, i) == KeyAt(objects, order, camera, i);
      forall j | i < j < |prefix| && HasBillboard(objects[prefix[j]])
        ensures KeyAt(objects, prefix, camera, j) != KeyAt(objects, prefix, camera, i)
      {
        assert KeyAt(objects, prefix, camera, j) == KeyAt(objects, order, camera, j);
      }
      SortedLightsComplete(objects, prefix, camera, i);
      assert e in SortedLights(objects, prefix, camera);
    }
  }

  /** Every billboard object's squared distance is a key of the map: two billboards at
      the same distance leave one entry, never none. */
  lemma {:induction false} EveryBillboardDistanceIsKey(objects: map<nat, GameObject>, order: seq<nat>, camera: Vec3, i: nat)
    requires WellFormedScene(objects, order)
    requires i < |order| && HasBillboard(objects[order[i]])
    ensures exists e :: e in SortedLights(objects, order, camera) && e.key == KeyAt(objects, order, camera, i)
    decreases |order| - i
  {
    if WinsKey(objects, order, camera, i) {
      SortedLightsComplete(objects, order, camera, i);
    } else {
      var j :| i < j < |order| && HasBillboard(objects[order[j]])
        && KeyAt(objects, order, camera, j) == KeyAt(objects, order, camera, i);
      EveryBillboardDistanceIsKey(objects, order, camera, j);
    }
  }

  /** Every entry names an object that has a billboard. */
  lemma EntriesHaveBillboards(objects: map<nat, GameObject>, order: seq<nat>, camera: Vec3)
    requires WellFormedScene(objects, order)
    ensures Drawable(objects, SortedLights(objects, order, camera))
  {
    var entries := SortedLights(objects, order, camera);
    forall k | 0 <= k < |entries|
      ensures entries[k].id in objects && HasBillboard(objects[entries[k].id])
    {
      SortedLightsSound(objects, order, camera, entries[k]);
    }
  }

  // ---------------------------------------------------------------------------
  // Drawing
  // ---------------------------------------------------------------------------

  datatype Command =
    | BindPipeline
    | BindDescriptorSets
    | PushConstants(position: Vec4, color: Vec4, radius: real)
    | Draw(vertexCount: nat)

  /** Every entry names an object with a billboard, so `gameObjects.at(id)` finds it. */
  predicate Drawable(objects: map<nat, GameObject>, entries: seq<Entry>) {
    forall k :: 0 <= k < |entries| ==> entries[k].id in objects && HasBillboard(objects[entries[k].id])
  }

  /** The push constants of one billboard: position with w = 1, color with w = the
      light's intensity, and the transform's x scale as radius. */
  function PushFor(obj: GameObject): (c: Command)
    requires obj.pointLight.Some?
    ensures c.PushConstants? && c.position.w == 1.0 && c.color.w == obj.pointLight.value.intensity
    ensures c.radius == obj.transform.scale.x
  {
    var p := obj.transform.position;
    PushConstants(Vec4(p.x, p.y, p.z, 1.0), Vec4(obj.color.x, obj.color.y, obj.color.z, obj.pointLight.value.intensity),
                  obj.transform.scale.x)
  }

  /** The draws for `entries`, visited from the last entry to the first. */
  function DrawsFrom(objects: map<nat, GameObject>, entries: seq<Entry>): (r: seq<Command>)
    requires Drawable(objects, entries)
    ensures |r| == 2 * |entries|
  {
    if |entries| == 0 then []
    else
      var last := entries[|entries| - 1];
      [PushFor(objects[last.id]), Draw(6)] + DrawsFrom(objects, entries[..|entries| - 1])
  }

  /** Draw `k` (counting from the first one issued) uses the `k`-th entry from the end. */
  lemma {:induction false} DrawsFromAt(objects: map<nat, GameObject>, entries: seq<Entry>, k: nat)
    requires Drawable(objects, entries) && k < |entries|
    ensures DrawsFrom(objects, entries)[2 * k] == PushFor(objects[entries[|entries| - 1 - k].id])
    ensures DrawsFrom(objects, entries)[2 * k + 1] == Draw(6)
    decreases |entries|
  {
    if k > 0 {
      var prefix := entries[..|entries| - 1];
      DrawsFromAt(objects, prefix, k - 1);
      assert prefix[|prefix| - 1 - (k - 1)] == entries[|entries| - 1 - k];
    }
  }

  /** `render`: the insertion loop over the scene, one bind of pipeline and descriptor
      set, then one push and one six-vertex draw per entry, from the largest key down. */
  method Render(objects: map<nat, GameObject>, order: seq<nat>, camera: Vec3) returns (commands: seq<Command>)
    requires WellFormedScene(objects, order)
    ensures Drawable(objects, SortedLights(objects, order, camera))
    ensures commands == [BindPipeline, BindDescriptorSets] + DrawsFrom(objects, SortedLights(objects, order, camera))
  {
    var sorted: seq<Entry> := [];
    for i := 0 to |order|
      invariant WellFormedScene(objects, order[..i])
      invariant sorted == SortedLights(objects, order[..i], camera)
    {
      assert order[..i + 1][..i] == order[..i];
      var obj := objects[order[i]];
      if HasBillboard(obj) {
        var offset := SquaredDistance(camera, obj.transform.position);
        sorted := Insert(sorted, offset, obj.id);
      }
    }
    assert order[..|order|] == order;
    EntriesHaveBillboards(objects, order, camera);

    commands := [BindPipeline, BindDescriptorSets];
    var k := |sorted|;
    while k > 0
      invariant 0 <= k <= |sorted|
      invariant commands == [BindPipeline, BindDescriptorSets] + DrawsFrom(objects, sorted)[..2 * (|sorted| - k)]
    {
      k := k - 1;
      var obj := objects[sorted[k].id];
      DrawsFromAt(objects, sorted, |sorted| - 1 - k);
      assert DrawsFrom(objects, sorted)[..2 * (|sorted| - k)]
          == DrawsFrom(objects, sorted)[..2 * (|sorted| - k - 1)] + [PushFor(obj), Draw(6)];
      commands := commands + [PushFor(obj), Draw(6)];
    }
    assert DrawsFrom(objects, sorted)[..2 * |sorted|] == DrawsFrom(objects, sorted);
  }

  /** Draws go from far to near: the `k`-th draw's squared distance is strictly larger
      than every later draw's. */
  lemma FarToNear(objects: map<nat, GameObject>, order: seq<nat>, camera: Vec3, k: nat, k': nat)
    requires WellFormedScene(objects, order)
    requires var n := |SortedLights(objects, order, camera)|; k < k' < n
    ensures var entries := SortedLights(objects, order, camera);
      entries[|entries| - 1 - k].key > entries[|entries| - 1 - k'].key
  {
  }
}
