/** Shadow-map cascade bookkeeping (`shadowmapCascadesMatrices`, src/OmniVUtils.cpp):
    the depth interval each cascade covers, the radius of the light-space box around
    it, and the orthographic box built from that radius.

    Geometry is not modelled: the eight frustum corners of a cascade, moved into light
    space, enter only through their distances to the frustum centre, which are given
    (as `glm::length` would return them, non-negative). Matrices are symbolic.
*/
module Cascades {

  /** `SHADOWMAP_CASCADE_COUNT`. */
  const CascadeCount: nat := 4

  /** The fixed split table: where each cascade ends, measured from the near plane. */
  const SplitTable: seq<real> := [6.25, 12.5, 25.0, 50.0]

  /** A symbolic matrix: the light's view matrix as given, an orthographic projection,
      or a product. */
  datatype Matrix = LightView(id: nat) | Ortho(box: Box) | Product(left: Matrix, right: Matrix)

  /** The bounds passed to `glm::ortho`: left, right, bottom, top, near, far. */
  datatype Box = Box(l: real, r: real, b: real, t: real, n: real, f: real)

  datatype CascadesGroup = CascadesGroup(viewProjMats: seq<Matrix>, splitDepths: seq<real>)

  /** The depth range a cascade covers, as distances from the camera. */
  datatype Interval = Interval(start: real, end: real)

  /** Where cascade `i` begins: the near plane for the first, else where the previous one ends. */
  function SplitStart(nearClip: real, i: nat): real
    requires i < CascadeCount
  {
    nearClip + (if i == 0 then 0.0 else SplitTable[i - 1])
  }

  function SplitEnd(nearClip: real, i: nat): real
    requires i < CascadeCount
  {
    nearClip + SplitTable[i]
  }

  /** The intervals are contiguous: each cascade starts where the previous one ended,
      the first at the near plane. */
  lemma SplitsContiguous(nearClip: real, i: nat)
    requires i + 1 < CascadeCount
    ensures SplitStart(nearClip, i + 1) == SplitEnd(nearClip, i)
    ensures SplitStart(nearClip, 0) == nearClip
  {
  }

  /** Split depths grow strictly with the cascade index, and no interval is empty. */
  lemma SplitDepthsIncrease(nearClip: real, i: nat, j: nat)
    requires i < j < CascadeCount
    ensures SplitEnd(nearClip, i) < SplitEnd(nearClip, j)
    ensures SplitStart(nearClip, i) < SplitEnd(nearClip, i)
  {
  }

  /** `ceil(x)` over the reals. */
  function Ceil(x: real): (c: int)
    ensures c as real >= x && (c as real) < x + 1.0
  {
    -((-x).Floor)
  }

  /** `ceil(radius * 16) / 16`: the radius rounded up to a multiple of 1/16. */
  function RoundRadius(radius: real): real {
    Ceil(radius * 16.0) as real / 16.0
  }

  /** The rounded radius is at least the raw radius, less than 1/16 above it, and a
      whole number of sixteenths. */
  lemma RoundRadiusBounds(radius: real)
    ensures RoundRadius(radius) >= radius
    ensures RoundRadius(radius) < radius + 1.0 / 16.0
    ensures RoundRadius(radius) * 16.0 == Ceil(radius * 16.0) as real
  {
  }

  /** Rounding a whole number of sixteenths keeps it, so rounding is idempotent. */
  lemma RoundRadiusIdempotent(radius: real)
    ensures RoundRadius(RoundRadius(radius)) == RoundRadius(radius)
  {
    var k := Ceil(radius * 16.0);
    assert RoundRadius(radius) * 16.0 == k as real;
    assert Ceil(k as real) == k;
  }

  /** The light-space box of radius `radius`: `max = (radius, radius, radius)`, `min =
      -max`, and the near and far planes flipped because positive z points at the viewer. */
  function BoxFor(radius: real): (box: Box)
    ensures box.r == radius && box.t == radius && box.f == radius
    ensures box.l == -box.r && box.b == -box.t && box.n == -box.f
  {
    var maxZ := radius;
    var minZ := -radius;
    Box(-radius, radius, -radius, radius, -maxZ, -minZ)
  }

  /** The largest of `distances` and 0 (the starting radius). */
  function MaxOf(distances: seq<real>): (m: real)
    ensures m >= 0.0
    ensures forall k :: 0 <= k < |distances| ==> distances[k] <= m
    ensures m == 0.0 || m in distances
  {
    if |distances| == 0 then 0.0
    else
      var rest := MaxOf(distances[..|distances| - 1]);
      var last := distances[|distances| - 1];
      assert distances == distances[..|distances| - 1] + [last];
      if rest < last then last else rest
  }

  /** The inner loop: the radius grows to the largest corner distance. */
  method FrustumRadius(distances: seq<real>) returns (radius: real)
    ensures radius == MaxOf(distances)
  {
    radius := 0.0;
    for k := 0 to |distances|
      invariant radius == MaxOf(distances[..k])
    {
      assert distances[..k + 1][..k] == distances[..k];
      radius := if radius < distances[k] then distances[k] else radius;
    }
    assert distances[..|distances|] == distances;
  }

  /** The rounded box radius of cascade `i` whose light-space corners lie at `distances`
      from the frustum centre. */
  function CascadeRadius(distances: seq<real>): real {
    RoundRadius(MaxOf(distances))
  }

  /** The matrix of a cascade: the orthographic box around its corners, composed with
      the light's view matrix. */
  function CascadeMatrix(viewMat: Matrix, distances: seq<real>): Matrix {
    Product(Ortho(BoxFor(CascadeRadius(distances))), viewMat)
  }

  /** `shadowmapCascadesMatrices`: for each cascade in turn, its interval, the radius of
      its corners, and the box and matrix built from it. `cornerDistances[i]` holds the
      eight corner distances of cascade `i`. */
  method ShadowmapCascadesMatrices(viewMat: Matrix, nearClip: real, cornerDistances: seq<seq<real>>)
    returns (cascades: CascadesGroup, intervals: seq<Interval>)
    requires |cornerDistances| == CascadeCount
    ensures |cascades.viewProjMats| == CascadeCount && |cascades.splitDepths| == CascadeCount
    ensures |intervals| == CascadeCount
    ensures forall i :: 0 <= i < CascadeCount ==>
      intervals[i] == Interval(SplitStart(nearClip, i), SplitEnd(nearClip, i))
      && cascades.splitDepths[i] == SplitEnd(nearClip, i)
      && cascades.viewProjMats[i] == CascadeMatrix(viewMat, cornerDistances[i])
  {
    var viewProjMats: seq<Matrix> := seq(CascadeCount, _ => viewMat);
    var splitDepths: seq<real> := seq(CascadeCount, _ => 0.0);
    intervals := [];
    var lastSplitDist := 0.0;
    for i := 0 to CascadeCount
      invariant |viewProjMats| == CascadeCount && |splitDepths| == CascadeCount && |intervals| == i
      invariant lastSplitDist == (if i == 0 then 0.0 else SplitTable[i - 1])
      invariant forall j :: 0 <= j < i ==> intervals[j] == Interval(SplitStart(nearClip, j), SplitEnd(nearClip, j))
      invariant forall j :: 0 <= j < i ==> splitDepths[j] == SplitEnd(nearClip, j)
      invariant forall j :: 0 <= j < i ==> viewProjMats[j] == CascadeMatrix(viewMat, cornerDistances[j])
    {
      var splitDist := SplitTable[i];
      var splitStart := nearClip + lastSplitDist;
      var splitEnd := nearClip + splitDist;
      assert splitStart == SplitStart(nearClip, i) && splitEnd == SplitEnd(nearClip, i);
      lastSplitDist := splitDist;

      var radius := FrustumRadius(cornerDistances[i]);
      radius := RoundRadius(radius);
      var projMat := Ortho(BoxFor(radius));
      assert Product(projMat, viewMat) == CascadeMatrix(viewMat, cornerDistances[i]);
      viewProjMats := viewProjMats[i := Product(projMat, viewMat)];
      splitDepths := splitDepths[i := splitEnd];
      intervals := intervals + [Interval(splitStart, splitEnd)];
    }
    cascades := CascadesGroup(viewProjMats, splitDepths);
  }

  /** Every corner's given distance from the cascade's frustum center is at most the
      half-width of its box; the box is symmetric about the light-view origin, and its
      near and far planes are each other's negation. Whether the box, placed at that
      origin, contains the corners themselves is not stated, since the corners are not
      modelled. */
  lemma CascadeBoxEnclosesCorners(distances: seq<real>)
    ensures var box := BoxFor(CascadeRadius(distances));
      box.r >= 0.0 && box.l == -box.r && box.n == -box.f
      && forall k :: 0 <= k < |distances| ==> distances[k] <= box.r
  {
    RoundRadiusBounds(MaxOf(distances));
  }
}
