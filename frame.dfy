/** The order of the render passes in one frame of `EngineApp::run` (src/EngineApp.cpp):
    a shadow-map pass per cascade, 0 to 3, each rendered by the shadow-map system when
    it is enabled with that cascade active, then the main pass, in which the enabled
    render systems draw in the order they were created (the simple system, then the
    point-light billboards).

    Command recording is modelled as the sequence of these events; the billboard
    system's own commands are those of `Billboards.Render`.
*/
module Frames {
  import Common
  import Objects
  import Billboards
  import Cascades

  datatype FrameEvent =
    | ShadowPassBegin(cascade: nat)
    | ShadowRender(cascade: nat)
    | ShadowPassEnd(cascade: nat)
    | MainPassBegin
    | SimpleRender
    | BillboardRender(commands: seq<Billboards.Command>)
    | MainPassEnd

  /** The shadow pass of cascade `i`: begin, render with cascade `i` active when the
      shadow-map system exists, end. */
  function CascadePass(shadowSystem: bool, i: nat): seq<FrameEvent> {
    [ShadowPassBegin(i)] + (if shadowSystem then [ShadowRender(i)] else []) + [ShadowPassEnd(i)]
  }

  /** How many events one cascade's pass records. */
  function PassLength(shadowSystem: bool): nat {
    if shadowSystem then 3 else 2
  }

  /** The shadow passes of cascades `0` to `n - 1`, in order. */
  function ShadowPasses(shadowSystem: bool, n: nat): (r: seq<FrameEvent>)
    ensures |r| == n * PassLength(shadowSystem)
  {
    if n == 0 then [] else ShadowPasses(shadowSystem, n - 1) + CascadePass(shadowSystem, n - 1)
  }

  /** The main pass: the simple system draws, then the billboards, each if enabled. */
  function MainPass(simpleSystem: bool, billboardSystem: bool, billboards: seq<Billboards.Command>): seq<FrameEvent> {
    [MainPassBegin] + (if simpleSystem then [SimpleRender] else [])
    + (if billboardSystem then [BillboardRender(billboards)] else []) + [MainPassEnd]
  }

  /** What the billboard system records for the scene seen from `camera`. */
  function BillboardCommands(objects: map<nat, Objects.GameObject>, order: seq<nat>, camera: Common.Vec3)
    : (r: seq<Billboards.Command>)
    requires Billboards.WellFormedScene(objects, order)
    ensures |r| == 2 + 2 * |Billboards.SortedLights(objects, order, camera)|
  {
    Billboards.EntriesHaveBillboards(objects, order, camera);
    [Billboards.BindPipeline, Billboards.BindDescriptorSets]
    + Billboards.DrawsFrom(objects, Billboards.SortedLights(objects, order, camera))
  }

  /** The shadow-map loop of `run`: one pass per cascade, in order. */
  method RecordShadowPasses(shadowSystem: bool) returns (events: seq<FrameEvent>)
    ensures events == ShadowPasses(shadowSystem, Cascades.CascadeCount)
  {
    events := [];
    for i := 0 to Cascades.CascadeCount
      invariant events == ShadowPasses(shadowSystem, i)
    {
      events := events + [ShadowPassBegin(i)];
      if shadowSystem {
        events := events + [ShadowRender(i)];
      }
      events := events + [ShadowPassEnd(i)];
    }
  }

  /** Everything a started frame records. */
  function FrameEvents(shadowSystem: bool, simpleSystem: bool, billboardSystem: bool,
                       billboards: seq<Billboards.Command>): seq<FrameEvent> {
    ShadowPasses(shadowSystem, Cascades.CascadeCount) + MainPass(simpleSystem, billboardSystem, billboards)
  }

  /** Cascade `k`'s pass sits at position `k * PassLength`: it begins there, ends
      `PassLength - 1` later, and in between renders with cascade `k` active exactly
      when the shadow-map system exists. */
  lemma {:induction false} ShadowPassesAt(shadowSystem: bool, n: nat, k: nat)
    requires k < n
    ensures var r := ShadowPasses(shadowSystem, n);
      var at := k * PassLength(shadowSystem);
      r[at] == ShadowPassBegin(k) && r[at + PassLength(shadowSystem) - 1] == ShadowPassEnd(k)
      && (shadowSystem ==> r[at + 1] == ShadowRender(k))
  {
    if k < n - 1 {
      ShadowPassesAt(shadowSystem, n - 1, k);
    }
  }

  /** A shadow pass event belongs to one of the cascades, and the shadow-map system
      renders only when it exists. */
  lemma {:induction false} ShadowPassesOnly(shadowSystem: bool, n: nat, i: nat)
    requires i < n * PassLength(shadowSystem)
    ensures var e := ShadowPasses(shadowSystem, n)[i];
      (e.ShadowPassBegin? || e.ShadowRender? || e.ShadowPassEnd?) && e.cascade < n
      && (e.ShadowRender? ==> shadowSystem)
  {
    if i < (n - 1) * PassLength(shadowSystem) {
      ShadowPassesOnly(shadowSystem, n - 1, i);
    }
  }

  /** A frame records the four cascade passes in order, cascade `k` at `k * PassLength`,
      and then the main pass: it begins right after the last shadow pass ends, the
      frame's last event ends it, and the simple system draws before the billboards. */
  lemma FrameOrder(shadowSystem: bool, simpleSystem: bool, billboardSystem: bool,
                   billboards: seq<Billboards.Command>, k: nat)
    requires k < Cascades.CascadeCount
    ensures var events := FrameEvents(shadowSystem, simpleSystem, billboardSystem, billboards);
      var len := PassLength(shadowSystem);
      var shadows := Cascades.CascadeCount * len;
      events[k * len] == ShadowPassBegin(k) && events[k * len + len - 1] == ShadowPassEnd(k)
      && (shadowSystem ==> events[k * len + 1] == ShadowRender(k))
      && events[shadows - 1] == ShadowPassEnd(Cascades.CascadeCount - 1)
      && events[shadows] == MainPassBegin && events[|events| - 1] == MainPassEnd
      && (simpleSystem ==> events[shadows + 1] == SimpleRender)
      && (billboardSystem ==> events[|events| - 2] == BillboardRender(billboards))
  {
    ShadowPassesAt(shadowSystem, Cascades.CascadeCount, k);
    ShadowPassesAt(shadowSystem, Cascades.CascadeCount, Cascades.CascadeCount - 1);
  }

  /** The main pass begins and ends once per frame, and nothing before it is part of it. */
  lemma MainPassOnce(shadowSystem: bool, simpleSystem: bool, billboardSystem: bool,
                     billboards: seq<Billboards.Command>, i: nat)
    requires i < |FrameEvents(shadowSystem, simpleSystem, billboardSystem, billboards)|
    ensures var events := FrameEvents(shadowSystem, simpleSystem, billboardSystem, billboards);
      var shadows := Cascades.CascadeCount * PassLength(shadowSystem);
      (events[i] == MainPassBegin <==> i == shadows)
      && (events[i] == MainPassEnd <==> i == |events| - 1)
      && (i < shadows ==> events[i].ShadowPassBegin? || events[i].ShadowRender? || events[i].ShadowPassEnd?)
  {
    var shadows := Cascades.CascadeCount * PassLength(shadowSystem);
    if i < shadows {
      ShadowPassesOnly(shadowSystem, Cascades.CascadeCount, i);
    }
  }
}
