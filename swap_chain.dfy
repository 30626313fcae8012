/** The present chain (src/SwapChain.cpp): the choices made when a chain is created,
    and the bookkeeping of frame slots and image owners done on every frame.

    Vulkan handles are abstract: a frame slot's fence and semaphores are named by
    the slot index, an image and the views, depth buffers and framebuffers made for
    it by the image index. Result codes are an enum; the driver's answers (the
    result of acquiring or presenting, whether a submit is accepted, how many
    images a chain gets) are parameters.
*/
module SwapChains {
  import opened Wrappers

  /** `MAX_FRAMES_IN_FLIGHT`. */
  const MaxFramesInFlight: nat := 2

  const UInt32Max: nat := 0xFFFF_FFFF

  type UInt32 = x: nat | x <= UInt32Max

  datatype VkResult = Success | Suboptimal | ErrorOutOfDate | OtherResult(code: int)

  /** `VK_FORMAT_B8G8R8A8_SRGB` and `VK_COLOR_SPACE_SRGB_NONLINEAR_KHR`. */
  const FormatB8G8R8A8Srgb: nat := 50
  const ColorSpaceSrgbNonlinear: nat := 0

  datatype SurfaceFormat = SurfaceFormat(format: nat, colorSpace: nat)

  datatype PresentMode = Immediate | Mailbox | Fifo | FifoRelaxed

  datatype Extent = Extent(width: UInt32, height: UInt32)

  datatype Capabilities = Capabilities(
    minImageCount: UInt32,
    maxImageCount: UInt32,
    currentExtent: Extent,
    minImageExtent: Extent,
    maxImageExtent: Extent)

  /** What the device reports for a surface. */
  datatype SupportDetails = SupportDetails(
    capabilities: Capabilities,
    formats: seq<SurfaceFormat>,
    presentModes: seq<PresentMode>)

  // ---------------------------------------------------------------------------
  // Choices made when the chain is created
  // ---------------------------------------------------------------------------

  predicate IsPreferredFormat(f: SurfaceFormat) {
    f.format == FormatB8G8R8A8Srgb && f.colorSpace == ColorSpaceSrgbNonlinear
  }

  /** The index of the first preferred format at or after `from`. */
  function FirstPreferred(formats: seq<SurfaceFormat>, from: nat): (r: Option<nat>)
    requires from <= |formats|
    ensures r.Some? ==> (from <= r.value < |formats| && IsPreferredFormat(formats[r.value])
      && forall j :: from <= j < r.value ==> !IsPreferredFormat(formats[j]))
    ensures r.None? ==> forall j :: from <= j < |formats| ==> !IsPreferredFormat(formats[j])
    decreases |formats| - from
  {
    if from == |formats| then None
    else if IsPreferredFormat(formats[from]) then Some(from)
    else FirstPreferred(formats, from + 1)
  }

  /** `chooseSwapSurfaceFormat`: the first B8G8R8A8 sRGB / sRGB-nonlinear entry, else the
      first entry (the source indexes entry 0, so the list must not be empty). */
  function ChooseSwapSurfaceFormat(formats: seq<SurfaceFormat>): (r: SurfaceFormat)
    requires |formats| > 0
    ensures r in formats
    ensures IsPreferredFormat(r) <==> exists i :: 0 <= i < |formats| && IsPreferredFormat(formats[i])
    ensures IsPreferredFormat(r) ==>
      exists i :: (0 <= i < |formats| && formats[i] == r && forall j :: 0 <= j < i ==> !IsPreferredFormat(formats[j]))
    ensures !IsPreferredFormat(r) ==> r == formats[0]
  {
    match FirstPreferred(formats, 0)
    case Some(i) => formats[i]
    case None => formats[0]
  }

  /** `chooseSwapPresentMode`: mailbox when the device offers it, else FIFO (which every
      device supports). */
  function ChooseSwapPresentMode(modes: seq<PresentMode>): (r: PresentMode)
    ensures r == Mailbox <==> Mailbox in modes
    ensures r != Mailbox ==> r == Fifo
  {
    if |modes| == 0 then Fifo
    else if modes[0] == Mailbox then Mailbox
    else
      assert modes == [modes[0]] + modes[1..];
      ChooseSwapPresentMode(modes[1..])
  }

  function Min(a: nat, b: nat): nat { if a < b then a else b }
  function Max(a: nat, b: nat): nat { if a < b then b else a }

  /** One dimension of `chooseSwapExtent`: `max(lo, min(hi, wanted))`. */
  function ClampDimension(lo: UInt32, hi: UInt32, wanted: UInt32): (r: UInt32)
    ensures r >= lo
    ensures lo <= hi ==> r <= hi
    ensures lo <= wanted <= hi ==> r == wanted
    ensures wanted < lo ==> r == lo
    ensures lo <= hi < wanted ==> r == hi
  {
    Max(lo, Min(hi, wanted))
  }

  /** `chooseSwapExtent`: the surface's current extent unless its width is the
      "undefined" value UINT32_MAX, else the window's extent clamped to the allowed range. */
  function ChooseSwapExtent(c: Capabilities, windowExtent: Extent): (r: Extent)
    ensures c.currentExtent.width != UInt32Max ==> r == c.currentExtent
    ensures c.currentExtent.width == UInt32Max ==>
      r.width == ClampDimension(c.minImageExtent.width, c.maxImageExtent.width, windowExtent.width)
      && r.height == ClampDimension(c.minImageExtent.height, c.maxImageExtent.height, windowExtent.height)
  {
    if c.currentExtent.width != UInt32Max then c.currentExtent
    else Extent(
      ClampDimension(c.minImageExtent.width, c.maxImageExtent.width, windowExtent.width),
      ClampDimension(c.minImageExtent.height, c.maxImageExtent.height, windowExtent.height))
  }

  /** When the extent is chosen, it never falls below the surface's minimum. */
  lemma ChosenExtentAtLeastMinimum(c: Capabilities, windowExtent: Extent)
    requires c.currentExtent.width == UInt32Max
    ensures ChooseSwapExtent(c, windowExtent).width >= c.minImageExtent.width
    ensures ChooseSwapExtent(c, windowExtent).height >= c.minImageExtent.height
  {
  }

  /** The image count `createSwapChain` asks for: one more than the minimum (in 32-bit
      arithmetic), lowered to the maximum when there is one (a maximum of 0 means none). */
  function RequestedImageCount(c: Capabilities): (r: UInt32)
    ensures c.maxImageCount > 0 ==> r <= c.maxImageCount
    ensures c.minImageCount < UInt32Max && (c.maxImageCount == 0 || c.minImageCount < c.maxImageCount) ==>
      r == c.minImageCount + 1
    ensures c.minImageCount < UInt32Max && 0 < c.maxImageCount <= c.minImageCount ==> r == c.maxImageCount
    ensures c.minImageCount == UInt32Max ==> r == 0
  {
    var count := (c.minImageCount + 1) % (UInt32Max + 1);
    if c.maxImageCount > 0 && count > c.maxImageCount then c.maxImageCount else count
  }

  /** With consistent limits (a minimum of at least one image, not above the maximum
      when there is one), the chain asks for more images than the minimum whenever the
      maximum allows it, and never for fewer than the minimum. */
  lemma RequestedImageCountWithinLimits(c: Capabilities)
    requires 1 <= c.minImageCount < UInt32Max
    requires c.maxImageCount == 0 || c.minImageCount <= c.maxImageCount
    ensures c.minImageCount <= RequestedImageCount(c)
    ensures RequestedImageCount(c) > c.minImageCount <==> (c.maxImageCount == 0 || c.maxImageCount > c.minImageCount)
  {
  }

  // ---------------------------------------------------------------------------
  // The chain
  // ---------------------------------------------------------------------------

  class SwapChain {
    var imageFormat: nat
    var depthFormat: nat
    var extent: Extent
    var presentMode: PresentMode
    var requestedImageCount: UInt32
    /** One entry per image the driver created, and one entry per image in each
        per-image resource list. */
    var images: seq<nat>
    var imageViews: seq<nat>
    var depthImages: seq<nat>
    var depthImageMemories: seq<nat>
    var depthImageViews: seq<nat>
    var framebuffers: seq<nat>
    /** Per frame slot: whether its fence was created signalled. Only this initial
        state is recorded; the waits on and resets of the fences during a frame are
        not modelled, so no operation changes it afterwards. */
    var inFlightFencesSignalled: seq<bool>
    /** Per image: the frame slot whose fence last took the image, if any. */
    var imagesInFlight: seq<Option<nat>>
    /** The frame slot in use. */
    var currentFrame: nat

    predicate PerImageResources()
      reads this
    {
      |imageViews| == |images| && |depthImages| == |images| && |depthImageMemories| == |images|
      && |depthImageViews| == |images| && |framebuffers| == |images| && |imagesInFlight| == |images|
    }

    /** The slot is a valid slot, and every image owner is a valid slot. */
    predicate Valid()
      reads this
    {
      PerImageResources()
      && currentFrame < MaxFramesInFlight
      && |inFlightFencesSignalled| == MaxFramesInFlight
      && forall i :: 0 <= i < |imagesInFlight| && imagesInFlight[i].Some? ==> imagesInFlight[i].value < MaxFramesInFlight
    }

    /** `SwapChain(device, windowExtent)`: chooses format, present mode, extent and image
        count from what the device supports; the driver then creates `driverImageCount`
        images, each of which gets its view, depth image, memory, depth view and
        framebuffer. Fences start signalled and no image has an owner. */
    constructor(support: SupportDetails, windowExtent: Extent, driverImageCount: nat, depth: nat)
      requires |support.formats| > 0
      ensures Valid()
      ensures imageFormat == ChooseSwapSurfaceFormat(support.formats).format && depthFormat == depth
      ensures presentMode == ChooseSwapPresentMode(support.presentModes)
      ensures extent == ChooseSwapExtent(support.capabilities, windowExtent)
      ensures requestedImageCount == RequestedImageCount(support.capabilities)
      ensures |images| == driverImageCount
      ensures currentFrame == 0
      ensures inFlightFencesSignalled == [true, true]
      ensures forall i :: 0 <= i < |imagesInFlight| ==> imagesInFlight[i].None?
    {
      imageFormat := ChooseSwapSurfaceFormat(support.formats).format;
      presentMode := ChooseSwapPresentMode(support.presentModes);
      extent := ChooseSwapExtent(support.capabilities, windowExtent);
      requestedImageCount := RequestedImageCount(support.capabilities);
      depthFormat := depth;
      var handles := seq(driverImageCount, i => i);
      images := handles;
      imageViews := handles;
      depthImages := handles;
      depthImageMemories := handles;
      depthImageViews := handles;
      framebuffers := handles;
      inFlightFencesSignalled := [true, true];
      imagesInFlight := seq(driverImageCount, i => None);
      currentFrame := 0;
    }

    /** `compareSwapFormats`: both the image and the depth format agree. */
    predicate SameFormats(other: SwapChain)
      reads this, other
      ensures SameFormats(other) <==> other.imageFormat == imageFormat && other.depthFormat == depthFormat
    {
      other.depthFormat == depthFormat && other.imageFormat == imageFormat
    }

    /** `acquireNextImage`: waits on the current slot's fence and asks the driver for an
        image, signalling the current slot's semaphore. The slot does not change. */
    method AcquireNextImage(driverResult: VkResult, driverImageIndex: nat)
      returns (result: VkResult, imageIndex: nat, fenceWaited: nat, semaphoreSignalled: nat)
      requires Valid()
      ensures fenceWaited == currentFrame && semaphoreSignalled == currentFrame
      ensures fenceWaited < MaxFramesInFlight
      ensures result == driverResult && imageIndex == driverImageIndex
    {
      fenceWaited := currentFrame;
      result := driverResult;
      imageIndex := driverImageIndex;
      semaphoreSignalled := currentFrame;
    }

    /** `submitCommandBuffers`: waits on the image's previous owner (if any), makes the
        current slot its owner, submits (a refused submit throws before the slot moves
        on), presents, and moves to the next slot. */
    method SubmitCommandBuffers(imageIndex: nat, submitAccepted: bool, presentResult: VkResult)
      returns (r: Result<VkResult>, waitedOn: Option<nat>)
      requires Valid() && imageIndex < |images|
      modifies this
      ensures Valid()
      ensures waitedOn == old(imagesInFlight[imageIndex])
      ensures imagesInFlight == old(imagesInFlight)[imageIndex := Some(old(currentFrame))]
      ensures !submitAccepted ==> r == Err(Exception("failed to submit draw command buffer!")) && currentFrame == old(currentFrame)
      ensures submitAccepted ==> r == Ok(presentResult) && currentFrame == (old(currentFrame) + 1) % MaxFramesInFlight
      ensures images == old(images) && imageViews == old(imageViews) && depthImages == old(depthImages)
      ensures depthImageMemories == old(depthImageMemories) && depthImageViews == old(depthImageViews)
      ensures framebuffers == old(framebuffers) && inFlightFencesSignalled == old(inFlightFencesSignalled)
      ensures imageFormat == old(imageFormat) && depthFormat == old(depthFormat) && extent == old(extent)
      ensures presentMode == old(presentMode) && requestedImageCount == old(requestedImageCount)
    {
      waitedOn := imagesInFlight[imageIndex];
      imagesInFlight := imagesInFlight[imageIndex := Some(currentFrame)];
      if !submitAccepted {
        return Err(Exception("failed to submit draw command buffer!")), waitedOn;
      }
      currentFrame := (currentFrame + 1) % MaxFramesInFlight;
      r := Ok(presentResult);
    }
  }

  /** Comparing formats is an equivalence: every chain agrees with itself, the answer
      does not depend on which chain asks, and agreement carries over a third chain. */
  lemma SameFormatsIsEquivalence(a: SwapChain, b: SwapChain, c: SwapChain)
    ensures a.SameFormats(a)
    ensures a.SameFormats(b) <==> b.SameFormats(a)
    ensures a.SameFormats(b) && b.SameFormats(c) ==> a.SameFormats(c)
  {
  }
}
