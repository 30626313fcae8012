/** The frame state machine of the renderer (src/OmniVRenderer.cpp): beginning and
    ending frames over a present chain, and recreating the chain when the driver
    or the window says it is stale.

    The chain is the one modelled in `SwapChains` (src/SwapChain.cpp); the renderer's
    own header names it `OmniVSwapChain`, whose source is not part of this model and
    is assumed to be the same design.
    The driver's answers and the device's surface support are parameters.
*/
module Renderers {
  import opened Wrappers
  import opened SwapChains

  /** The window: its framebuffer extent and the flag its resize callback sets. */
  class Window {
    var extent: Extent
    var framebufferResized: bool

    constructor(e: Extent)
      ensures extent == e && !framebufferResized
    {
      extent := e;
      framebufferResized := false;
    }
  }

  /** What the device reports when a chain is (re)created: the surface support, how many
      images the driver makes and the depth format it supports. */
  datatype Device = Device(support: SupportDetails, imageCount: nat, depthFormat: nat)

  predicate Usable(device: Device) {
    |device.support.formats| > 0
  }

  /** Whether `endFrame` recreates the chain after presenting. */
  predicate RecreatesAfterPresent(presented: VkResult, resized: bool) {
    presented == ErrorOutOfDate || presented == Suboptimal || resized
  }

  /** The outcome of `endFrame`, checked in the source's order: the recording, the
      submit, then the present result (a recreation passes unless the formats changed). */
  function EndOutcome(recordAccepted: bool, submitAccepted: bool, presented: VkResult,
                      resized: bool, sameFormats: bool): Outcome
  {
    if !recordAccepted then Fail(Exception("failed to record command buffer!"))
    else if !submitAccepted then Fail(Exception("failed to submit draw command buffer!"))
    else if RecreatesAfterPresent(presented, resized) then
      (if sameFormats then Pass else Fail(Exception("Swap chain image(or depth) format has changed!")))
    else if presented != Success then Fail(Exception("failed to present swap chain image!"))
    else Pass
  }

  /** A frame ends normally exactly when it was recorded and submitted and the present
      either succeeded or led to a recreation that kept the formats. */
  lemma EndPassesExactly(recordAccepted: bool, submitAccepted: bool, presented: VkResult,
                         resized: bool, sameFormats: bool)
    ensures EndOutcome(recordAccepted, submitAccepted, presented, resized, sameFormats).Pass? <==>
      recordAccepted && submitAccepted
      && (if RecreatesAfterPresent(presented, resized) then sameFormats else presented == Success)
    ensures EndOutcome(recordAccepted, submitAccepted, presented, resized, sameFormats).Fail? ==>
      EndOutcome(recordAccepted, submitAccepted, presented, resized, sameFormats).error.Exception?
  {
  }

  class Renderer {
    const window: Window
    var swapChain: SwapChain
    /** One command buffer per frame slot. */
    var commandBuffers: seq<nat>
    var currentImageIndex: nat
    var currentFrameIndex: nat
    var isFrameStarted: bool

    predicate Valid()
      reads this, swapChain
    {
      swapChain.Valid()
      && |commandBuffers| == MaxFramesInFlight
      && currentFrameIndex < MaxFramesInFlight
    }

    /** The renderer's constructor: creates the first chain (there is no old one to
        compare with) and one command buffer per frame slot. */
    constructor(w: Window, device: Device)
      requires Usable(device)
      ensures Valid() && window == w && fresh(swapChain)
      ensures !isFrameStarted && currentFrameIndex == 0
    {
      window := w;
      swapChain := new SwapChain(device.support, w.extent, device.imageCount, device.depthFormat);
      commandBuffers := [0, 1];
      currentFrameIndex := 0;
      currentImageIndex := 0;
      isFrameStarted := false;
    }

    /** `getCurrentCommandBuffer`: only while a frame is in progress. */
    function CurrentCommandBuffer(): (b: nat)
      requires Valid() && isFrameStarted
      reads this, swapChain
      ensures b in commandBuffers
    {
      commandBuffers[currentFrameIndex]
    }

    /** `getFrameIndex`: only while a frame is in progress. */
    function FrameIndex(): (i: nat)
      requires Valid() && isFrameStarted
      reads this, swapChain
      ensures i < MaxFramesInFlight
    {
      currentFrameIndex
    }

    /** `recreateSwapChain` once a chain exists: the new chain replaces the old one, and
        then a change of image or depth format throws. */
    method RecreateSwapChain(device: Device) returns (o: Outcome)
      requires Valid() && Usable(device)
      modifies this
      ensures Valid() && fresh(swapChain)
      ensures swapChain.imageFormat == ChooseSwapSurfaceFormat(device.support.formats).format
      ensures swapChain.depthFormat == device.depthFormat && |swapChain.images| == device.imageCount
      ensures swapChain.currentFrame == 0
      ensures o == if old(swapChain).SameFormats(swapChain) then Pass
                   else Fail(Exception("Swap chain image(or depth) format has changed!"))
      ensures isFrameStarted == old(isFrameStarted) && currentFrameIndex == old(currentFrameIndex)
      ensures currentImageIndex == old(currentImageIndex) && commandBuffers == old(commandBuffers)
    {
      var oldSwapChain := swapChain;
      swapChain := new SwapChain(device.support, window.extent, device.imageCount, device.depthFormat);
      if !oldSwapChain.SameFormats(swapChain) {
        return Fail(Exception("Swap chain image(or depth) format has changed!"));
      }
      return Pass;
    }

    /** `beginFrame`: acquires an image. An out-of-date chain is recreated and no command
        buffer is returned; any other result except success and suboptimal throws;
        otherwise the frame starts and the slot's command buffer begins recording. */
    method BeginFrame(device: Device, acquired: VkResult, imageIndex: nat, beginAccepted: bool)
      returns (r: Result<Option<nat>>)
      requires Valid() && Usable(device)
      requires !isFrameStarted
      requires (acquired == Success || acquired == Suboptimal) ==> imageIndex < |swapChain.images|
      modifies this
      ensures Valid()
      ensures currentFrameIndex == old(currentFrameIndex) && commandBuffers == old(commandBuffers)
      ensures currentImageIndex == imageIndex
      ensures acquired == ErrorOutOfDate ==>
        !isFrameStarted && fresh(swapChain)
        && r == (if old(swapChain).SameFormats(swapChain) then Ok(None)
                 else Err(Exception("Swap chain image(or depth) format has changed!")))
      ensures acquired.OtherResult? ==>
        !isFrameStarted && swapChain == old(swapChain)
        && r == Err(Exception("failed to acquire swap chain image!"))
      ensures (acquired == Success || acquired == Suboptimal) ==>
        isFrameStarted && swapChain == old(swapChain) && currentImageIndex < |swapChain.images|
        && r == (if beginAccepted then Ok(Some(commandBuffers[currentFrameIndex]))
                 else Err(Exception("failed to begin recording command buffer!")))
    {
      var result, index, fence, semaphore := swapChain.AcquireNextImage(acquired, imageIndex);
      currentImageIndex := index;
      if result == ErrorOutOfDate {
        var o := RecreateSwapChain(device);
        if o.Fail? {
          return Err(o.error);
        }
        return Ok(None);
      }
      if result != Success && result != Suboptimal {
        return Err(Exception("failed to acquire swap chain image!"));
      }
      isFrameStarted := true;
      var commandBuffer := CurrentCommandBuffer();
      if !beginAccepted {
        return Err(Exception("failed to begin recording command buffer!"));
      }
      return Ok(Some(commandBuffer));
    }

    /** `endFrame`: finishes recording, submits and presents through the chain. An
        out-of-date or suboptimal present, or a resized window, clears the resize flag
        and recreates the chain; any other failure throws with the frame still started.
        Otherwise the frame ends and the renderer moves to the next slot. */
    method EndFrame(device: Device, recordAccepted: bool, submitAccepted: bool, presented: VkResult)
      returns (o: Outcome)
      requires Valid() && Usable(device)
      requires isFrameStarted && currentImageIndex < |swapChain.images|
      modifies this, swapChain, window
      ensures Valid()
      ensures commandBuffers == old(commandBuffers) && currentImageIndex == old(currentImageIndex)
      ensures !recordAccepted ==>
        o == Fail(Exception("failed to record command buffer!")) && isFrameStarted
        && currentFrameIndex == old(currentFrameIndex) && swapChain == old(swapChain)
        && swapChain.imagesInFlight == old(swapChain.imagesInFlight)
      ensures recordAccepted ==>
        old(swapChain).imagesInFlight == old(swapChain.imagesInFlight)[old(currentImageIndex) := Some(old(swapChain.currentFrame))]
      ensures recordAccepted && !submitAccepted ==>
        o == Fail(Exception("failed to submit draw command buffer!")) && isFrameStarted
        && currentFrameIndex == old(currentFrameIndex) && swapChain == old(swapChain)
      ensures recordAccepted && submitAccepted ==>
        old(swapChain).currentFrame == (old(swapChain.currentFrame) + 1) % MaxFramesInFlight
      ensures recordAccepted && submitAccepted
              && (presented == ErrorOutOfDate || presented == Suboptimal || old(window.framebufferResized)) ==>
        !window.framebufferResized && fresh(swapChain)
        && o == (if old(swapChain).SameFormats(swapChain) then Pass
                 else Fail(Exception("Swap chain image(or depth) format has changed!")))
        && (o.Fail? ==> isFrameStarted && currentFrameIndex == old(currentFrameIndex))
      ensures !(recordAccepted && submitAccepted
                && (presented == ErrorOutOfDate || presented == Suboptimal || old(window.framebufferResized))) ==>
        swapChain == old(swapChain) && swapChain.images == old(swapChain.images)
        && window.framebufferResized == old(window.framebufferResized)
      ensures recordAccepted && submitAccepted
              && !(presented == ErrorOutOfDate || presented == Suboptimal || old(window.framebufferResized))
              && presented != Success ==>
        o == Fail(Exception("failed to present swap chain image!")) && isFrameStarted
        && currentFrameIndex == old(currentFrameIndex)
      ensures recordAccepted && submitAccepted && presented == Success && !old(window.framebufferResized) ==> o == Pass
      ensures o == EndOutcome(recordAccepted, submitAccepted, presented, old(window.framebufferResized),
                              old(swapChain).SameFormats(swapChain))
      ensures o.Pass? ==>
        !isFrameStarted && currentFrameIndex == (old(currentFrameIndex) + 1) % MaxFramesInFlight
    {
      if !recordAccepted {
        return Fail(Exception("failed to record command buffer!"));
      }
      var submitted, waitedOn := swapChain.SubmitCommandBuffers(currentImageIndex, submitAccepted, presented);
      if submitted.Err? {
        return Fail(submitted.error);
      }
      o := AfterPresent(device, submitted.value);
    }

    /** The part of `endFrame` after a submit the driver accepted: recreate the chain
        when asked to, throw on another failed present, and otherwise end the frame. */
    method AfterPresent(device: Device, presented: VkResult) returns (o: Outcome)
      requires Valid() && Usable(device) && isFrameStarted
      modifies this, window
      ensures Valid()
      ensures commandBuffers == old(commandBuffers) && currentImageIndex == old(currentImageIndex)
      ensures o == EndOutcome(true, true, presented, old(window.framebufferResized), old(swapChain).SameFormats(swapChain))
      ensures RecreatesAfterPresent(presented, old(window.framebufferResized)) ==>
        !window.framebufferResized && fresh(swapChain)
      ensures !RecreatesAfterPresent(presented, old(window.framebufferResized)) ==>
        swapChain == old(swapChain) && window.framebufferResized == old(window.framebufferResized)
      ensures o.Fail? ==> isFrameStarted && currentFrameIndex == old(currentFrameIndex)
      ensures o.Pass? ==>
        !isFrameStarted && currentFrameIndex == (old(currentFrameIndex) + 1) % MaxFramesInFlight
    {
      if RecreatesAfterPresent(presented, window.framebufferResized) {
        window.framebufferResized := false;
        o := RecreateSwapChain(device);
        if o.Fail? {
          return o;
        }
      } else if presented != Success {
        return Fail(Exception("failed to present swap chain image!"));
      }
      isFrameStarted := false;
      currentFrameIndex := (currentFrameIndex + 1) % MaxFramesInFlight;
      return Pass;
    }

    /** `beginSwapChainRenderPass`: only on the current slot's command buffer while a
        frame is in progress; renders into the acquired image's framebuffer over the
        chain's whole extent. */
    method BeginSwapChainRenderPass(commandBuffer: nat) returns (framebuffer: nat, renderArea: Extent)
      requires Valid() && isFrameStarted && currentImageIndex < |swapChain.images|
      requires commandBuffer == CurrentCommandBuffer()
      ensures framebuffer == swapChain.framebuffers[currentImageIndex]
      ensures renderArea == swapChain.extent
    {
      framebuffer := swapChain.framebuffers[currentImageIndex];
      renderArea := swapChain.extent;
    }

    /** `endSwapChainRenderPass`: the same preconditions; it only records the end of the
        pass, so the frame state is untouched. */
    method EndSwapChainRenderPass(commandBuffer: nat) returns (endedOn: nat)
      requires Valid() && isFrameStarted
      requires commandBuffer == CurrentCommandBuffer()
      ensures endedOn == commandBuffers[currentFrameIndex]
    {
      endedOn := commandBuffer;
    }
  }
}
