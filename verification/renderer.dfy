/**
 * The Renderer object: its device, swapchain generation, frame slots and
 * persistent uniform mappings, and the operations that change them — Init,
 * Render (one frame of the wait / acquire / record+submit / present
 * protocol), CleanUpSwapChain, RecreateSwapChain, Clean and
 * UpdateUniformBuffer.
 *
 * Vulkan objects are opaque handles drawn from a counter that stands in for
 * the driver. The ghost map `owned` records which handles are alive, their
 * kind and the handles they reference, so that "nothing alive references a
 * destroyed object" can be stated; `events` records the order of creations
 * and destructions. Fence signal state and submitted-but-unfinished work
 * live on the GPU and are ghost.
 */
module Rendering {
  import opened VkTypes
  import opened SwapchainPolicy
  import opened DeviceSelection
  import opened Descriptors
  import opened ResourceLog
  import opened Ownership

  /** Size of Utils::UniformBufferObject: three 4x4 float matrices (model, view, projection). */
  const UNIFORM_BUFFER_OBJECT_SIZE: nat := 192

  type UniformBufferObject = b: seq<bv8> | |b| == UNIFORM_BUFFER_OBJECT_SIZE
    witness seq(UNIFORM_BUFFER_OBJECT_SIZE, _ => 0)

  const ZERO_UNIFORM_BUFFER_OBJECT: UniformBufferObject := seq(UNIFORM_BUFFER_OBJECT_SIZE, _ => 0)

  /** The policy bundle given to the constructor; None stands for a null std::function. */
  datatype RendererCustomFuncs = RendererCustomFuncs(
    checkSuitableDeviceFunc: Option<PhysicalDevice -> bool>,
    setPhysicalDeviceFeaturesFunc: Option<DeviceFeatures -> DeviceFeatures>,
    checkSwapSurfaceFormatFunc: Option<SurfaceFormat -> bool>,
    checkSwapPresentModeFunc: Option<PresentMode -> bool>,
    renderFunc: bool)

  /** The device predicate a renderer built with funcs uses: the caller's, or the built-in check when none is given. */
  function DeviceCheckFor(funcs: RendererCustomFuncs): PhysicalDevice -> bool {
    if funcs.checkSuitableDeviceFunc.Some? then funcs.checkSuitableDeviceFunc.value else DefaultCheckSuitableDevice
  }

  /**
   * What the window system and driver report when a swapchain is built: the
   * surface's support details, the window's framebuffer size, and the images
   * vkGetSwapchainImagesKHR returns.
   */
  datatype SurfaceState = SurfaceState(
    support: SwapChainSupportDetails,
    framebufferWidth: int,
    framebufferHeight: int,
    swapChainImages: seq<Handle>)

  /** ChooseSwapSurfaceFormat indexes the first format, so the list must not be empty. */
  predicate SurfaceUsable(surface: SurfaceState) {
    |surface.support.formats| > 0
  }

  /** The Vulkan calls of Init that can report failure (each raises in the source). */
  datatype InitStage =
    | CreateInstanceStage
    | SetupDebugMessengerStage
    | CreateSurfaceStage
    | CreateLogicalDeviceStage
    | CreateSwapChainStage
    | CreateDescriptorSetLayoutStage
    | CreateDescriptorPoolStage
    | AllocateDescriptorSetsStage
    | CreateCommandPoolStage
    | AllocateCommandBuffersStage
    | CreateSyncObjectsStage

  datatype InitError = ApiCallFailed(stage: InitStage) | NoSuitableGpu

  /**
   * Init's environment: the enumerated accelerators, the window's
   * framebuffer size, the images the first swapchain will hold, whether
   * validation layers are enabled (debug build), and which Vulkan call, if
   * any, reports failure.
   */
  datatype Platform = Platform(
    physicalDevices: seq<PhysicalDevice>,
    framebufferWidth: int,
    framebufferHeight: int,
    swapChainImages: seq<Handle>,
    enableValidationLayer: bool,
    failingCall: Option<InitStage>)

  /** A call Init makes before it selects a device reports failure. */
  predicate FailsBeforeDeviceSelection(platform: Platform) {
    platform.failingCall.Some? &&
    (|| platform.failingCall.value == CreateInstanceStage
     || (platform.failingCall.value == SetupDebugMessengerStage && platform.enableValidationLayer)
     || platform.failingCall.value == CreateSurfaceStage)
  }

  /** A call Init makes after it has selected a device reports failure. */
  predicate FailsAfterDeviceSelection(platform: Platform) {
    platform.failingCall.Some? &&
    !(platform.failingCall.value in {CreateInstanceStage, SetupDebugMessengerStage, CreateSurfaceStage})
  }

  /** How Init ends: the first failing step decides, in the order Init takes them. */
  function InitOutcome(platform: Platform, deviceExtension: seq<string>, checkSuitableDeviceFunc: PhysicalDevice -> bool)
    : (r: Result<(), InitError>)
    ensures r.Ok? <==>
              && (platform.failingCall.None? || (platform.failingCall == Some(SetupDebugMessengerStage) && !platform.enableValidationLayer))
              && exists i :: 0 <= i < |platform.physicalDevices| && Suitable(platform.physicalDevices[i], deviceExtension, checkSuitableDeviceFunc)
    ensures r == Err(NoSuitableGpu) ==> forall i :: 0 <= i < |platform.physicalDevices| ==> !Suitable(platform.physicalDevices[i], deviceExtension, checkSuitableDeviceFunc)
    ensures r.Err? && r.error.ApiCallFailed? ==> platform.failingCall == Some(r.error.stage)
  {
    FirstMatchSpec(platform.physicalDevices, SuitabilityTest(deviceExtension, checkSuitableDeviceFunc));
    if FailsBeforeDeviceSelection(platform) then Err(ApiCallFailed(platform.failingCall.value))
    else if FirstMatch(platform.physicalDevices, SuitabilityTest(deviceExtension, checkSuitableDeviceFunc)).None? then Err(NoSuitableGpu)
    else if FailsAfterDeviceSelection(platform) then Err(ApiCallFailed(platform.failingCall.value))
    else Ok(())
  }

  /** A call Init makes after the logical device exists, while it creates the renderer's objects, reports failure. */
  predicate FailsCreatingObjects(platform: Platform) {
    || platform.failingCall == Some(CreateSwapChainStage)
    || platform.failingCall == Some(CreateDescriptorSetLayoutStage)
    || platform.failingCall == Some(CreateDescriptorPoolStage)
    || platform.failingCall == Some(AllocateDescriptorSetsStage)
    || platform.failingCall == Some(CreateCommandPoolStage)
    || platform.failingCall == Some(AllocateCommandBuffersStage)
    || platform.failingCall == Some(CreateSyncObjectsStage)
  }

  /**
   * Past a successful device selection, a failure after it is either the
   * logical device's or one of the object-creation calls'; every stage
   * belongs to exactly one of the two groups.
   */
  lemma FailsAfterSelectionCases(platform: Platform)
    requires !FailsBeforeDeviceSelection(platform)
    ensures FailsAfterDeviceSelection(platform) <==>
              platform.failingCall == Some(CreateLogicalDeviceStage) || FailsCreatingObjects(platform)
    ensures !(platform.failingCall == Some(CreateLogicalDeviceStage) && FailsCreatingObjects(platform))
  {
    if platform.failingCall.Some? {
      match platform.failingCall.value {
        case _ =>
      }
    }
  }

  /**
   * Once a suitable device is picked and the logical device exists, Init's
   * outcome is decided by the object-creation calls alone.
   */
  lemma OutcomeAfterLogicalDevice(platform: Platform, deviceExtension: seq<string>, checkSuitableDeviceFunc: PhysicalDevice -> bool)
    requires !FailsBeforeDeviceSelection(platform)
    requires FirstMatch(platform.physicalDevices, SuitabilityTest(deviceExtension, checkSuitableDeviceFunc)).Some?
    requires platform.failingCall != Some(CreateLogicalDeviceStage)
    ensures InitOutcome(platform, deviceExtension, checkSuitableDeviceFunc)
            == if FailsCreatingObjects(platform) then Err(ApiCallFailed(platform.failingCall.value)) else Ok(())
  {
    FailsAfterSelectionCases(platform);
  }

  /** With the built-in device predicate Init never succeeds: no device is suitable. */
  lemma DefaultPolicyNeverInitializes(platform: Platform, deviceExtension: seq<string>)
    ensures InitOutcome(platform, deviceExtension, DefaultCheckSuitableDevice).Err?
  {
    DefaultPolicyPicksNoDevice(platform.physicalDevices, deviceExtension);
  }

  /** The surface Init builds the first swapchain for: the picked device's support, the window size, the driver's images. */
  function InitSurface(platform: Platform, device: PhysicalDevice): SurfaceState {
    SurfaceState(device.swapChainSupport, platform.framebufferWidth, platform.framebufferHeight, platform.swapChainImages)
  }

  datatype AcquireResult = AcquireResult(result: int, imageIndex: nat)

  /** One invocation of the render callback: command buffer, target framebuffer, frame index. */
  datatype Recording = Recording(commandBuffer: Handle, framebuffer: Handle, frame: nat)

  /**
   * Why a frame raised. RenderFuncMissing is the empty std::function being
   * called; RenderFuncRaised is an exception thrown by the callback itself.
   */
  datatype RenderError = AcquireFailed | RenderFuncMissing | RenderFuncRaised | SubmitFailed | PresentFailed

  /** How a Render call ends; FrameFailed stands for the exception the source raises. */
  datatype FrameOutcome = FramePresented(recreated: bool) | FrameSkipped | FrameFailed(error: RenderError)

  predicate AcquireSucceeded(result: int) {
    result == VK_SUCCESS || result == VK_SUBOPTIMAL_KHR
  }

  predicate PresentRequiresRecreate(result: int, framebufferResized: bool) {
    result == VK_ERROR_OUT_OF_DATE_KHR || result == VK_SUBOPTIMAL_KHR || framebufferResized
  }

  /**
   * The branch one frame takes for the driver's answers and for whether the
   * render callback, when there is one, raises.
   */
  function FrameOutcomeFor(acquireResult: int, hasRenderFunc: bool, callbackRaises: bool, submitResult: int,
                           presentResult: int, framebufferResized: bool)
    : (outcome: FrameOutcome)
    ensures outcome == FrameSkipped <==> acquireResult == VK_ERROR_OUT_OF_DATE_KHR
    ensures outcome.FramePresented? <==>
              && AcquireSucceeded(acquireResult) && hasRenderFunc && !callbackRaises && submitResult == VK_SUCCESS
              && (presentResult == VK_SUCCESS || PresentRequiresRecreate(presentResult, framebufferResized))
    ensures outcome.FramePresented? ==> outcome.recreated == PresentRequiresRecreate(presentResult, framebufferResized)
    ensures outcome == FrameFailed(RenderFuncMissing) <==> AcquireSucceeded(acquireResult) && !hasRenderFunc
    ensures outcome == FrameFailed(RenderFuncRaised) <==> AcquireSucceeded(acquireResult) && hasRenderFunc && callbackRaises
    ensures StrandsFence(outcome) <==>
              AcquireSucceeded(acquireResult) && (!hasRenderFunc || callbackRaises || submitResult != VK_SUCCESS)
  {
    if acquireResult == VK_ERROR_OUT_OF_DATE_KHR then FrameSkipped
    else if !AcquireSucceeded(acquireResult) then FrameFailed(AcquireFailed)
    else if !hasRenderFunc then FrameFailed(RenderFuncMissing)
    else if callbackRaises then FrameFailed(RenderFuncRaised)
    else if submitResult != VK_SUCCESS then FrameFailed(SubmitFailed)
    else PresentOutcome(presentResult, framebufferResized)
  }

  /** The branch a frame takes once its work is submitted: rebuild, raise or plain present. */
  function PresentOutcome(presentResult: int, framebufferResized: bool): (outcome: FrameOutcome)
    ensures Recorded(outcome) && !StrandsFence(outcome)
    ensures Recreated(outcome) <==> PresentRequiresRecreate(presentResult, framebufferResized)
    ensures outcome.FramePresented? <==> presentResult == VK_SUCCESS || PresentRequiresRecreate(presentResult, framebufferResized)
  {
    if PresentRequiresRecreate(presentResult, framebufferResized) then FramePresented(true)
    else if presentResult != VK_SUCCESS then FrameFailed(PresentFailed)
    else FramePresented(false)
  }

  /** The frame slot after `slot`: slots are used round-robin. */
  function NextSlot(slot: nat): (next: nat)
    ensures next < MAX_FRAMES_IN_FLIGHT
  {
    (slot + 1) % MAX_FRAMES_IN_FLIGHT
  }

  /** The frame rebuilt the swapchain (out-of-date acquire, or a present that asked for it). */
  predicate Recreated(outcome: FrameOutcome) {
    outcome == FrameSkipped || outcome == FramePresented(true)
  }

  /** The render callback recorded the frame's command buffer and returned. */
  predicate Recorded(outcome: FrameOutcome) {
    outcome.FramePresented? || outcome == FrameFailed(SubmitFailed) || outcome == FrameFailed(PresentFailed)
  }

  /** The frame raised after resetting its fence and before submitting work that would signal it. */
  predicate StrandsFence(outcome: FrameOutcome) {
    outcome == FrameFailed(RenderFuncMissing) || outcome == FrameFailed(RenderFuncRaised) || outcome == FrameFailed(SubmitFailed)
  }

  /** Every fence is signalled or has submitted work that will signal it. */
  ghost predicate FencesConsistent(fenceSignalled: seq<bool>, pending: set<nat>) {
    && |fenceSignalled| == MAX_FRAMES_IN_FLIGHT
    && (forall s :: s in pending ==> s < MAX_FRAMES_IN_FLIGHT)
    && (forall s :: 0 <= s < MAX_FRAMES_IN_FLIGHT && !fenceSignalled[s] ==> s in pending)
  }

  /**
   * The part of a renderer one frame may change or must keep: the frame
   * counter, the resize flag, the fences, the render callback's recordings,
   * the event log and object table, the swapchain generation and the
   * command buffers the recordings use.
   */
  datatype FrameView = FrameView(
    currentFrame: nat, framebufferResized: bool, fenceSignalled: seq<bool>, pending: set<nat>,
    recordings: seq<Recording>, events: seq<Event>,
    swapChain: Handle, views: seq<Handle>, depthView: Handle, framebuffers: seq<Handle>,
    commandBuffers: seq<Handle>)

  /**
   * RecreateSwapChain's effect: the device went idle (every fence
   * signalled, nothing pending), the old generation was torn down and a new
   * one built, in that order; nothing else in the view changed.
   */
  ghost predicate SwapchainRebuilt(before: FrameView, after: FrameView) {
    && after == before.(events := after.events, swapChain := after.swapChain,
                        views := after.views, depthView := after.depthView, framebuffers := after.framebuffers,
                        fenceSignalled := after.fenceSignalled, pending := after.pending)
    && after.pending == {}
    && |after.fenceSignalled| == |before.fenceSignalled|
    && (forall s :: 0 <= s < |after.fenceSignalled| ==> after.fenceSignalled[s])
    && after.events == before.events + RebuildLog(before.framebuffers, before.views, before.swapChain,
                                                  after.swapChain, after.views, after.depthView, after.framebuffers)
  }

  /** WaitForDeviceIdle's effect: every fence signalled, nothing pending, the wait logged. */
  ghost predicate DeviceIdled(before: FrameView, after: FrameView) {
    && after == before.(fenceSignalled := after.fenceSignalled, pending := {}, events := before.events + [DeviceWaitIdle])
    && |after.fenceSignalled| == |before.fenceSignalled|
    && (forall s :: 0 <= s < |after.fenceSignalled| ==> after.fenceSignalled[s])
  }

  /**
   * The object half of a rebuild: the old generation was torn down and a
   * new one built, in that order; nothing else in the view changed.
   */
  ghost predicate GenerationReplaced(before: FrameView, after: FrameView) {
    && after == before.(events := after.events, swapChain := after.swapChain, views := after.views,
                        depthView := after.depthView, framebuffers := after.framebuffers)
    && after.events == before.events + TeardownLog(before.framebuffers, before.views, before.swapChain)
                       + BuildLog(after.swapChain, after.views, after.depthView, after.framebuffers)
  }

  /** An idle wait followed by a generation replacement is a swapchain rebuild. */
  lemma IdleThenReplaced(before: FrameView, idle: FrameView, after: FrameView)
    requires DeviceIdled(before, idle) && GenerationReplaced(idle, after)
    ensures SwapchainRebuilt(before, after)
  {
    AppendRebuildLog(before.events, before.framebuffers, before.views, before.swapChain,
                     after.swapChain, after.views, after.depthView, after.framebuffers);
  }

  /** WaitForFence's effect: the slot's fence is signalled and its work done. */
  ghost predicate FenceWaited(before: FrameView, after: FrameView, slot: nat) {
    && slot < |before.fenceSignalled|
    && after == before.(fenceSignalled := before.fenceSignalled[slot := true], pending := before.pending - {slot})
  }

  /**
   * SubmitFrame's effect: the slot's fence is reset; when the render
   * callback returned (`recorded`), it recorded the slot's command buffer
   * against the acquired image's framebuffer; the work is pending when it
   * was submitted.
   */
  ghost predicate FrameSubmitted(before: FrameView, after: FrameView, frame: nat, imageIndex: nat, recorded: bool, submitted: bool) {
    && frame < |before.fenceSignalled| && frame < |before.commandBuffers| && imageIndex < |before.framebuffers|
    && after == before.(
         fenceSignalled := before.fenceSignalled[frame := false],
         recordings := before.recordings
                       + (if recorded then [Recording(before.commandBuffers[frame], before.framebuffers[imageIndex], frame)] else []),
         pending := if submitted then before.pending + {frame} else before.pending)
  }

  /**
   * PresentFrame's effect: the outcome the present result and the resize
   * flag call for; a rebuild when it asks for one, clearing the flag; the
   * next frame slot when the frame was presented.
   */
  ghost predicate FramePresentedView(before: FrameView, after: FrameView, presentResult: int, outcome: FrameOutcome) {
    && outcome == PresentOutcome(presentResult, before.framebufferResized)
    && after.currentFrame == (if outcome.FramePresented? then NextSlot(before.currentFrame) else before.currentFrame)
    && after.framebufferResized == (before.framebufferResized && !outcome.FramePresented?)
    && after.recordings == before.recordings
    && (if Recreated(outcome) then SwapchainRebuilt(before.(currentFrame := after.currentFrame, framebufferResized := false), after)
        else after == before.(currentFrame := after.currentFrame))
  }

  /**
   * What one Render call leaves for the outcome it had, with `before` the
   * renderer as the call found it: the frame counter advances exactly when
   * the frame was presented; a present clears the resize flag; the callback
   * recorded the slot's command buffer against the acquired image's
   * framebuffer exactly when the frame got that far; a frame that ends
   * before the fence reset leaves the fence signalled, one that raises
   * between the reset and the submission leaves it unsignalled with nothing
   * to signal it, and a submitted frame leaves it to the GPU unless the
   * rebuild waited for the device; the swapchain is rebuilt exactly when
   * the outcome says so. A frame that does not rebuild changes nothing
   * else: the other slots' fences and work, the generation, the command
   * buffers and the event log are as they were. A frame that rebuilds
   * changes nothing but what the rebuild changes.
   */
  ghost predicate FrameEffect(before: FrameView, after: FrameView, imageIndex: nat, outcome: FrameOutcome) {
    var frame := before.currentFrame;
    && frame < |before.commandBuffers| && frame < |before.fenceSignalled| && frame < |after.fenceSignalled|
    && (Recorded(outcome) ==> imageIndex < |before.framebuffers|)
    && after.currentFrame == (if outcome.FramePresented? then NextSlot(frame) else frame)
    && after.framebufferResized == (before.framebufferResized && !outcome.FramePresented?)
    && after.recordings == before.recordings
                           + (if Recorded(outcome) then [Recording(before.commandBuffers[frame], before.framebuffers[imageIndex], frame)] else [])
    && (outcome == FrameSkipped || outcome == FrameFailed(AcquireFailed) ==> after.fenceSignalled[frame])
    && (StrandsFence(outcome) ==> !after.fenceSignalled[frame] && frame !in after.pending)
    && (Recorded(outcome) && !StrandsFence(outcome) && !Recreated(outcome) ==> !after.fenceSignalled[frame] && frame in after.pending)
    && (Recreated(outcome) ==>
          SwapchainRebuilt(before.(currentFrame := after.currentFrame, framebufferResized := after.framebufferResized,
                                   recordings := after.recordings), after))
    && (!Recreated(outcome) ==>
          && after == before.(currentFrame := after.currentFrame, framebufferResized := after.framebufferResized,
                              recordings := after.recordings,
                              fenceSignalled := before.fenceSignalled[frame := after.fenceSignalled[frame]],
                              pending := after.pending)
          && after.pending - {frame} == before.pending - {frame})
  }

  /**
   * The swapchain images and extent a frame leaves: after a rebuild, the
   * images the driver now returns and the extent the surface now calls for;
   * otherwise the ones the frame started with.
   */
  predicate SurfaceAfterFrame(outcome: FrameOutcome, surface: SurfaceState, images: seq<Handle>, extent: Extent2D,
                              imagesAfter: seq<Handle>, extentAfter: Extent2D) {
    if Recreated(outcome) then
      && imagesAfter == surface.swapChainImages
      && extentAfter == ChooseSwapExtentIntended(surface.support.capabilities, surface.framebufferWidth, surface.framebufferHeight)
    else imagesAfter == images && extentAfter == extent
  }

  /** A frame that stops after the fence wait (a failed acquire) has that effect. */
  lemma AcquireFailedEffect(before: FrameView, waited: FrameView, imageIndex: nat)
    requires before.currentFrame < |before.commandBuffers|
    requires FenceWaited(before, waited, before.currentFrame)
    ensures FrameEffect(before, waited, imageIndex, FrameFailed(AcquireFailed))
  {
  }

  /** A frame that waits, then rebuilds on an out-of-date acquire, has the skipped frame's effect. */
  lemma SkippedFrameEffect(before: FrameView, waited: FrameView, after: FrameView, imageIndex: nat)
    requires before.currentFrame < |before.commandBuffers|
    requires FenceWaited(before, waited, before.currentFrame)
    requires SwapchainRebuilt(waited, after)
    ensures FrameEffect(before, after, imageIndex, FrameSkipped)
  {
  }

  /** The fence wait changes nothing a later step of the frame is judged by. */
  lemma WaitedFrameEffect(before: FrameView, waited: FrameView, after: FrameView, imageIndex: nat, outcome: FrameOutcome)
    requires FenceWaited(before, waited, before.currentFrame)
    requires FrameEffect(waited, after, imageIndex, outcome)
    ensures FrameEffect(before, after, imageIndex, outcome)
  {
  }

  /**
   * A callback that is missing or raises, or a submission that fails, ends
   * the frame with its fence stranded; only a failed submission follows a
   * completed recording.
   */
  lemma SubmitFailedEffect(before: FrameView, after: FrameView, imageIndex: nat, error: RenderError)
    requires error == RenderFuncMissing || error == RenderFuncRaised || error == SubmitFailed
    requires FrameSubmitted(before, after, before.currentFrame, imageIndex, error == SubmitFailed, false)
    requires before.currentFrame !in before.pending
    ensures FrameEffect(before, after, imageIndex, FrameFailed(error))
  {
  }

  /** A submitted frame followed by its present has the presented frame's effect. */
  lemma SubmittedFrameEffect(before: FrameView, submitted: FrameView, after: FrameView, imageIndex: nat,
                             presentResult: int, outcome: FrameOutcome)
    requires FrameSubmitted(before, submitted, before.currentFrame, imageIndex, true, true)
    requires before.fenceSignalled[before.currentFrame] && before.currentFrame !in before.pending
    requires FramePresentedView(submitted, after, presentResult, outcome)
    ensures FrameEffect(before, after, imageIndex, outcome)
  {
  }

  class Renderer {
    // policies
    const checkSuitableDeviceFunc: PhysicalDevice -> bool
    const setPhysicalDeviceFeaturesFunc: DeviceFeatures -> DeviceFeatures
    const checkSwapSurfaceFormatFunc: Option<SurfaceFormat -> bool>
    const checkSwapPresentModeFunc: Option<PresentMode -> bool>
    const hasRenderFunc: bool
    const deviceExtension: seq<string>

    // device
    var physicalDevice: Option<PhysicalDevice>
    var deviceQueueFamilies: set<u32>
    var enabledFeatures: DeviceFeatures

    // swapchain generation
    var swapChain: Handle
    var swapChainImages: seq<Handle>
    var swapChainImageFormat: int
    var swapChainExtent: Extent2D
    var swapChainImageViews: seq<Handle>
    var depthImageView: Handle
    var swapChainFramebuffers: seq<Handle>
    ghost var swapChainCreateInfo: SwapchainCreateInfo
    ghost var depthImageExtent: Extent2D

    // descriptors
    var descriptorSetLayoutBindings: seq<LayoutBinding>
    var descriptorPoolSizes: seq<PoolSize>
    var descriptorSets: seq<Handle>
    ghost var descriptorSetBuffers: seq<Handle>

    // frame slots
    var commandBuffers: seq<Handle>
    var uniformBuffers: seq<Handle>
    var uniformBuffersMapped: array<UniformBufferObject>
    var imageAvailableSemaphores: seq<Handle>
    var renderFinishedSemaphores: seq<Handle>
    var inFlightFences: seq<Handle>
    var currentFrame: nat
    var framebufferResized: bool
    var isInitialized: bool

    // the driver's handle counter
    var nextHandle: Handle

    ghost var owned: Objects
    ghost var events: seq<Event>
    ghost var fenceSignalled: seq<bool>
    ghost var pending: set<nat>
    ghost var recordings: seq<Recording>

    // ------------------------------------------------------------ invariants

    /** The picked device has the graphics and present queue families the device was created with. */
    ghost predicate DeviceReady()
      reads this`physicalDevice
    {
      physicalDevice.Some? && physicalDevice.value.queueFamilies.IsComplete()
    }

    /**
     * The descriptor tables: the default layout and pool, descriptor set i
     * bound to uniform buffer i, and a mapping per slot.
     */
    ghost predicate DescriptorTablesReady()
      reads this`descriptorSetLayoutBindings, this`descriptorPoolSizes, this`descriptorSetBuffers,
            this`uniformBuffers, this`uniformBuffersMapped
    {
      && IsDefaultLayout(descriptorSetLayoutBindings)
      && IsDefaultPool(descriptorPoolSizes)
      && descriptorSetBuffers == uniformBuffers
      && uniformBuffersMapped.Length == MAX_FRAMES_IN_FLIGHT
    }

    /** The swapchain and one view per image, alive in a well-formed table. */
    ghost predicate ViewsBuilt()
      reads this`nextHandle, this`owned, this`swapChain, this`swapChainImages, this`swapChainImageViews
    {
      WellFormed(owned, nextHandle) && ViewsReady(owned, swapChain, swapChainImages, swapChainImageViews)
    }

    /** A complete swapchain generation, alive in a well-formed table, its depth view sized to the extent. */
    ghost predicate GenerationBuilt()
      reads this`nextHandle, this`owned, this`swapChain, this`swapChainImages, this`swapChainImageViews,
            this`depthImageView, this`swapChainFramebuffers, this`swapChainExtent, this`depthImageExtent
    {
      && WellFormed(owned, nextHandle)
      && SwapchainBuilt(owned, swapChain, swapChainImages, swapChainImageViews, depthImageView, swapChainFramebuffers)
      && depthImageExtent == swapChainExtent
    }

    /** A complete generation and MAX_FRAMES_IN_FLIGHT of every per-slot object, all alive. */
    ghost predicate ObjectsAlive()
      reads this`nextHandle, this`owned, this`swapChain, this`swapChainImages, this`swapChainImageViews,
            this`depthImageView, this`swapChainFramebuffers, this`swapChainExtent, this`depthImageExtent,
            this`commandBuffers, this`uniformBuffers, this`descriptorSets, this`inFlightFences,
            this`imageAvailableSemaphores, this`renderFinishedSemaphores
    {
      && GenerationBuilt()
      && SlotObjectsAlive(owned, commandBuffers, uniformBuffers, descriptorSets,
                          inFlightFences, imageAvailableSemaphores, renderFinishedSemaphores)
    }

    /**
     * The objects and tables of an initialized renderer: a complete swapchain
     * generation whose depth view is sized to the swapchain extent, the
     * default descriptor tables, descriptor set i bound to uniform buffer i,
     * and MAX_FRAMES_IN_FLIGHT of every per-slot object, all alive.
     */
    ghost predicate ObjectsValid()
      reads this`isInitialized, this`physicalDevice, this`descriptorSetLayoutBindings, this`descriptorPoolSizes,
            this`nextHandle, this`owned, this`swapChain, this`swapChainImages, this`swapChainImageViews,
            this`depthImageView, this`swapChainFramebuffers, this`swapChainExtent, this`depthImageExtent,
            this`commandBuffers, this`uniformBuffers, this`descriptorSets, this`descriptorSetBuffers, this`inFlightFences,
            this`imageAvailableSemaphores, this`renderFinishedSemaphores, this`uniformBuffersMapped
    {
      isInitialized && DeviceReady() && DescriptorTablesReady() && ObjectsAlive()
    }

    /**
     * The frame counter stays in [0, MAX_FRAMES_IN_FLIGHT); no fence is
     * stranded (unsignalled with nothing submitted to signal it).
     */
    ghost predicate FramesValid()
      reads this`fenceSignalled, this`pending, this`currentFrame
    {
      && FencesConsistent(fenceSignalled, pending)
      && currentFrame < MAX_FRAMES_IN_FLIGHT
    }

    ghost predicate Valid()
      reads this
    {
      ObjectsValid() && FramesValid()
    }

    /** The renderer as one frame sees it. */
    ghost function View(): FrameView
      reads this
    {
      FrameView(currentFrame, framebufferResized, fenceSignalled, pending, recordings, events,
                swapChain, swapChainImageViews, depthImageView, swapChainFramebuffers, commandBuffers)
    }

    /** The state the constructor leaves: nothing created, nothing initialized. */
    ghost predicate Fresh()
      reads this
    {
      && !isInitialized
      && physicalDevice == None
      && currentFrame == 0
      && !framebufferResized
      && swapChainExtent == Extent2D(0, 0)
      && swapChain == NULL_HANDLE
      && nextHandle == 1
      && owned == map[]
      && events == []
      && fenceSignalled == []
      && pending == {}
      && recordings == []
    }

    // ------------------------------------------------------------ construction

    /**
     * The constructor's policy resolution: the device predicate and feature
     * hook replace the built-in ones only when given; the format and
     * present-mode predicates and the render callback are copied as given.
     */
    constructor (funcs: RendererCustomFuncs)
      ensures Fresh()
      ensures checkSuitableDeviceFunc == DeviceCheckFor(funcs)
      ensures setPhysicalDeviceFeaturesFunc ==
                if funcs.setPhysicalDeviceFeaturesFunc.Some? then funcs.setPhysicalDeviceFeaturesFunc.value else DefaultSetPhysicalDeviceFeatures
      ensures checkSwapSurfaceFormatFunc == funcs.checkSwapSurfaceFormatFunc
      ensures checkSwapPresentModeFunc == funcs.checkSwapPresentModeFunc
      ensures hasRenderFunc == funcs.renderFunc
      ensures deviceExtension == DEVICE_EXTENSIONS
    {
      var deviceCheck: PhysicalDevice -> bool := DefaultCheckSuitableDevice;
      if funcs.checkSuitableDeviceFunc.Some? {
        deviceCheck := funcs.checkSuitableDeviceFunc.value;
      }
      var featureHook: DeviceFeatures -> DeviceFeatures := DefaultSetPhysicalDeviceFeatures;
      if funcs.setPhysicalDeviceFeaturesFunc.Some? {
        featureHook := funcs.setPhysicalDeviceFeaturesFunc.value;
      }
      checkSuitableDeviceFunc := deviceCheck;
      setPhysicalDeviceFeaturesFunc := featureHook;
      checkSwapPresentModeFunc := funcs.checkSwapPresentModeFunc;
      checkSwapSurfaceFormatFunc := funcs.checkSwapSurfaceFormatFunc;
      hasRenderFunc := funcs.renderFunc;
      deviceExtension := DEVICE_EXTENSIONS;
      physicalDevice := None;
      deviceQueueFamilies := {};
      enabledFeatures := {};
      swapChain := NULL_HANDLE;
      swapChainImages := [];
      swapChainImageFormat := VK_FORMAT_UNDEFINED;
      swapChainExtent := Extent2D(0, 0);
      swapChainImageViews := [];
      depthImageView := NULL_HANDLE;
      swapChainFramebuffers := [];
      descriptorSetLayoutBindings := [];
      descriptorPoolSizes := [];
      descriptorSets := [];
      descriptorSetBuffers := [];
      commandBuffers := [];
      uniformBuffers := [];
      uniformBuffersMapped := new UniformBufferObject[0](_ => ZERO_UNIFORM_BUFFER_OBJECT);
      imageAvailableSemaphores := [];
      renderFinishedSemaphores := [];
      inFlightFences := [];
      currentFrame := 0;
      framebufferResized := false;
      isInitialized := false;
      nextHandle := 1;
      owned := map[];
      events := [];
      fenceSignalled := [];
      pending := {};
      recordings := [];
    }

    // ------------------------------------------------------------ object creation and destruction

    /** A vkCreate* call: the driver hands out the next handle and the object is alive. */
    method Allocate(kind: ResourceKind, refs: seq<Handle>, image: Handle) returns (h: Handle)
      modifies this`nextHandle, this`owned, this`events
      ensures h == old(nextHandle) && nextHandle == old(nextHandle) + 1
      ensures owned == old(owned)[h := Resource(kind, refs, image)]
      ensures events == old(events) + [Created(kind, h)]
    {
      h := nextHandle;
      nextHandle := nextHandle + 1;
      owned := owned[h := Resource(kind, refs, image)];
      events := events + [Created(kind, h)];
    }

    /** A vkDestroy* call: only an alive object that nothing alive references may go. */
    method Release(kind: ResourceKind, h: Handle)
      requires h in owned && owned[h].kind == kind
      requires Unreferenced(owned, h)
      modifies this`owned, this`events
      ensures owned == old(owned) - {h}
      ensures events == old(events) + [Destroyed(kind, h)]
    {
      owned := owned - {h};
      events := events + [Destroyed(kind, h)];
    }

    /** One plain object per frame slot, created in slot order (the loops of the per-slot Create* calls). */
    method AllocateSlots() returns (hs: seq<Handle>)
      modifies this`nextHandle, this`owned, this`events
      ensures hs == HandleRange(old(nextHandle), MAX_FRAMES_IN_FLIGHT)
      ensures nextHandle == old(nextHandle) + MAX_FRAMES_IN_FLIGHT
      ensures owned == old(owned) + RangeTable(old(nextHandle), SlotResources(MAX_FRAMES_IN_FLIGHT))
      ensures events == old(events) + Creations(OtherKind, hs)
    {
      ghost var start := nextHandle;
      hs := [];
      var i := 0;
      while i < MAX_FRAMES_IN_FLIGHT
        invariant i <= MAX_FRAMES_IN_FLIGHT
        invariant hs == HandleRange(start, i) && nextHandle == start + i
        invariant owned == old(owned) + RangeTable(start, SlotResources(i))
        invariant events == old(events) + Creations(OtherKind, hs)
      {
        var h := Allocate(OtherKind, [], NULL_HANDLE);
        SlotAllocated(old(owned), start, i, h);
        CreationsSnoc(OtherKind, hs, h);
        hs := hs + [h];
        i := i + 1;
      }
    }

    /** The n-th plain object of a run of slot objects issued from `start`. */
    method AllocateSlotObject(ghost before: Objects, ghost log: seq<Event>, ghost start: Handle, ghost n: nat)
      returns (h: Handle)
      requires nextHandle == start + n
      requires owned == before + RangeTable(start, SlotResources(n))
      requires events == log + Creations(OtherKind, HandleRange(start, n))
      modifies this`nextHandle, this`owned, this`events
      ensures h == start + n && nextHandle == h + 1
      ensures owned == before + RangeTable(start, SlotResources(n + 1))
      ensures events == log + Creations(OtherKind, HandleRange(start, n + 1))
    {
      h := Allocate(OtherKind, [], NULL_HANDLE);
      SlotAllocated(before, start, n, h);
      CreationsSnoc(OtherKind, HandleRange(start, n), h);
    }

    /** One slot's sync objects: its image-available semaphore, render-finished semaphore and in-flight fence. */
    method AllocateSyncSlot(ghost before: Objects, ghost log: seq<Event>, ghost start: Handle, ghost slot: nat)
      returns (imageAvailable: Handle, renderFinished: Handle, inFlight: Handle)
      requires nextHandle == start + 3 * slot
      requires owned == before + RangeTable(start, SlotResources(3 * slot))
      requires events == log + Creations(OtherKind, HandleRange(start, 3 * slot))
      modifies this`nextHandle, this`owned, this`events
      ensures imageAvailable == start + 3 * slot && renderFinished == imageAvailable + 1 && inFlight == imageAvailable + 2
      ensures nextHandle == start + 3 * (slot + 1)
      ensures owned == before + RangeTable(start, SlotResources(3 * (slot + 1)))
      ensures events == log + Creations(OtherKind, HandleRange(start, 3 * (slot + 1)))
    {
      imageAvailable := AllocateSlotObject(before, log, start, 3 * slot);
      renderFinished := AllocateSlotObject(before, log, start, 3 * slot + 1);
      inFlight := AllocateSlotObject(before, log, start, 3 * slot + 2);
    }

    /** CreateSyncObject's loop: per slot, in slot order, the three sync objects of AllocateSyncSlot. */
    method AllocateSyncObjects() returns (available: seq<Handle>, finished: seq<Handle>, fences: seq<Handle>)
      modifies this`nextHandle, this`owned, this`events
      ensures available == SyncHandles(old(nextHandle), 0)
      ensures finished == SyncHandles(old(nextHandle), 1)
      ensures fences == SyncHandles(old(nextHandle), 2)
      ensures nextHandle == old(nextHandle) + 3 * MAX_FRAMES_IN_FLIGHT
      ensures owned == old(owned) + RangeTable(old(nextHandle), SlotResources(3 * MAX_FRAMES_IN_FLIGHT))
      ensures events == old(events) + Creations(OtherKind, HandleRange(old(nextHandle), 3 * MAX_FRAMES_IN_FLIGHT))
    {
      ghost var start := nextHandle;
      available, finished, fences := [], [], [];
      var i := 0;
      while i < MAX_FRAMES_IN_FLIGHT
        invariant i <= MAX_FRAMES_IN_FLIGHT
        invariant nextHandle == start + 3 * i
        invariant owned == old(owned) + RangeTable(start, SlotResources(3 * i))
        invariant events == old(events) + Creations(OtherKind, HandleRange(start, 3 * i))
        invariant |available| == i && |finished| == i && |fences| == i
        invariant forall s :: 0 <= s < i ==>
                    available[s] == start + 3 * s && finished[s] == start + 3 * s + 1 && fences[s] == start + 3 * s + 2
      {
        var imageAvailable, renderFinished, inFlight := AllocateSyncSlot(old(owned), old(events), start, i);
        available, finished, fences := available + [imageAvailable], finished + [renderFinished], fences + [inFlight];
        i := i + 1;
      }
    }

    /**
     * CreateSyncObject: per slot, an image-available semaphore, a
     * render-finished semaphore and an in-flight fence, in that order. The
     * fences are created signalled, so the first wait on each returns.
     */
    method CreateSyncObjects()
      modifies this`imageAvailableSemaphores, this`renderFinishedSemaphores, this`inFlightFences, this`fenceSignalled,
               this`nextHandle, this`owned, this`events
      ensures imageAvailableSemaphores == SyncHandles(old(nextHandle), 0)
      ensures renderFinishedSemaphores == SyncHandles(old(nextHandle), 1)
      ensures inFlightFences == SyncHandles(old(nextHandle), 2)
      ensures |fenceSignalled| == MAX_FRAMES_IN_FLIGHT && forall s :: 0 <= s < MAX_FRAMES_IN_FLIGHT ==> fenceSignalled[s]
      ensures nextHandle == old(nextHandle) + 3 * MAX_FRAMES_IN_FLIGHT
      ensures owned == old(owned) + RangeTable(old(nextHandle), SlotResources(3 * MAX_FRAMES_IN_FLIGHT))
      ensures events == old(events) + Creations(OtherKind, HandleRange(old(nextHandle), 3 * MAX_FRAMES_IN_FLIGHT))
    {
      imageAvailableSemaphores, renderFinishedSemaphores, inFlightFences := AllocateSyncObjects();
      fenceSignalled := seq(MAX_FRAMES_IN_FLIGHT, _ => true);
    }

    // ------------------------------------------------------------ swapchain

    /**
     * CreateSwapChain: chooses format, present mode, extent, image count and
     * sharing mode, creates the swapchain and takes the images the driver
     * returns. The extent follows the intended per-dimension clamp.
     */
    method CreateSwapChain(surface: SurfaceState)
      requires physicalDevice.Some? && physicalDevice.value.queueFamilies.IsComplete()
      requires SurfaceUsable(surface)
      modifies this`swapChain, this`swapChainImages, this`swapChainImageFormat, this`swapChainExtent,
               this`swapChainCreateInfo, this`nextHandle, this`owned, this`events
      ensures swapChain == old(nextHandle) && nextHandle == old(nextHandle) + 1
      ensures owned == old(owned)[swapChain := SWAPCHAIN_RESOURCE]
      ensures events == old(events) + [Created(SwapchainKind, swapChain)]
      ensures swapChainImages == surface.swapChainImages
      ensures IsSwapchainCreateInfoFor(swapChainCreateInfo, surface.support, physicalDevice.value.queueFamilies,
                                       checkSwapSurfaceFormatFunc, checkSwapPresentModeFunc,
                                       surface.framebufferWidth, surface.framebufferHeight)
      ensures swapChainImageFormat == swapChainCreateInfo.imageFormat
      ensures swapChainExtent == swapChainCreateInfo.imageExtent
    {
      var info := BuildSwapchainCreateInfo(surface.support, physicalDevice.value.queueFamilies,
                                           checkSwapSurfaceFormatFunc, checkSwapPresentModeFunc,
                                           surface.framebufferWidth, surface.framebufferHeight);
      swapChain := Allocate(SwapchainKind, [], NULL_HANDLE);
      swapChainCreateInfo := info;
      swapChainImages := surface.swapChainImages;
      swapChainImageFormat := info.imageFormat;
      swapChainExtent := info.imageExtent;
    }

    /** CreateImageViews: one view per swapchain image, view i over image i. */
    method CreateImageViews()
      modifies this`swapChainImageViews, this`nextHandle, this`owned, this`events
      ensures swapChainImageViews == HandleRange(old(nextHandle), |swapChainImages|)
      ensures nextHandle == old(nextHandle) + |swapChainImages|
      ensures owned == old(owned) + RangeTable(old(nextHandle), ViewResources(swapChain, swapChainImages))
      ensures events == old(events) + Creations(ImageViewKind, swapChainImageViews)
    {
      ghost var start := nextHandle;
      ghost var rs := ViewResources(swapChain, swapChainImages);
      var views: seq<Handle> := [];
      while |views| < |swapChainImages|
        invariant |views| <= |swapChainImages|
        invariant views == HandleRange(start, |views|) && nextHandle == start + |views|
        invariant owned == old(owned) + RangeTable(start, rs[..|views|])
        invariant events == old(events) + Creations(ImageViewKind, views)
      {
        var view := Allocate(ImageViewKind, [swapChain], swapChainImages[|views|]);
        RangeTableSnoc(old(owned), start, rs[..|views|], rs[|views|], view);
        assert rs[..|views|] + [rs[|views|]] == rs[..|views| + 1];
        HandleRangeSnoc(start, |views|, view);
        CreationsSnoc(ImageViewKind, views, view);
        views := views + [view];
      }
      assert rs[..|views|] == rs;
      swapChainImageViews := views;
    }

    /** CreateDepthResources: a new depth image and view sized to the swapchain extent. */
    method CreateDepthResources()
      modifies this`depthImageView, this`depthImageExtent, this`nextHandle, this`owned, this`events
      ensures depthImageView == old(nextHandle) && nextHandle == old(nextHandle) + 1
      ensures owned == old(owned)[depthImageView := DEPTH_RESOURCE]
      ensures events == old(events) + [Created(DepthImageKind, depthImageView)]
      ensures depthImageExtent == swapChainExtent
    {
      depthImageView := Allocate(DepthImageKind, [], NULL_HANDLE);
      depthImageExtent := swapChainExtent;
    }

    /** CreateFramebuffers: one framebuffer per view, framebuffer i attaching view i and the depth view. */
    method CreateFramebuffers()
      modifies this`swapChainFramebuffers, this`nextHandle, this`owned, this`events
      ensures swapChainFramebuffers == HandleRange(old(nextHandle), |swapChainImageViews|)
      ensures nextHandle == old(nextHandle) + |swapChainImageViews|
      ensures owned == old(owned) + RangeTable(old(nextHandle), FramebufferResources(swapChainImageViews, depthImageView))
      ensures events == old(events) + Creations(FramebufferKind, swapChainFramebuffers)
    {
      ghost var start := nextHandle;
      ghost var rs := FramebufferResources(swapChainImageViews, depthImageView);
      var framebuffers: seq<Handle> := [];
      while |framebuffers| < |swapChainImageViews|
        invariant |framebuffers| <= |swapChainImageViews|
        invariant framebuffers == HandleRange(start, |framebuffers|) && nextHandle == start + |framebuffers|
        invariant owned == old(owned) + RangeTable(start, rs[..|framebuffers|])
        invariant events == old(events) + Creations(FramebufferKind, framebuffers)
      {
        var framebuffer := Allocate(FramebufferKind, [swapChainImageViews[|framebuffers|], depthImageView], NULL_HANDLE);
        RangeTableSnoc(old(owned), start, rs[..|framebuffers|], rs[|framebuffers|], framebuffer);
        assert rs[..|framebuffers|] + [rs[|framebuffers|]] == rs[..|framebuffers| + 1];
        HandleRangeSnoc(start, |framebuffers|, framebuffer);
        CreationsSnoc(FramebufferKind, framebuffers, framebuffer);
        framebuffers := framebuffers + [framebuffer];
      }
      assert rs[..|framebuffers|] == rs;
      swapChainFramebuffers := framebuffers;
    }

    /** One teardown loop: destroys `hs` in order, each alive, of one kind and referenced by nothing alive. */
    method ReleaseAll(kind: ResourceKind, hs: seq<Handle>)
      requires Distinct(hs)
      requires forall i :: 0 <= i < |hs| ==> hs[i] in owned && owned[hs[i]].kind == kind
      requires NoneReferenced(owned, hs)
      modifies this`owned, this`events
      ensures owned == old(owned) - HandleSet(hs)
      ensures events == old(events) + Destructions(kind, hs)
    {
      var i := 0;
      while i < |hs|
        invariant 0 <= i <= |hs|
        invariant owned == old(owned) - HandleSet(hs[..i])
        invariant forall x :: x in owned ==> x in old(owned) && owned[x] == old(owned)[x]
        invariant events == old(events) + Destructions(kind, hs[..i])
      {
        forall j | 0 <= j < i
          ensures hs[j] != hs[i]
        {
          assert Apart(hs, j, i);
        }
        assert hs[i] !in hs[..i];
        assert hs[i] in owned && hs[i] in hs;
        forall x | x in owned
          ensures hs[i] !in owned[x].refs
        {
          assert owned[x] == old(owned)[x];
        }
        Release(kind, hs[i]);
        assert hs[..i + 1] == hs[..i] + [hs[i]];
        DestructionsSnoc(kind, hs[..i], hs[i]);
        i := i + 1;
      }
      assert hs[..i] == hs;
    }

    /**
     * CleanUpSwapChain: destroys every framebuffer, then every view, then the
     * swapchain, each when nothing alive references it. The depth view and
     * every other object are left alive.
     */
    method CleanUpSwapChain()
      requires WellFormed(owned, nextHandle)
      requires GenerationOwned(owned, swapChain, swapChainImageViews, swapChainFramebuffers)
      modifies this`owned, this`events
      ensures owned == old(owned) - HandleSet(swapChainFramebuffers) - HandleSet(swapChainImageViews) - {swapChain}
      ensures WellFormed(owned, nextHandle) && NoSwapchainObjects(owned)
      ensures KeepsOtherObjects(old(owned), owned)
      ensures events == old(events) + TeardownLog(swapChainFramebuffers, swapChainImageViews, swapChain)
    {
      TeardownReleasable(owned, nextHandle, swapChain, swapChainImageViews, swapChainFramebuffers);
      TeardownClearsGeneration(owned, nextHandle, swapChain, swapChainImageViews, swapChainFramebuffers);
      ReleaseAll(FramebufferKind, swapChainFramebuffers);
      ReleaseAll(ImageViewKind, swapChainImageViews);
      Release(SwapchainKind, swapChain);
      AppendTeardownLog(old(events), swapChainFramebuffers, swapChainImageViews, swapChain);
    }

    /** vkDeviceWaitIdle: every submitted batch completes and signals its fence. */
    method WaitForDeviceIdle()
      requires FencesConsistent(fenceSignalled, pending)
      modifies this`fenceSignalled, this`pending, this`events
      ensures FencesConsistent(fenceSignalled, pending)
      ensures DeviceIdled(old(View()), View())
    {
      fenceSignalled := seq(MAX_FRAMES_IN_FLIGHT, _ => true);
      pending := {};
      events := events + [DeviceWaitIdle];
    }

    /** CreateSwapChain then CreateImageViews: the swapchain and one view per image, over a cleared generation. */
    method BuildSwapchainAndViews(surface: SurfaceState)
      requires WellFormed(owned, nextHandle) && NoSwapchainObjects(owned)
      requires physicalDevice.Some? && physicalDevice.value.queueFamilies.IsComplete()
      requires SurfaceUsable(surface)
      modifies this`swapChain, this`swapChainImages, this`swapChainImageFormat, this`swapChainExtent,
               this`swapChainCreateInfo, this`swapChainImageViews, this`nextHandle, this`owned, this`events
      ensures WellFormed(owned, nextHandle)
      ensures ViewsReady(owned, swapChain, swapChainImages, swapChainImageViews)
      ensures KeepsOtherObjects(old(owned), owned)
      ensures events == old(events) + [Created(SwapchainKind, swapChain)] + Creations(ImageViewKind, swapChainImageViews)
      ensures swapChainImages == surface.swapChainImages
      ensures IsSwapchainCreateInfoFor(swapChainCreateInfo, surface.support, physicalDevice.value.queueFamilies,
                                       checkSwapSurfaceFormatFunc, checkSwapPresentModeFunc,
                                       surface.framebufferWidth, surface.framebufferHeight)
      ensures swapChainExtent == swapChainCreateInfo.imageExtent
    {
      ghost var start := nextHandle;
      CreateSwapChain(surface);
      ghost var withSwapchain := owned;
      ghost var viewsStart := nextHandle;
      CreateImageViews();
      SwapchainAndViewsCreated(old(owned), start, surface.swapChainImages, viewsStart, nextHandle, withSwapchain, owned);
    }

    /** CreateDepthResources then CreateFramebuffers: completes a generation whose views are ready. */
    method BuildDepthAndFramebuffers()
      requires WellFormed(owned, nextHandle)
      requires ViewsReady(owned, swapChain, swapChainImages, swapChainImageViews)
      modifies this`depthImageView, this`depthImageExtent, this`swapChainFramebuffers, this`nextHandle, this`owned, this`events
      ensures WellFormed(owned, nextHandle)
      ensures SwapchainBuilt(owned, swapChain, swapChainImages, swapChainImageViews, depthImageView, swapChainFramebuffers)
      ensures depthImageExtent == swapChainExtent
      ensures KeepsOtherObjects(old(owned), owned)
      ensures events == old(events) + [Created(DepthImageKind, depthImageView)] + Creations(FramebufferKind, swapChainFramebuffers)
    {
      CreateDepthResources();
      ghost var withDepth := owned;
      ghost var framebuffersStart := nextHandle;
      CreateFramebuffers();
      DepthAndFramebuffersCreated(old(owned), depthImageView, framebuffersStart, nextHandle,
                                  swapChain, swapChainImages, swapChainImageViews, withDepth, owned);
    }

    /**
     * The creation half of RecreateSwapChain: CreateSwapChain,
     * CreateImageViews, CreateDepthResources and CreateFramebuffers, in that
     * order, build a complete generation for the surface as it is now.
     */
    method BuildSwapChainGeneration(surface: SurfaceState)
      requires WellFormed(owned, nextHandle) && NoSwapchainObjects(owned)
      requires physicalDevice.Some? && physicalDevice.value.queueFamilies.IsComplete()
      requires SurfaceUsable(surface)
      modifies this`swapChain, this`swapChainImages, this`swapChainImageFormat, this`swapChainExtent,
               this`swapChainCreateInfo, this`swapChainImageViews, this`depthImageView, this`depthImageExtent,
               this`swapChainFramebuffers, this`nextHandle, this`owned, this`events
      ensures WellFormed(owned, nextHandle)
      ensures SwapchainBuilt(owned, swapChain, swapChainImages, swapChainImageViews, depthImageView, swapChainFramebuffers)
      ensures depthImageExtent == swapChainExtent
      ensures KeepsOtherObjects(old(owned), owned)
      ensures events == old(events) + BuildLog(swapChain, swapChainImageViews, depthImageView, swapChainFramebuffers)
      ensures swapChainImages == surface.swapChainImages
      ensures IsSwapchainCreateInfoFor(swapChainCreateInfo, surface.support, physicalDevice.value.queueFamilies,
                                       checkSwapSurfaceFormatFunc, checkSwapPresentModeFunc,
                                       surface.framebufferWidth, surface.framebufferHeight)
      ensures swapChainExtent == swapChainCreateInfo.imageExtent
    {
      BuildSwapchainAndViews(surface);
      ghost var withViews := owned;
      BuildDepthAndFramebuffers();
      KeepsOtherObjectsTransitive(old(owned), withViews, owned);
      AppendBuildLog(old(events), swapChain, swapChainImageViews, depthImageView, swapChainFramebuffers);
    }

    /**
     * The teardown and rebuild of RecreateSwapChain: destroys the swapchain
     * generation (framebuffers, views, swapchain) and builds the next one
     * (swapchain, views, depth resources, framebuffers) for the surface as
     * it is now. The previous depth view is never destroyed; objects outside
     * the generation are kept as they were.
     */
    method RebuildSwapChain(surface: SurfaceState)
      requires WellFormed(owned, nextHandle)
      requires GenerationOwned(owned, swapChain, swapChainImageViews, swapChainFramebuffers)
      requires physicalDevice.Some? && physicalDevice.value.queueFamilies.IsComplete()
      requires SurfaceUsable(surface)
      modifies this`swapChain, this`swapChainImages, this`swapChainImageFormat, this`swapChainExtent,
               this`swapChainCreateInfo, this`swapChainImageViews, this`depthImageView, this`depthImageExtent,
               this`swapChainFramebuffers, this`nextHandle, this`owned, this`events
      ensures WellFormed(owned, nextHandle)
      ensures SwapchainBuilt(owned, swapChain, swapChainImages, swapChainImageViews, depthImageView, swapChainFramebuffers)
      ensures depthImageExtent == swapChainExtent
      ensures KeepsOtherObjects(old(owned), owned)
      ensures events == old(events) + TeardownLog(old(swapChainFramebuffers), old(swapChainImageViews), old(swapChain))
                        + BuildLog(swapChain, swapChainImageViews, depthImageView, swapChainFramebuffers)
      ensures swapChainImages == surface.swapChainImages
      ensures swapChainExtent == ChooseSwapExtentIntended(surface.support.capabilities,
                                                          surface.framebufferWidth, surface.framebufferHeight)
    {
      CleanUpSwapChain();
      ghost var cleared := owned;
      BuildSwapChainGeneration(surface);
      KeepsOtherObjectsTransitive(old(owned), cleared, owned);
    }

    /**
     * The object half of RecreateSwapChain: the teardown and rebuild of the
     * swapchain generation keep the renderer's objects and tables valid, with
     * every per-slot object and descriptor table as it was.
     */
    method RebuildObjects(surface: SurfaceState)
      requires ObjectsValid()
      requires SurfaceUsable(surface)
      modifies this`swapChain, this`swapChainImages, this`swapChainImageFormat, this`swapChainExtent,
               this`swapChainCreateInfo, this`swapChainImageViews, this`depthImageView, this`depthImageExtent,
               this`swapChainFramebuffers, this`nextHandle, this`owned, this`events
      ensures ObjectsValid()
      ensures GenerationReplaced(old(View()), View())
      ensures KeepsOtherObjects(old(owned), owned)
      ensures old(depthImageView) in owned && owned[old(depthImageView)] == old(owned[depthImageView])
      ensures swapChainImages == surface.swapChainImages
      ensures swapChainExtent == ChooseSwapExtentIntended(surface.support.capabilities,
                                                          surface.framebufferWidth, surface.framebufferHeight)
    {
      RebuildSwapChain(surface);
      SlotObjectsKept(old(owned), owned, commandBuffers, uniformBuffers, descriptorSets,
                      inFlightFences, imageAvailableSemaphores, renderFinishedSemaphores);
    }

    /**
     * RecreateSwapChain: waits for the device to go idle, then tears the
     * swapchain generation down and builds the next one. An initialized
     * renderer stays initialized, with every per-slot object and descriptor
     * table as it was. CleanUpSwapChain does not destroy the depth
     * resources, so the previous depth view stays alive next to the new one.
     */
    method RecreateSwapChain(surface: SurfaceState)
      requires Valid()
      requires SurfaceUsable(surface)
      modifies this`swapChain, this`swapChainImages, this`swapChainImageFormat, this`swapChainExtent,
               this`swapChainCreateInfo, this`swapChainImageViews, this`depthImageView, this`depthImageExtent,
               this`swapChainFramebuffers, this`nextHandle, this`owned, this`events,
               this`fenceSignalled, this`pending
      ensures Valid()
      ensures SwapchainRebuilt(old(View()), View())
      ensures KeepsOtherObjects(old(owned), owned)
      ensures old(depthImageView) in owned && owned[old(depthImageView)] == old(owned[depthImageView])
      ensures swapChainImages == surface.swapChainImages
      ensures swapChainExtent == ChooseSwapExtentIntended(surface.support.capabilities,
                                                          surface.framebufferWidth, surface.framebufferHeight)
    {
      WaitForDeviceIdle();
      ghost var idle := View();
      RebuildObjects(surface);
      IdleThenReplaced(old(View()), idle, View());
    }

    /**
     * Clean: destroys the debug messenger, the swapchain generation (as
     * CleanUpSwapChain) and the instance, without waiting for the device.
     * The depth resources, descriptor pool, sync objects, pipeline and device
     * are not destroyed.
     */
    method Clean()
      requires WellFormed(owned, nextHandle)
      requires GenerationOwned(owned, swapChain, swapChainImageViews, swapChainFramebuffers)
      modifies this`owned, this`events
      ensures WellFormed(owned, nextHandle) && NoSwapchainObjects(owned)
      ensures KeepsOtherObjects(old(owned), owned)
      ensures events == old(events) + [DebugMessengerDestroyed]
                        + TeardownLog(swapChainFramebuffers, swapChainImageViews, swapChain) + [InstanceDestroyed]
    {
      events := events + [DebugMessengerDestroyed];
      CleanUpSwapChain();
      events := events + [InstanceDestroyed];
    }

    // ------------------------------------------------------------ initialization

    /**
     * The device half of Init: CreateVKinstance, SetupDebugMessenger (a no-op
     * without validation layers), CreateSurface, PickFirstPhysicalDevice and
     * CreateLogicalDevice, each raising when its Vulkan call fails.
     */
    method InitDevice(platform: Platform) returns (r: Result<(), InitError>)
      modifies this`physicalDevice, this`deviceQueueFamilies, this`enabledFeatures
      ensures r.Err? ==> r == InitOutcome(platform, deviceExtension, checkSuitableDeviceFunc)
      ensures r.Ok? <==>
                && !FailsBeforeDeviceSelection(platform)
                && FirstMatch(platform.physicalDevices, SuitabilityTest(deviceExtension, checkSuitableDeviceFunc)).Some?
                && platform.failingCall != Some(CreateLogicalDeviceStage)
      ensures r.Ok? ==>
                && physicalDevice.Some?
                && Suitable(physicalDevice.value, deviceExtension, checkSuitableDeviceFunc)
                && physicalDevice.value
                   == platform.physicalDevices[FirstMatch(platform.physicalDevices, SuitabilityTest(deviceExtension, checkSuitableDeviceFunc)).value]
                && deviceQueueFamilies == UniqueQueueFamilies(physicalDevice.value.queueFamilies)
                && enabledFeatures == RequestedFeatures(setPhysicalDeviceFeaturesFunc)
    {
      if platform.failingCall == Some(CreateInstanceStage) {
        return Err(ApiCallFailed(CreateInstanceStage));
      }
      if platform.enableValidationLayer && platform.failingCall == Some(SetupDebugMessengerStage) {
        return Err(ApiCallFailed(SetupDebugMessengerStage));
      }
      if platform.failingCall == Some(CreateSurfaceStage) {
        return Err(ApiCallFailed(CreateSurfaceStage));
      }
      var device := PickFirstPhysicalDevice(platform.physicalDevices, deviceExtension, checkSuitableDeviceFunc);
      if device.None? {
        return Err(NoSuitableGpu);
      }
      physicalDevice := device;
      deviceQueueFamilies := UniqueQueueFamilies(device.value.queueFamilies);
      enabledFeatures := RequestedFeatures(setPhysicalDeviceFeaturesFunc);
      if platform.failingCall == Some(CreateLogicalDeviceStage) {
        return Err(ApiCallFailed(CreateLogicalDeviceStage));
      }
      r := Ok(());
    }

    /** The first swapchain was built for the picked device and the window, from the driver's images. */
    ghost predicate FirstSwapchainChosen(platform: Platform)
      reads this`physicalDevice, this`swapChainImages, this`swapChainExtent
    {
      && physicalDevice.Some? && Suitable(physicalDevice.value, deviceExtension, checkSuitableDeviceFunc)
      && swapChainImages == platform.swapChainImages
      && swapChainExtent == ChooseSwapExtentIntended(physicalDevice.value.swapChainSupport.capabilities,
                                                     platform.framebufferWidth, platform.framebufferHeight)
    }

    /**
     * Init from CreateSwapChain to CreateDescriptorSetLayout: the first
     * swapchain and its views for the picked device and the window, the
     * default render pass (not tracked) and the default layout. Returns the
     * stage whose call failed.
     */
    method InitSwapchain(platform: Platform) returns (failed: Option<InitStage>)
      requires WellFormed(owned, nextHandle) && NoSwapchainObjects(owned)
      requires physicalDevice.Some? && Suitable(physicalDevice.value, deviceExtension, checkSuitableDeviceFunc)
      modifies this`swapChain, this`swapChainImages, this`swapChainImageFormat, this`swapChainExtent,
               this`swapChainCreateInfo, this`swapChainImageViews, this`nextHandle, this`owned, this`events,
               this`descriptorSetLayoutBindings
      ensures failed.Some? <==>
                platform.failingCall == Some(CreateSwapChainStage) || platform.failingCall == Some(CreateDescriptorSetLayoutStage)
      ensures failed.Some? ==> failed == platform.failingCall
      ensures failed.None? ==> ViewsBuilt() && FirstSwapchainChosen(platform) && IsDefaultLayout(descriptorSetLayoutBindings)
    {
      if platform.failingCall == Some(CreateSwapChainStage) {
        return Some(CreateSwapChainStage);
      }
      BuildSwapchainAndViews(InitSurface(platform, physicalDevice.value));
      if platform.failingCall == Some(CreateDescriptorSetLayoutStage) {
        return Some(CreateDescriptorSetLayoutStage);
      }
      descriptorSetLayoutBindings := BuildDefaultLayoutBindings();
      failed := None;
    }

    /** CreateUniforBuffers: one uniform buffer per slot, each mapped for the whole run. */
    method InitUniformBuffers()
      requires ViewsBuilt()
      modifies this`nextHandle, this`owned, this`events, this`uniformBuffers, this`uniformBuffersMapped
      ensures ViewsBuilt() && SlotHandlesValid(owned, uniformBuffers)
      ensures fresh(uniformBuffersMapped) && uniformBuffersMapped.Length == MAX_FRAMES_IN_FLIGHT
    {
      ghost var before := owned;
      ghost var start := nextHandle;
      uniformBuffers := AllocateSlots();
      SlotsCreatedKeepViews(before, start, owned, swapChain, swapChainImages, swapChainImageViews);
      uniformBuffersMapped := new UniformBufferObject[MAX_FRAMES_IN_FLIGHT](_ => ZERO_UNIFORM_BUFFER_OBJECT);
    }

    /**
     * CreateDescriptorPool then CreateDescriptorSets: the default pool, and
     * one descriptor set per slot bound to that slot's uniform buffer.
     * Returns the stage whose call failed.
     */
    method InitDescriptorSets(platform: Platform) returns (failed: Option<InitStage>)
      requires ViewsBuilt() && SlotHandlesValid(owned, uniformBuffers)
      modifies this`nextHandle, this`owned, this`events, this`descriptorPoolSizes, this`descriptorSets,
               this`descriptorSetBuffers
      ensures failed.Some? <==>
                platform.failingCall == Some(CreateDescriptorPoolStage) || platform.failingCall == Some(AllocateDescriptorSetsStage)
      ensures failed.Some? ==> failed == platform.failingCall
      ensures failed.None? ==>
                && ViewsBuilt()
                && SlotHandlesValid(owned, uniformBuffers) && SlotHandlesValid(owned, descriptorSets)
                && IsDefaultPool(descriptorPoolSizes)
                && descriptorSetBuffers == uniformBuffers
    {
      var poolSizes, maxSets := BuildDescriptorPoolSizes();
      if platform.failingCall == Some(CreateDescriptorPoolStage) {
        return Some(CreateDescriptorPoolStage);
      }
      descriptorPoolSizes := poolSizes;
      if platform.failingCall == Some(AllocateDescriptorSetsStage) {
        return Some(AllocateDescriptorSetsStage);
      }
      ghost var before := owned;
      ghost var start := nextHandle;
      descriptorSets := AllocateSlots();
      SlotsCreatedKeepViews(before, start, owned, swapChain, swapChainImages, swapChainImageViews);
      SlotHandlesKept(before, owned, uniformBuffers);
      // descriptor set i is written to describe uniform buffer i
      descriptorSetBuffers := uniformBuffers;
      failed := None;
    }

    /** Init from CreateUniforBuffers to CreateDescriptorSets. Returns the stage whose call failed. */
    method InitDescriptorStages(platform: Platform) returns (failed: Option<InitStage>)
      requires ViewsBuilt() && IsDefaultLayout(descriptorSetLayoutBindings)
      modifies this`nextHandle, this`owned, this`events, this`uniformBuffers, this`uniformBuffersMapped,
               this`descriptorPoolSizes, this`descriptorSets, this`descriptorSetBuffers
      ensures failed.Some? <==>
                platform.failingCall == Some(CreateDescriptorPoolStage) || platform.failingCall == Some(AllocateDescriptorSetsStage)
      ensures failed.Some? ==> failed == platform.failingCall
      ensures failed.None? ==>
                && ViewsBuilt() && DescriptorTablesReady()
                && SlotHandlesValid(owned, uniformBuffers) && SlotHandlesValid(owned, descriptorSets)
    {
      InitUniformBuffers();
      failed := InitDescriptorSets(platform);
    }

    /** Init from CreateSwapChain to CreateDescriptorSets. Returns the stage whose call failed. */
    method InitSwapchainStages(platform: Platform) returns (failed: Option<InitStage>)
      requires WellFormed(owned, nextHandle) && NoSwapchainObjects(owned)
      requires physicalDevice.Some? && Suitable(physicalDevice.value, deviceExtension, checkSuitableDeviceFunc)
      modifies this`swapChain, this`swapChainImages, this`swapChainImageFormat, this`swapChainExtent,
               this`swapChainCreateInfo, this`swapChainImageViews, this`nextHandle, this`owned, this`events,
               this`descriptorSetLayoutBindings, this`uniformBuffers, this`uniformBuffersMapped,
               this`descriptorPoolSizes, this`descriptorSets, this`descriptorSetBuffers
      ensures failed.Some? <==>
                || platform.failingCall == Some(CreateSwapChainStage)
                || platform.failingCall == Some(CreateDescriptorSetLayoutStage)
                || platform.failingCall == Some(CreateDescriptorPoolStage)
                || platform.failingCall == Some(AllocateDescriptorSetsStage)
      ensures failed.Some? ==> failed == platform.failingCall
      ensures failed.None? ==>
                && ViewsBuilt() && FirstSwapchainChosen(platform) && DescriptorTablesReady()
                && SlotHandlesValid(owned, uniformBuffers) && SlotHandlesValid(owned, descriptorSets)
    {
      failed := InitSwapchain(platform);
      if failed.Some? {
        return;
      }
      failed := InitDescriptorStages(platform);
    }

    /** CreateCommandPool, then CreateDepthResources and CreateFramebuffers complete the first generation. */
    method InitFramebuffers(platform: Platform) returns (failed: Option<InitStage>)
      requires ViewsBuilt()
      requires SlotHandlesValid(owned, uniformBuffers) && SlotHandlesValid(owned, descriptorSets)
      modifies this`depthImageView, this`depthImageExtent, this`swapChainFramebuffers, this`nextHandle, this`owned,
               this`events
      ensures failed.Some? <==> platform.failingCall == Some(CreateCommandPoolStage)
      ensures failed.Some? ==> failed == platform.failingCall
      ensures failed.None? ==>
                GenerationBuilt() && SlotHandlesValid(owned, uniformBuffers) && SlotHandlesValid(owned, descriptorSets)
    {
      if platform.failingCall == Some(CreateCommandPoolStage) {
        return Some(CreateCommandPoolStage);
      }
      ghost var before := owned;
      BuildDepthAndFramebuffers();
      SlotHandlesKept(before, owned, uniformBuffers);
      SlotHandlesKept(before, owned, descriptorSets);
      failed := None;
    }

    /** CreateCommandBuffers: one command buffer per slot. */
    method InitCommandBuffers(platform: Platform) returns (failed: Option<InitStage>)
      requires GenerationBuilt()
      requires SlotHandlesValid(owned, uniformBuffers) && SlotHandlesValid(owned, descriptorSets)
      modifies this`nextHandle, this`owned, this`events, this`commandBuffers
      ensures failed.Some? <==> platform.failingCall == Some(AllocateCommandBuffersStage)
      ensures failed.Some? ==> failed == platform.failingCall
      ensures failed.None? ==>
                && GenerationBuilt()
                && SlotHandlesValid(owned, uniformBuffers) && SlotHandlesValid(owned, descriptorSets)
                && SlotHandlesValid(owned, commandBuffers)
    {
      if platform.failingCall == Some(AllocateCommandBuffersStage) {
        return Some(AllocateCommandBuffersStage);
      }
      ghost var before := owned;
      ghost var start := nextHandle;
      commandBuffers := AllocateSlots();
      SlotsCreatedKeepBuilt(before, start, owned,
                            swapChain, swapChainImages, swapChainImageViews, depthImageView, swapChainFramebuffers);
      SlotHandlesKept(before, owned, uniformBuffers);
      SlotHandlesKept(before, owned, descriptorSets);
      failed := None;
    }

    /** CreateSyncObject: every slot's semaphores and fence, the fences created signalled. */
    method InitSyncObjects(platform: Platform) returns (failed: Option<InitStage>)
      requires GenerationBuilt()
      requires SlotHandlesValid(owned, uniformBuffers) && SlotHandlesValid(owned, descriptorSets)
      requires SlotHandlesValid(owned, commandBuffers)
      modifies this`nextHandle, this`owned, this`events, this`imageAvailableSemaphores, this`renderFinishedSemaphores,
               this`inFlightFences, this`fenceSignalled
      ensures failed.Some? <==> platform.failingCall == Some(CreateSyncObjectsStage)
      ensures failed.Some? ==> failed == platform.failingCall
      ensures failed.None? ==> ObjectsAlive() && FencesConsistent(fenceSignalled, {})
    {
      if platform.failingCall == Some(CreateSyncObjectsStage) {
        return Some(CreateSyncObjectsStage);
      }
      ghost var before := owned;
      ghost var start := nextHandle;
      CreateSyncObjects();
      SyncCreatedAllAlive(before, start, owned,
                          swapChain, swapChainImages, swapChainImageViews, depthImageView, swapChainFramebuffers,
                          commandBuffers, uniformBuffers, descriptorSets);
      failed := None;
    }

    /** CreateCommandBuffers then CreateSyncObject. Returns the stage whose call failed. */
    method InitSlotStages(platform: Platform) returns (failed: Option<InitStage>)
      requires GenerationBuilt()
      requires SlotHandlesValid(owned, uniformBuffers) && SlotHandlesValid(owned, descriptorSets)
      modifies this`nextHandle, this`owned, this`events, this`commandBuffers, this`imageAvailableSemaphores,
               this`renderFinishedSemaphores, this`inFlightFences, this`fenceSignalled
      ensures failed.Some? <==>
                platform.failingCall == Some(AllocateCommandBuffersStage) || platform.failingCall == Some(CreateSyncObjectsStage)
      ensures failed.Some? ==> failed == platform.failingCall
      ensures failed.None? ==> ObjectsAlive() && FencesConsistent(fenceSignalled, {})
    {
      failed := InitCommandBuffers(platform);
      if failed.Some? {
        return;
      }
      failed := InitSyncObjects(platform);
    }

    /** Init from CreateCommandPool to CreateSyncObject. Returns the stage whose call failed. */
    method InitFrameStages(platform: Platform) returns (failed: Option<InitStage>)
      requires ViewsBuilt()
      requires SlotHandlesValid(owned, uniformBuffers) && SlotHandlesValid(owned, descriptorSets)
      modifies this`depthImageView, this`depthImageExtent, this`swapChainFramebuffers, this`nextHandle, this`owned,
               this`events, this`commandBuffers, this`imageAvailableSemaphores, this`renderFinishedSemaphores,
               this`inFlightFences, this`fenceSignalled
      ensures FirstSwapchainChosen(platform) == old(FirstSwapchainChosen(platform))
      ensures DeviceReady() == old(DeviceReady()) && DescriptorTablesReady() == old(DescriptorTablesReady())
      ensures failed.Some? <==>
                || platform.failingCall == Some(CreateCommandPoolStage)
                || platform.failingCall == Some(AllocateCommandBuffersStage)
                || platform.failingCall == Some(CreateSyncObjectsStage)
      ensures failed.Some? ==> failed == platform.failingCall
      ensures failed.None? ==> ObjectsAlive() && FencesConsistent(fenceSignalled, {})
    {
      failed := InitFramebuffers(platform);
      if failed.Some? {
        return;
      }
      failed := InitSlotStages(platform);
    }

    /** The last step of Init: with every object in place, the renderer is initialized. */
    method MarkInitialized(ghost platform: Platform)
      requires DeviceReady() && DescriptorTablesReady() && ObjectsAlive()
      requires FirstSwapchainChosen(platform)
      modifies this`isInitialized
      ensures ObjectsValid()
      ensures FirstSwapchainChosen(platform)
    {
      isInitialized := true;
    }

    /** Init from CreateCommandPool to the end: the per-frame objects, then isInitialized. */
    method InitFrameStagesAndMark(platform: Platform) returns (failed: Option<InitStage>)
      requires !isInitialized
      requires DeviceReady() && DescriptorTablesReady() && ViewsBuilt()
      requires SlotHandlesValid(owned, uniformBuffers) && SlotHandlesValid(owned, descriptorSets)
      requires FirstSwapchainChosen(platform)
      modifies this`depthImageView, this`depthImageExtent, this`swapChainFramebuffers, this`nextHandle, this`owned,
               this`events, this`commandBuffers, this`imageAvailableSemaphores, this`renderFinishedSemaphores,
               this`inFlightFences, this`fenceSignalled, this`isInitialized
      ensures FirstSwapchainChosen(platform)
      ensures failed.Some? <==>
                || platform.failingCall == Some(CreateCommandPoolStage)
                || platform.failingCall == Some(AllocateCommandBuffersStage)
                || platform.failingCall == Some(CreateSyncObjectsStage)
      ensures failed.Some? ==> failed == platform.failingCall
      ensures isInitialized <==> failed.None?
      ensures failed.None? ==> ObjectsValid() && FencesConsistent(fenceSignalled, {})
    {
      failed := InitFrameStages(platform);
      if failed.Some? {
        return;
      }
      MarkInitialized(platform);
    }

    /**
     * Init after the logical device exists: every object from the swapchain
     * to the sync objects, then isInitialized. Returns the stage whose call
     * failed, which leaves the renderer uninitialized.
     */
    method InitObjects(platform: Platform) returns (failed: Option<InitStage>)
      requires !isInitialized
      requires WellFormed(owned, nextHandle) && NoSwapchainObjects(owned)
      requires physicalDevice.Some? && Suitable(physicalDevice.value, deviceExtension, checkSuitableDeviceFunc)
      modifies this`swapChain, this`swapChainImages, this`swapChainImageFormat, this`swapChainExtent,
               this`swapChainCreateInfo, this`swapChainImageViews, this`depthImageView, this`depthImageExtent,
               this`swapChainFramebuffers, this`nextHandle, this`owned, this`events,
               this`descriptorSetLayoutBindings, this`uniformBuffers, this`uniformBuffersMapped,
               this`descriptorPoolSizes, this`descriptorSets, this`descriptorSetBuffers,
               this`commandBuffers, this`imageAvailableSemaphores, this`renderFinishedSemaphores,
               this`inFlightFences, this`fenceSignalled, this`isInitialized
      ensures failed.Some? <==> FailsCreatingObjects(platform)
      ensures failed.Some? ==> failed == platform.failingCall
      ensures isInitialized <==> failed.None?
      ensures failed.None? ==>
                ObjectsValid() && FirstSwapchainChosen(platform) && FencesConsistent(fenceSignalled, {})
    {
      failed := InitSwapchainStages(platform);
      if failed.Some? {
        return;
      }
      failed := InitFrameStagesAndMark(platform);
    }

    /**
     * Init once the logical device exists: the outcome is decided by the
     * object-creation calls alone; on success the renderer is valid, on
     * frame slot 0 with every fence signalled and nothing in flight.
     */
    method InitAfterDevice(platform: Platform) returns (r: Result<(), InitError>)
      requires !isInitialized && currentFrame == 0 && pending == {} && recordings == []
      requires WellFormed(owned, nextHandle) && NoSwapchainObjects(owned)
      requires physicalDevice.Some? && Suitable(physicalDevice.value, deviceExtension, checkSuitableDeviceFunc)
      modifies this`swapChain, this`swapChainImages, this`swapChainImageFormat, this`swapChainExtent,
               this`swapChainCreateInfo, this`swapChainImageViews, this`depthImageView, this`depthImageExtent,
               this`swapChainFramebuffers, this`nextHandle, this`owned, this`events,
               this`descriptorSetLayoutBindings, this`uniformBuffers, this`uniformBuffersMapped,
               this`descriptorPoolSizes, this`descriptorSets, this`descriptorSetBuffers,
               this`commandBuffers, this`imageAvailableSemaphores, this`renderFinishedSemaphores,
               this`inFlightFences, this`fenceSignalled, this`isInitialized
      ensures r == if FailsCreatingObjects(platform) then Err(ApiCallFailed(platform.failingCall.value)) else Ok(())
      ensures isInitialized <==> r.Ok?
      ensures r.Ok? ==>
                && Valid()
                && currentFrame == 0 && pending == {} && recordings == []
                && (forall s :: 0 <= s < MAX_FRAMES_IN_FLIGHT ==> fenceSignalled[s])
                && swapChainImages == platform.swapChainImages
                && swapChainExtent == ChooseSwapExtentIntended(physicalDevice.value.swapChainSupport.capabilities,
                                                               platform.framebufferWidth, platform.framebufferHeight)
    {
      var failed := InitObjects(platform);
      r := if failed.Some? then Err(ApiCallFailed(failed.value)) else Ok(());
    }

    /**
     * Init: the Vulkan objects in the source's order, stopping at the first
     * call that fails. Its outcome is InitOutcome's; on success the renderer
     * is initialized and valid, on frame slot 0 with every fence signalled
     * and nothing in flight, its swapchain holding the driver's images at
     * the extent chosen for the window.
     */
    method Init(platform: Platform) returns (r: Result<(), InitError>)
      requires Fresh()
      modifies this
      ensures r == InitOutcome(platform, deviceExtension, checkSuitableDeviceFunc)
      ensures isInitialized <==> r.Ok?
      ensures r.Ok? ==>
                && Valid()
                && currentFrame == 0 && pending == {} && recordings == []
                && (forall s :: 0 <= s < MAX_FRAMES_IN_FLIGHT ==> fenceSignalled[s])
                && swapChainImages == platform.swapChainImages
                && swapChainExtent == ChooseSwapExtentIntended(physicalDevice.value.swapChainSupport.capabilities,
                                                               platform.framebufferWidth, platform.framebufferHeight)
    {
      r := InitDevice(platform);
      if r.Err? {
        return;
      }
      OutcomeAfterLogicalDevice(platform, deviceExtension, checkSuitableDeviceFunc);
      r := InitAfterDevice(platform);
    }

    // ------------------------------------------------------------ frames

    /** vkWaitForFences on one slot: returns once the fence is signalled. */
    method WaitForFence(slot: nat)
      requires FramesValid() && slot < MAX_FRAMES_IN_FLIGHT
      modifies this`fenceSignalled, this`pending
      ensures FramesValid()
      ensures FenceWaited(old(View()), View(), slot)
    {
      // a wait on an unsignalled fence with nothing pending would never return; FramesValid rules that out
      fenceSignalled := fenceSignalled[slot := true];
      pending := pending - {slot};
    }

    /**
     * The middle of Render: vkResetFences on the slot's fence (only now that
     * work will be submitted with it), the render callback on the slot's
     * command buffer and the acquired image's framebuffer, and vkQueueSubmit
     * with the fence. A missing callback, a callback that raises
     * (`callbackRaises`, the application's answer) or a failed submission
     * raises.
     */
    method SubmitFrame(frame: nat, imageIndex: nat, callbackRaises: bool, submitResult: int) returns (error: Option<RenderError>)
      requires FramesValid() && frame < MAX_FRAMES_IN_FLIGHT
      requires frame < |commandBuffers| && imageIndex < |swapChainFramebuffers|
      modifies this`fenceSignalled, this`pending, this`recordings
      ensures |fenceSignalled| == MAX_FRAMES_IN_FLIGHT
      ensures error.None? ==> FramesValid()
      ensures error.None? <==> hasRenderFunc && !callbackRaises && submitResult == VK_SUCCESS
      ensures error.Some? ==> error.value == if !hasRenderFunc then RenderFuncMissing
                                             else if callbackRaises then RenderFuncRaised
                                             else SubmitFailed
      ensures FrameSubmitted(old(View()), View(), frame, imageIndex, hasRenderFunc && !callbackRaises, error.None?)
      ensures swapChainImages == old(swapChainImages) && swapChainExtent == old(swapChainExtent) && owned == old(owned)
    {
      var recorded := recordings;
      var submitted := pending;
      if !hasRenderFunc {
        error := Some(RenderFuncMissing);
      } else if callbackRaises {
        // the callback threw part way through: no completed recording, nothing submitted
        error := Some(RenderFuncRaised);
      } else {
        recorded := recorded + [Recording(commandBuffers[frame], swapChainFramebuffers[imageIndex], frame)];
        if submitResult != VK_SUCCESS {
          error := Some(SubmitFailed);
        } else {
          // the submission signals the slot's fence when it completes
          submitted := submitted + {frame};
          error := None;
        }
      }
      fenceSignalled, recordings, pending := fenceSignalled[frame := false], recorded, submitted;
    }

    /**
     * The end of Render: vkQueuePresentKHR's result or a pending resize
     * decides whether the swapchain is rebuilt (any other non-success
     * raises), and the frame counter advances modulo MAX_FRAMES_IN_FLIGHT.
     */
    method PresentFrame(presentResult: int, surface: SurfaceState) returns (outcome: FrameOutcome)
      requires Valid()
      requires SurfaceUsable(surface)
      modifies this`swapChain, this`swapChainImages, this`swapChainImageFormat, this`swapChainExtent,
               this`swapChainCreateInfo, this`swapChainImageViews, this`depthImageView, this`depthImageExtent,
               this`swapChainFramebuffers, this`nextHandle, this`owned, this`events,
               this`fenceSignalled, this`pending, this`currentFrame, this`framebufferResized
      ensures Valid()
      ensures FramePresentedView(old(View()), View(), presentResult, outcome)
      ensures SurfaceAfterFrame(outcome, surface, old(swapChainImages), old(swapChainExtent), swapChainImages, swapChainExtent)
      ensures !Recreated(outcome) ==> owned == old(owned)
    {
      var recreate := presentResult == VK_ERROR_OUT_OF_DATE_KHR || presentResult == VK_SUBOPTIMAL_KHR || framebufferResized;
      if recreate {
        RecreateThenAdvance(surface);
      } else if presentResult != VK_SUCCESS {
        return FrameFailed(PresentFailed);
      } else {
        AdvanceFrame();
      }
      outcome := FramePresented(recreate);
    }

    /** A present that asks for a rebuild: the flag is cleared, the swapchain recreated and the counter advanced. */
    method RecreateThenAdvance(surface: SurfaceState)
      requires Valid()
      requires SurfaceUsable(surface)
      modifies this`swapChain, this`swapChainImages, this`swapChainImageFormat, this`swapChainExtent,
               this`swapChainCreateInfo, this`swapChainImageViews, this`depthImageView, this`depthImageExtent,
               this`swapChainFramebuffers, this`nextHandle, this`owned, this`events,
               this`fenceSignalled, this`pending, this`currentFrame, this`framebufferResized
      ensures Valid()
      ensures SwapchainRebuilt(old(View()).(currentFrame := NextSlot(old(currentFrame)), framebufferResized := false), View())
      ensures SurfaceAfterFrame(FramePresented(true), surface, old(swapChainImages), old(swapChainExtent),
                                swapChainImages, swapChainExtent)
    {
      framebufferResized := false;
      RecreateSwapChain(surface);
      AdvanceFrame();
    }

    /** The last step of a presented frame: the next slot, modulo MAX_FRAMES_IN_FLIGHT. */
    method AdvanceFrame()
      requires Valid()
      modifies this`currentFrame
      ensures Valid()
      ensures View() == old(View()).(currentFrame := NextSlot(old(currentFrame)))
    {
      currentFrame := NextSlot(currentFrame);
    }

    /**
     * Render after a successful acquire: reset, record and submit, then
     * present. Its outcome is the one FrameOutcomeFor gives a successful
     * acquire.
     */
    method RecordSubmitPresent(imageIndex: nat, callbackRaises: bool, submitResult: int, presentResult: int, surface: SurfaceState)
      returns (outcome: FrameOutcome)
      requires Valid()
      requires SurfaceUsable(surface)
      requires imageIndex < |swapChainFramebuffers|
      requires fenceSignalled[currentFrame] && currentFrame !in pending
      modifies this`swapChain, this`swapChainImages, this`swapChainImageFormat, this`swapChainExtent,
               this`swapChainCreateInfo, this`swapChainImageViews, this`depthImageView, this`depthImageExtent,
               this`swapChainFramebuffers, this`nextHandle, this`owned, this`events,
               this`fenceSignalled, this`pending, this`currentFrame, this`framebufferResized, this`recordings
      ensures outcome == FrameOutcomeFor(VK_SUCCESS, hasRenderFunc, callbackRaises, submitResult, presentResult, old(framebufferResized))
      ensures ObjectsValid() && |fenceSignalled| == MAX_FRAMES_IN_FLIGHT
      ensures !StrandsFence(outcome) ==> FramesValid()
      ensures FrameEffect(old(View()), View(), imageIndex, outcome)
      ensures SurfaceAfterFrame(outcome, surface, old(swapChainImages), old(swapChainExtent), swapChainImages, swapChainExtent)
      ensures !Recreated(outcome) ==> owned == old(owned)
    {
      var error := SubmitFrame(currentFrame, imageIndex, callbackRaises, submitResult);
      if error.Some? {
        outcome := FrameFailed(error.value);
        SubmitFailedEffect(old(View()), View(), imageIndex, error.value);
        return;
      }
      ghost var submitted := View();
      outcome := PresentFrame(presentResult, surface);
      SubmittedFrameEffect(old(View()), submitted, View(), imageIndex, presentResult, outcome);
    }

    /**
     * Render: one frame. Waits on the slot's fence; acquires an image (an
     * OUT_OF_DATE acquire recreates the swapchain and ends the call, any
     * other result but SUCCESS or SUBOPTIMAL raises); resets the fence,
     * invokes the render callback and submits; presents and recreates on
     * OUT_OF_DATE, SUBOPTIMAL or a pending resize; advances the frame
     * counter. The acquire, submit and present results are the driver's
     * answers, given as inputs; `callbackRaises` is whether the
     * application's render callback throws; `surface` is what the surface
     * reports should the swapchain be rebuilt.
     */
    method Render(acquired: AcquireResult, callbackRaises: bool, submitResult: int, presentResult: int, surface: SurfaceState)
      returns (outcome: FrameOutcome)
      requires Valid()
      requires SurfaceUsable(surface)
      requires AcquireSucceeded(acquired.result) ==> acquired.imageIndex < |swapChainFramebuffers|
      modifies this`swapChain, this`swapChainImages, this`swapChainImageFormat, this`swapChainExtent,
               this`swapChainCreateInfo, this`swapChainImageViews, this`depthImageView, this`depthImageExtent,
               this`swapChainFramebuffers, this`nextHandle, this`owned, this`events,
               this`fenceSignalled, this`pending, this`currentFrame, this`framebufferResized, this`recordings
      ensures outcome == FrameOutcomeFor(acquired.result, hasRenderFunc, callbackRaises, submitResult, presentResult, old(framebufferResized))
      ensures ObjectsValid() && |fenceSignalled| == MAX_FRAMES_IN_FLIGHT
      ensures !StrandsFence(outcome) ==> FramesValid()
      ensures FrameEffect(old(View()), View(), acquired.imageIndex, outcome)
      ensures SurfaceAfterFrame(outcome, surface, old(swapChainImages), old(swapChainExtent), swapChainImages, swapChainExtent)
      ensures !Recreated(outcome) ==> owned == old(owned)
    {
      WaitForFence(currentFrame);
      ghost var waited := View();
      if acquired.result == VK_ERROR_OUT_OF_DATE_KHR {
        RecreateSwapChain(surface);
        outcome := FrameSkipped;
        SkippedFrameEffect(old(View()), waited, View(), acquired.imageIndex);
        return;
      } else if acquired.result != VK_SUCCESS && acquired.result != VK_SUBOPTIMAL_KHR {
        outcome := FrameFailed(AcquireFailed);
        AcquireFailedEffect(old(View()), waited, acquired.imageIndex);
        return;
      }
      outcome := RecordSubmitPresent(acquired.imageIndex, callbackRaises, submitResult, presentResult, surface);
      WaitedFrameEffect(old(View()), waited, View(), acquired.imageIndex, outcome);
    }

    // ------------------------------------------------------------ uniform buffers

    /** UpdateUniformBuffer: overwrites one slot's persistently mapped bytes; nothing else changes. */
    method UpdateUniformBuffer(currentImage: nat, ubo: UniformBufferObject)
      requires currentImage < uniformBuffersMapped.Length
      modifies uniformBuffersMapped
      ensures uniformBuffersMapped[currentImage] == ubo
      ensures forall s :: 0 <= s < uniformBuffersMapped.Length && s != currentImage ==>
                uniformBuffersMapped[s] == old(uniformBuffersMapped[s])
    {
      uniformBuffersMapped[currentImage] := ubo;
    }

    // ------------------------------------------------------------ getters

    /** GetDescriptorSet: the slot's set once initialized, the null handle before. */
    function GetDescriptorSet(frame: nat): (descriptorSet: Handle)
      reads this
      requires isInitialized ==> frame < |descriptorSets|
      ensures !isInitialized ==> descriptorSet == NULL_HANDLE
      ensures isInitialized ==> descriptorSet == descriptorSets[frame]
    {
      if isInitialized then descriptorSets[frame] else NULL_HANDLE
    }

    /** GetUniformBuffer: the slot's buffer, with no initialization guard. */
    function GetUniformBuffer(frame: nat): (buffer: Handle)
      reads this
      requires frame < |uniformBuffers|
      ensures buffer == uniformBuffers[frame]
    {
      uniformBuffers[frame]
    }

    /** In an initialized renderer each slot has its own live descriptor set and uniform buffer. */
    lemma SlotResourcesLiveAndDistinct(frame: nat, other: nat)
      requires Valid()
      requires frame < MAX_FRAMES_IN_FLIGHT && other < MAX_FRAMES_IN_FLIGHT
      ensures GetDescriptorSet(frame) != NULL_HANDLE && GetDescriptorSet(frame) in owned
      ensures GetUniformBuffer(frame) != NULL_HANDLE && GetUniformBuffer(frame) in owned
      ensures frame != other ==> GetDescriptorSet(frame) != GetDescriptorSet(other)
      ensures frame != other ==> GetUniformBuffer(frame) != GetUniformBuffer(other)
    {
      if frame != other {
        if frame < other {
          assert Apart(descriptorSets, frame, other) && Apart(uniformBuffers, frame, other);
        } else {
          assert Apart(descriptorSets, other, frame) && Apart(uniformBuffers, other, frame);
        }
      }
    }
  }
}
