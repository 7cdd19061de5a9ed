/**
 * The ordering vocabulary for swapchain teardown and rebuild: the kinds of
 * owned Vulkan objects, which kind may reference which, the events a
 * renderer performs on them, and the phase order a rebuild must follow
 * (wait idle; destroy framebuffers, views, swapchain; create swapchain,
 * views, depth resources, framebuffers).
 */
module ResourceLog {
  import opened VkTypes

  datatype ResourceKind = SwapchainKind | ImageViewKind | DepthImageKind | FramebufferKind | OtherKind

  /**
   * Attachment and source references between kinds: a framebuffer attaches
   * image views and the depth view; a swapchain image view is a view of the
   * swapchain's images.
   */
  predicate MayReference(from: ResourceKind, to: ResourceKind) {
    || (from == FramebufferKind && (to == ImageViewKind || to == DepthImageKind))
    || (from == ImageViewKind && to == SwapchainKind)
  }

  datatype Event =
    | DeviceWaitIdle
    | Created(kind: ResourceKind, handle: Handle)
    | Destroyed(kind: ResourceKind, handle: Handle)
    | DebugMessengerDestroyed
    | InstanceDestroyed

  function Creations(kind: ResourceKind, handles: seq<Handle>): (es: seq<Event>)
    ensures |es| == |handles|
    ensures forall i :: 0 <= i < |handles| ==> es[i] == Created(kind, handles[i])
  {
    seq(|handles|, i requires 0 <= i < |handles| => Created(kind, handles[i]))
  }

  function Destructions(kind: ResourceKind, handles: seq<Handle>): (es: seq<Event>)
    ensures |es| == |handles|
    ensures forall i :: 0 <= i < |handles| ==> es[i] == Destroyed(kind, handles[i])
  {
    seq(|handles|, i requires 0 <= i < |handles| => Destroyed(kind, handles[i]))
  }

  lemma CreationsSnoc(kind: ResourceKind, handles: seq<Handle>, h: Handle)
    ensures Creations(kind, handles + [h]) == Creations(kind, handles) + [Created(kind, h)]
  {
    var longer := Creations(kind, handles + [h]);
    assert forall i :: 0 <= i < |handles| ==> longer[i] == Created(kind, handles[i]);
  }

  lemma DestructionsSnoc(kind: ResourceKind, handles: seq<Handle>, h: Handle)
    ensures Destructions(kind, handles + [h]) == Destructions(kind, handles) + [Destroyed(kind, h)]
  {
    var longer := Destructions(kind, handles + [h]);
    assert forall i :: 0 <= i < |handles| ==> longer[i] == Destroyed(kind, handles[i]);
  }

  /** Position of an event in the rebuild protocol. */
  function RebuildPhase(e: Event): nat {
    match e
    case DeviceWaitIdle => 0
    case Destroyed(kind, _) =>
      (match kind
       case FramebufferKind => 1
       case ImageViewKind => 2
       case _ => 3)
    case Created(kind, _) =>
      (match kind
       case SwapchainKind => 4
       case ImageViewKind => 5
       case DepthImageKind => 6
       case _ => 7)
    case _ => 8
  }

  ghost predicate PhaseOrdered(es: seq<Event>) {
    forall i, j :: 0 <= i < j < |es| ==> RebuildPhase(es[i]) <= RebuildPhase(es[j])
  }

  ghost predicate AllInPhase(es: seq<Event>, p: nat) {
    forall i :: 0 <= i < |es| ==> RebuildPhase(es[i]) == p
  }

  ghost predicate AllAtMostPhase(es: seq<Event>, p: nat) {
    forall i :: 0 <= i < |es| ==> RebuildPhase(es[i]) <= p
  }

  /** Appending a block of one later phase to an ordered log keeps it ordered. */
  lemma AppendPhaseBlock(es: seq<Event>, block: seq<Event>, p: nat)
    requires PhaseOrdered(es) && AllAtMostPhase(es, p)
    requires AllInPhase(block, p)
    ensures PhaseOrdered(es + block) && AllAtMostPhase(es + block, p)
  {
    var all := es + block;
    forall i, j | 0 <= i < j < |all|
      ensures RebuildPhase(all[i]) <= RebuildPhase(all[j])
    {
      if j < |es| {
        assert all[i] == es[i] && all[j] == es[j];
      } else if i < |es| {
        assert all[i] == es[i] && all[j] == block[j - |es|];
      } else {
        assert all[i] == block[i - |es|] && all[j] == block[j - |es|];
      }
    }
    forall i | 0 <= i < |all|
      ensures RebuildPhase(all[i]) <= p
    {
      if i < |es| {
        assert all[i] == es[i];
      } else {
        assert all[i] == block[i - |es|];
      }
    }
  }

  /** The events of CleanUpSwapChain: framebuffers, then views, then the swapchain. */
  function TeardownLog(framebuffers: seq<Handle>, views: seq<Handle>, swapChain: Handle): seq<Event> {
    Destructions(FramebufferKind, framebuffers) + Destructions(ImageViewKind, views) + [Destroyed(SwapchainKind, swapChain)]
  }

  /** Appending the three teardown blocks one after another appends TeardownLog. */
  lemma AppendTeardownLog(log: seq<Event>, framebuffers: seq<Handle>, views: seq<Handle>, swapChain: Handle)
    ensures log + Destructions(FramebufferKind, framebuffers) + Destructions(ImageViewKind, views) + [Destroyed(SwapchainKind, swapChain)]
            == log + TeardownLog(framebuffers, views, swapChain)
  {
  }

  /** The events of building a swapchain generation: swapchain, views, depth view, framebuffers. */
  function BuildLog(swapChain: Handle, views: seq<Handle>, depthView: Handle, framebuffers: seq<Handle>): seq<Event> {
    [Created(SwapchainKind, swapChain)] + Creations(ImageViewKind, views) + [Created(DepthImageKind, depthView)]
    + Creations(FramebufferKind, framebuffers)
  }

  /** Appending the four creation blocks one after another appends BuildLog. */
  lemma AppendBuildLog(log: seq<Event>, swapChain: Handle, views: seq<Handle>, depthView: Handle, framebuffers: seq<Handle>)
    ensures log + [Created(SwapchainKind, swapChain)] + Creations(ImageViewKind, views) + [Created(DepthImageKind, depthView)]
            + Creations(FramebufferKind, framebuffers)
            == log + BuildLog(swapChain, views, depthView, framebuffers)
  {
  }

  /** The events of RecreateSwapChain. */
  function RebuildLog(
    oldFramebuffers: seq<Handle>, oldViews: seq<Handle>, oldSwapChain: Handle,
    swapChain: Handle, views: seq<Handle>, depthView: Handle, framebuffers: seq<Handle>): seq<Event>
  {
    [DeviceWaitIdle] + TeardownLog(oldFramebuffers, oldViews, oldSwapChain) + BuildLog(swapChain, views, depthView, framebuffers)
  }

  /** The wait, the teardown and the build, appended one after another, append RebuildLog. */
  lemma AppendRebuildLog(
    log: seq<Event>,
    oldFramebuffers: seq<Handle>, oldViews: seq<Handle>, oldSwapChain: Handle,
    swapChain: Handle, views: seq<Handle>, depthView: Handle, framebuffers: seq<Handle>)
    ensures log + [DeviceWaitIdle] + TeardownLog(oldFramebuffers, oldViews, oldSwapChain)
            + BuildLog(swapChain, views, depthView, framebuffers)
            == log + RebuildLog(oldFramebuffers, oldViews, oldSwapChain, swapChain, views, depthView, framebuffers)
  {
  }

  /** The wait and the teardown never go back a phase, and stop at the swapchain's destruction. */
  lemma TeardownPhaseOrdered(oldFramebuffers: seq<Handle>, oldViews: seq<Handle>, oldSwapChain: Handle)
    ensures PhaseOrdered([DeviceWaitIdle] + TeardownLog(oldFramebuffers, oldViews, oldSwapChain))
    ensures AllAtMostPhase([DeviceWaitIdle] + TeardownLog(oldFramebuffers, oldViews, oldSwapChain), 3)
  {
    var log: seq<Event> := [DeviceWaitIdle];
    AppendPhaseBlock([], log, 0);
    AppendPhaseBlock(log, Destructions(FramebufferKind, oldFramebuffers), 1);
    log := log + Destructions(FramebufferKind, oldFramebuffers);
    AppendPhaseBlock(log, Destructions(ImageViewKind, oldViews), 2);
    log := log + Destructions(ImageViewKind, oldViews);
    AppendPhaseBlock(log, [Destroyed(SwapchainKind, oldSwapChain)], 3);
    log := log + [Destroyed(SwapchainKind, oldSwapChain)];
    assert log == [DeviceWaitIdle] + TeardownLog(oldFramebuffers, oldViews, oldSwapChain);
  }

  /**
   * A rebuild never goes back a phase: the device is idle before anything is
   * destroyed, every framebuffer goes before any view, every view before the
   * swapchain, and creation runs swapchain, views, depth, framebuffers.
   */
  lemma RebuildLogPhaseOrdered(
    oldFramebuffers: seq<Handle>, oldViews: seq<Handle>, oldSwapChain: Handle,
    swapChain: Handle, views: seq<Handle>, depthView: Handle, framebuffers: seq<Handle>)
    ensures PhaseOrdered(RebuildLog(oldFramebuffers, oldViews, oldSwapChain, swapChain, views, depthView, framebuffers))
  {
    var log := [DeviceWaitIdle] + TeardownLog(oldFramebuffers, oldViews, oldSwapChain);
    TeardownPhaseOrdered(oldFramebuffers, oldViews, oldSwapChain);
    AppendPhaseBlock(log, [Created(SwapchainKind, swapChain)], 4);
    log := log + [Created(SwapchainKind, swapChain)];
    AppendPhaseBlock(log, Creations(ImageViewKind, views), 5);
    log := log + Creations(ImageViewKind, views);
    AppendPhaseBlock(log, [Created(DepthImageKind, depthView)], 6);
    log := log + [Created(DepthImageKind, depthView)];
    AppendPhaseBlock(log, Creations(FramebufferKind, framebuffers), 7);
    log := log + Creations(FramebufferKind, framebuffers);
    assert log == RebuildLog(oldFramebuffers, oldViews, oldSwapChain, swapChain, views, depthView, framebuffers);
  }
}
