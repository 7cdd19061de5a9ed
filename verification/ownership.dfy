/**
 * The table of live Vulkan objects a renderer owns, as a value: which
 * handles are alive, of what kind, which other handles each references and,
 * for an image view, which image it views.
 *
 * Handles come from a counter, so the objects one creation loop makes are a
 * run of consecutive handles (HandleRange) and the table it adds is a
 * RangeTable. The predicates describe the shapes a swapchain generation
 * passes through while it is built (swapchain alone, views ready, complete)
 * and torn down; the lemmas say how each creation or teardown step moves
 * from one shape to the next and that every step keeps the table well
 * formed: no live object references an object that is not alive.
 */
module Ownership {
  import opened VkTypes
  import opened ResourceLog

  /** A live Vulkan object: its kind, the objects it references, and (for an image view) its image. */
  datatype Resource = Resource(kind: ResourceKind, refs: seq<Handle>, image: Handle)

  type Objects = map<Handle, Resource>

  const SWAPCHAIN_RESOURCE: Resource := Resource(SwapchainKind, [], NULL_HANDLE)
  const DEPTH_RESOURCE: Resource := Resource(DepthImageKind, [], NULL_HANDLE)
  const SLOT_RESOURCE: Resource := Resource(OtherKind, [], NULL_HANDLE)

  function HandleSet(hs: seq<Handle>): (handles: set<Handle>)
    ensures forall h :: h in handles <==> h in hs
  {
    set h | h in hs
  }

  /** Positions `i` and `j` of `s` hold different handles. */
  ghost predicate Apart(s: seq<Handle>, i: int, j: int)
    requires 0 <= i < |s| && 0 <= j < |s|
  {
    s[i] != s[j]
  }

  /** No handle occurs twice in `s`. */
  ghost predicate Distinct(s: seq<Handle>) {
    forall i, j :: 0 <= i < j < |s| ==> Apart(s, i, j)
  }

  /** The handles the counter hands out for `n` creations starting at `start`. */
  function HandleRange(start: Handle, n: nat): (hs: seq<Handle>)
    ensures |hs| == n
    ensures forall i :: 0 <= i < n ==> hs[i] == start + i
  {
    seq(n, i requires 0 <= i < n => start + i)
  }

  /** Handle `h` is one of the `n` handles issued from `start` on. */
  predicate InRange(h: Handle, start: Handle, n: nat) {
    start <= h < start + n
  }

  /** The objects `rs` created one after another from handle `start` on. */
  function RangeTable(start: Handle, rs: seq<Resource>): (table: Objects)
    ensures forall h :: h in table <==> InRange(h, start, |rs|)
    ensures forall i :: 0 <= i < |rs| ==> start + i in table && table[start + i] == rs[i]
  {
    map h | start <= h < start + |rs| && InRange(h, start, |rs|) :: rs[h - start]
  }

  /** One more creation extends the issued run by the handle the counter hands out next. */
  lemma HandleRangeSnoc(start: Handle, n: nat, h: Handle)
    requires h == start + n
    ensures HandleRange(start, n + 1) == HandleRange(start, n) + [h]
  {
    var longer := HandleRange(start, n + 1);
    var extended := HandleRange(start, n) + [h];
    assert forall i :: 0 <= i < n + 1 ==> longer[i] == extended[i];
  }

  /** One more creation extends the table by one entry, under the handle the counter hands out next. */
  lemma RangeTableSnoc(owned: Objects, start: Handle, rs: seq<Resource>, r: Resource, at: Handle)
    requires at == start + |rs|
    ensures owned + RangeTable(start, rs + [r]) == (owned + RangeTable(start, rs))[at := r]
  {
    var ext := rs + [r];
    assert forall i :: 0 <= i < |rs| ==> ext[i] == rs[i];
    assert ext[|rs|] == r;
  }

  /** One more per-slot creation: the issued run and the table each grow by the new handle. */
  lemma SlotAllocated(before: Objects, start: Handle, n: nat, h: Handle)
    requires h == start + n
    ensures HandleRange(start, n + 1) == HandleRange(start, n) + [h]
    ensures before + RangeTable(start, SlotResources(n + 1)) == (before + RangeTable(start, SlotResources(n)))[h := SLOT_RESOURCE]
  {
    HandleRangeSnoc(start, n, h);
    RangeTableSnoc(before, start, SlotResources(n), SLOT_RESOURCE, h);
    assert SlotResources(n) + [SLOT_RESOURCE] == SlotResources(n + 1);
  }

  /** The live objects of one kind. */
  function OfKind(owned: Objects, kind: ResourceKind): (hs: set<Handle>)
    ensures forall h {:trigger h in hs} :: h in hs <==> h in owned && owned[h].kind == kind
  {
    set h | h in owned && owned[h].kind == kind
  }

  /** The kinds that make up a swapchain generation and are rebuilt with it. */
  predicate IsSwapchainObject(kind: ResourceKind) {
    kind == SwapchainKind || kind == ImageViewKind || kind == FramebufferKind
  }

  /**
   * Every live handle was issued by the counter and is not the null handle,
   * and an object references only live objects of kinds it may reference.
   */
  ghost predicate WellFormed(owned: Objects, nextHandle: Handle) {
    && 0 < nextHandle
    && (forall h :: h in owned ==> NULL_HANDLE < h < nextHandle)
    && (forall x, y {:trigger y in owned[x].refs} :: x in owned && y in owned[x].refs ==>
          y in owned && MayReference(owned[x].kind, owned[y].kind))
  }

  ghost predicate Unreferenced(owned: Objects, h: Handle) {
    forall x :: x in owned ==> h !in owned[x].refs
  }

  ghost predicate NoneReferenced(owned: Objects, hs: seq<Handle>) {
    forall x, h :: x in owned && h in hs ==> h !in owned[x].refs
  }

  /** Objects outside the swapchain generation are untouched from `before` to `after`. */
  ghost predicate KeepsOtherObjects(before: Objects, after: Objects) {
    forall h :: h in before && !IsSwapchainObject(before[h].kind) ==> h in after && after[h] == before[h]
  }

  lemma KeepsOtherObjectsTransitive(a: Objects, b: Objects, c: Objects)
    requires KeepsOtherObjects(a, b) && KeepsOtherObjects(b, c)
    ensures KeepsOtherObjects(a, c)
  {
  }

  /**
   * `after` is `before` plus the objects `rs`, created one after another
   * from handle `start` on; every object of `before` is kept as it was.
   */
  ghost predicate Extends(before: Objects, after: Objects, start: Handle, rs: seq<Resource>) {
    && (forall h :: h in after <==> h in before || InRange(h, start, |rs|))
    && (forall h :: h in before ==> after[h] == before[h])
    && (forall i :: 0 <= i < |rs| ==> start + i in after && after[start + i] == rs[i])
  }

  /** Adding a RangeTable of handles above every live one extends the table. */
  lemma TableExtends(before: Objects, start: Handle, rs: seq<Resource>)
    requires forall h :: h in before ==> h < start
    ensures Extends(before, before + RangeTable(start, rs), start, rs)
  {
  }

  /** Adding one object under a handle above every live one extends the table. */
  lemma UpdateExtends(before: Objects, start: Handle, r: Resource)
    requires forall h :: h in before ==> h < start
    ensures Extends(before, before[start := r], start, [r])
  {
  }

  /**
   * Creating objects from the counter keeps the table well formed when each
   * new object references only objects alive before it, of kinds it may
   * reference, and keeps every object outside the generation.
   */
  lemma CreatedWellFormed(before: Objects, after: Objects, start: Handle, rs: seq<Resource>, next: Handle)
    requires WellFormed(before, start)
    requires Extends(before, after, start, rs) && next == start + |rs|
    requires forall i, y {:trigger y in rs[i].refs} :: 0 <= i < |rs| && y in rs[i].refs ==>
               y in before && MayReference(rs[i].kind, before[y].kind)
    ensures WellFormed(after, next)
    ensures KeepsOtherObjects(before, after)
  {
    forall x, y | x in after && y in after[x].refs
      ensures y in after && MayReference(after[x].kind, after[y].kind)
    {
      if x !in before {
        assert after[x] == rs[x - start];
      }
    }
  }

  // ---------------------------------------------------------------- generation shapes

  ghost predicate NoSwapchainObjects(owned: Objects) {
    forall h :: h in owned ==> !IsSwapchainObject(owned[h].kind)
  }

  /** The swapchain is alive and is the only swapchain-generation object alive. */
  ghost predicate SwapchainAlone(owned: Objects, swapChain: Handle) {
    && swapChain in owned && owned[swapChain] == SWAPCHAIN_RESOURCE
    && forall h :: h in owned && IsSwapchainObject(owned[h].kind) ==> h == swapChain
  }

  /** What CreateImageViews creates: view i over image i of the swapchain. */
  function ViewResources(swapChain: Handle, images: seq<Handle>): (rs: seq<Resource>)
    ensures |rs| == |images|
    ensures forall i :: 0 <= i < |images| ==> rs[i] == Resource(ImageViewKind, [swapChain], images[i])
  {
    seq(|images|, i requires 0 <= i < |images| => Resource(ImageViewKind, [swapChain], images[i]))
  }

  /** What CreateFramebuffers creates: framebuffer i attaches view i and the depth view. */
  function FramebufferResources(views: seq<Handle>, depthView: Handle): (rs: seq<Resource>)
    ensures |rs| == |views|
    ensures forall i :: 0 <= i < |views| ==> rs[i] == Resource(FramebufferKind, [views[i], depthView], NULL_HANDLE)
  {
    seq(|views|, i requires 0 <= i < |views| => Resource(FramebufferKind, [views[i], depthView], NULL_HANDLE))
  }

  /** What a per-slot creation makes: `n` plain objects with no references. */
  function SlotResources(n: nat): (rs: seq<Resource>)
    ensures |rs| == n
    ensures forall i :: 0 <= i < n ==> rs[i] == SLOT_RESOURCE
  {
    seq(n, _ => SLOT_RESOURCE)
  }

  /** The swapchain and one view per image are alive, and no other generation object is. */
  ghost predicate ViewsReady(owned: Objects, swapChain: Handle, images: seq<Handle>, views: seq<Handle>) {
    && swapChain in owned && owned[swapChain] == SWAPCHAIN_RESOURCE
    && |views| == |images|
    && Distinct(views)
    && (forall i :: 0 <= i < |views| ==>
          views[i] in owned && owned[views[i]] == Resource(ImageViewKind, [swapChain], images[i]))
    && forall h :: h in owned && IsSwapchainObject(owned[h].kind) ==> h == swapChain || h in views
  }

  /**
   * The alive generation objects are exactly the swapchain, the views and
   * the framebuffers, each of its kind.
   */
  ghost predicate GenerationOwned(owned: Objects, swapChain: Handle, views: seq<Handle>, framebuffers: seq<Handle>) {
    && swapChain in owned
    && Distinct(views)
    && Distinct(framebuffers)
    && (forall i :: 0 <= i < |views| ==> views[i] in owned)
    && (forall i :: 0 <= i < |framebuffers| ==> framebuffers[i] in owned)
    && OfKind(owned, SwapchainKind) == {swapChain}
    && OfKind(owned, ImageViewKind) == HandleSet(views)
    && OfKind(owned, FramebufferKind) == HandleSet(framebuffers)
  }

  /** Each object a generation lists is alive and of the kind its list says. */
  lemma GenerationKinds(owned: Objects, swapChain: Handle, views: seq<Handle>, framebuffers: seq<Handle>)
    requires GenerationOwned(owned, swapChain, views, framebuffers)
    ensures owned[swapChain].kind == SwapchainKind
    ensures forall i :: 0 <= i < |views| ==> views[i] in owned && owned[views[i]].kind == ImageViewKind
    ensures forall i :: 0 <= i < |framebuffers| ==>
              framebuffers[i] in owned && owned[framebuffers[i]].kind == FramebufferKind
  {
    assert swapChain in OfKind(owned, SwapchainKind);
    forall i | 0 <= i < |views|
      ensures owned[views[i]].kind == ImageViewKind
    {
      assert views[i] in HandleSet(views);
      assert views[i] in OfKind(owned, ImageViewKind);
    }
    forall i | 0 <= i < |framebuffers|
      ensures owned[framebuffers[i]].kind == FramebufferKind
    {
      assert framebuffers[i] in HandleSet(framebuffers);
      assert framebuffers[i] in OfKind(owned, FramebufferKind);
    }
  }

  /**
   * A complete generation: one view per swapchain image, view i over image
   * i; one framebuffer per view, framebuffer i attaching view i and the
   * depth view, which is alive.
   */
  ghost predicate SwapchainBuilt(
    owned: Objects, swapChain: Handle, images: seq<Handle>, views: seq<Handle>, depthView: Handle, framebuffers: seq<Handle>)
  {
    && GenerationOwned(owned, swapChain, views, framebuffers)
    && owned[swapChain] == SWAPCHAIN_RESOURCE
    && depthView in owned && owned[depthView].kind == DepthImageKind
    && |views| == |images|
    && |framebuffers| == |views|
    && (forall i :: 0 <= i < |views| ==> owned[views[i]] == Resource(ImageViewKind, [swapChain], images[i]))
    && (forall i :: 0 <= i < |framebuffers| ==>
          owned[framebuffers[i]] == Resource(FramebufferKind, [views[i], depthView], NULL_HANDLE))
  }

  // ---------------------------------------------------------------- creation steps
  //
  // Each step names the handle its objects start from and the counter after
  // it as separate parameters, related by plain integer requires.

  /** CreateSwapChain's step: the new swapchain is the only generation object. */
  lemma SwapchainCreated(before: Objects, start: Handle, next: Handle, after: Objects)
    requires WellFormed(before, start) && NoSwapchainObjects(before)
    requires Extends(before, after, start, [SWAPCHAIN_RESOURCE]) && next == start + 1
    ensures WellFormed(after, next)
    ensures SwapchainAlone(after, start)
    ensures KeepsOtherObjects(before, after)
  {
    CreatedWellFormed(before, after, start, [SWAPCHAIN_RESOURCE], next);
    assert after[start + 0] == [SWAPCHAIN_RESOURCE][0];
  }

  /** CreateImageViews' step: one view per image next to the lone swapchain. */
  lemma ViewsCreated(
    before: Objects, start: Handle, swapChain: Handle, images: seq<Handle>, next: Handle, after: Objects)
    requires WellFormed(before, start) && SwapchainAlone(before, swapChain)
    requires Extends(before, after, start, ViewResources(swapChain, images)) && next == start + |images|
    ensures WellFormed(after, next)
    ensures ViewsReady(after, swapChain, images, HandleRange(start, |images|))
    ensures KeepsOtherObjects(before, after)
  {
    CreatedWellFormed(before, after, start, ViewResources(swapChain, images), next);
    var views := HandleRange(start, |images|);
    forall h | h in after && IsSwapchainObject(after[h].kind)
      ensures h == swapChain || h in views
    {
      if h !in before {
        assert h == views[h - start];
      }
    }
  }

  /**
   * Creating objects outside the generation that reference nothing (the
   * depth view, uniform buffers, descriptor sets, command buffers, sync
   * objects) keeps the views ready and every other object.
   */
  lemma PlainCreatedKeepViews(
    before: Objects, start: Handle, rs: seq<Resource>, next: Handle,
    swapChain: Handle, images: seq<Handle>, views: seq<Handle>, after: Objects)
    requires WellFormed(before, start) && ViewsReady(before, swapChain, images, views)
    requires forall i :: 0 <= i < |rs| ==> rs[i].refs == [] && !IsSwapchainObject(rs[i].kind)
    requires Extends(before, after, start, rs) && next == start + |rs|
    ensures WellFormed(after, next)
    ensures ViewsReady(after, swapChain, images, views)
    ensures KeepsOtherObjects(before, after)
  {
    CreatedWellFormed(before, after, start, rs, next);
    forall h | h in after && h !in before
      ensures !IsSwapchainObject(after[h].kind)
    {
      assert after[h] == rs[h - start];
    }
  }

  /** CreateFramebuffers' step, for the table: well formed, and nothing outside the generation touched. */
  lemma FramebuffersCreatedWellFormed(
    before: Objects, start: Handle, swapChain: Handle, images: seq<Handle>, views: seq<Handle>,
    depthView: Handle, next: Handle, after: Objects)
    requires WellFormed(before, start) && ViewsReady(before, swapChain, images, views)
    requires depthView in before && before[depthView].kind == DepthImageKind
    requires Extends(before, after, start, FramebufferResources(views, depthView)) && next == start + |views|
    ensures WellFormed(after, next)
    ensures KeepsOtherObjects(before, after)
  {
    var rs := FramebufferResources(views, depthView);
    forall i, y | 0 <= i < |rs| && y in rs[i].refs
      ensures y in before && MayReference(rs[i].kind, before[y].kind)
    {
      assert y == views[i] || y == depthView;
    }
    CreatedWellFormed(before, after, start, rs, next);
  }

  /** The objects CreateFramebuffers adds are framebuffers, exactly under the handles it issued. */
  lemma NewFramebuffers(
    before: Objects, start: Handle, views: seq<Handle>, depthView: Handle, after: Objects)
    requires Extends(before, after, start, FramebufferResources(views, depthView))
    ensures forall h :: h in after && h !in before ==>
              after[h].kind == FramebufferKind && h in HandleRange(start, |views|)
    ensures forall i :: 0 <= i < |views| ==>
              HandleRange(start, |views|)[i] in after && after[HandleRange(start, |views|)[i]].kind == FramebufferKind
  {
    var rs := FramebufferResources(views, depthView);
    var framebuffers := HandleRange(start, |views|);
    forall h | h in after && h !in before
      ensures after[h].kind == FramebufferKind && h in framebuffers
    {
      assert h == framebuffers[h - start] && after[h] == rs[h - start];
    }
    forall i | 0 <= i < |framebuffers|
      ensures framebuffers[i] in after && after[framebuffers[i]].kind == FramebufferKind
    {
      assert after[start + i] == rs[i];
    }
  }

  /** CreateFramebuffers' step, for the generation: the new framebuffers are the only ones alive. */
  lemma FramebuffersCreated(
    before: Objects, start: Handle, swapChain: Handle, images: seq<Handle>, views: seq<Handle>,
    depthView: Handle, after: Objects)
    requires WellFormed(before, start) && ViewsReady(before, swapChain, images, views)
    requires Extends(before, after, start, FramebufferResources(views, depthView))
    ensures GenerationOwned(after, swapChain, views, HandleRange(start, |views|))
  {
    NewFramebuffers(before, start, views, depthView, after);
  }

  /** CreateFramebuffers' step, for the attachments: framebuffer i attaches view i and the depth view. */
  lemma FramebuffersAttached(
    before: Objects, start: Handle, swapChain: Handle, images: seq<Handle>, views: seq<Handle>,
    depthView: Handle, after: Objects)
    requires WellFormed(before, start) && ViewsReady(before, swapChain, images, views)
    requires depthView in before && before[depthView].kind == DepthImageKind
    requires Extends(before, after, start, FramebufferResources(views, depthView))
    requires GenerationOwned(after, swapChain, views, HandleRange(start, |views|))
    ensures SwapchainBuilt(after, swapChain, images, views, depthView, HandleRange(start, |views|))
  {
    var rs := FramebufferResources(views, depthView);
    var framebuffers := HandleRange(start, |views|);
    forall i | 0 <= i < |framebuffers|
      ensures after[framebuffers[i]] == Resource(FramebufferKind, [views[i], depthView], NULL_HANDLE)
    {
      assert after[start + i] == rs[i];
    }
  }

  /** CreateSwapChain then CreateImageViews, from a table with no generation objects. */
  lemma SwapchainAndViewsCreated(
    cleared: Objects, start: Handle, images: seq<Handle>, viewsStart: Handle, depthView: Handle,
    withSwapchain: Objects, withViews: Objects)
    requires WellFormed(cleared, start) && NoSwapchainObjects(cleared)
    requires viewsStart == start + 1 && depthView == viewsStart + |images|
    requires withSwapchain == cleared[start := SWAPCHAIN_RESOURCE]
    requires withViews == withSwapchain + RangeTable(viewsStart, ViewResources(start, images))
    ensures WellFormed(withViews, depthView)
    ensures ViewsReady(withViews, start, images, HandleRange(viewsStart, |images|))
    ensures KeepsOtherObjects(cleared, withViews)
  {
    UpdateExtends(cleared, start, SWAPCHAIN_RESOURCE);
    SwapchainCreated(cleared, start, viewsStart, withSwapchain);
    TableExtends(withSwapchain, viewsStart, ViewResources(start, images));
    ViewsCreated(withSwapchain, viewsStart, start, images, depthView, withViews);
    KeepsOtherObjectsTransitive(cleared, withSwapchain, withViews);
  }

  /** CreateDepthResources then CreateFramebuffers, once the views are ready. */
  lemma DepthAndFramebuffersCreated(
    withViews: Objects, depthView: Handle, framebuffersStart: Handle, next: Handle,
    swapChain: Handle, images: seq<Handle>, views: seq<Handle>, withDepth: Objects, built: Objects)
    requires WellFormed(withViews, depthView) && ViewsReady(withViews, swapChain, images, views)
    requires framebuffersStart == depthView + 1 && next == framebuffersStart + |views|
    requires withDepth == withViews[depthView := DEPTH_RESOURCE]
    requires built == withDepth + RangeTable(framebuffersStart, FramebufferResources(views, depthView))
    ensures WellFormed(built, next)
    ensures SwapchainBuilt(built, swapChain, images, views, depthView, HandleRange(framebuffersStart, |views|))
    ensures KeepsOtherObjects(withViews, built)
  {
    UpdateExtends(withViews, depthView, DEPTH_RESOURCE);
    PlainCreatedKeepViews(withViews, depthView, [DEPTH_RESOURCE], framebuffersStart, swapChain, images, views, withDepth);
    assert withDepth[depthView].kind == DepthImageKind;
    TableExtends(withDepth, framebuffersStart, FramebufferResources(views, depthView));
    FramebuffersCreatedWellFormed(withDepth, framebuffersStart, swapChain, images, views, depthView, next, built);
    FramebuffersCreated(withDepth, framebuffersStart, swapChain, images, views, depthView, built);
    FramebuffersAttached(withDepth, framebuffersStart, swapChain, images, views, depthView, built);
    KeepsOtherObjectsTransitive(withViews, withDepth, built);
  }

  /**
   * The four creation steps of a rebuild, one after another from handle
   * `start`, take a table with no generation objects to a complete
   * generation (swapchain `start`, views from `viewsStart`, then the depth
   * view, then the framebuffers) and keep every other object.
   */
  lemma GenerationCreated(
    cleared: Objects, start: Handle, images: seq<Handle>,
    viewsStart: Handle, depthView: Handle, framebuffersStart: Handle, next: Handle,
    withSwapchain: Objects, withViews: Objects, withDepth: Objects, built: Objects)
    requires WellFormed(cleared, start) && NoSwapchainObjects(cleared)
    requires viewsStart == start + 1 && depthView == viewsStart + |images|
    requires framebuffersStart == depthView + 1 && next == framebuffersStart + |images|
    requires withSwapchain == cleared[start := SWAPCHAIN_RESOURCE]
    requires withViews == withSwapchain + RangeTable(viewsStart, ViewResources(start, images))
    requires withDepth == withViews[depthView := DEPTH_RESOURCE]
    requires built == withDepth + RangeTable(framebuffersStart,
                                             FramebufferResources(HandleRange(viewsStart, |images|), depthView))
    ensures WellFormed(built, next)
    ensures SwapchainBuilt(built, start, images, HandleRange(viewsStart, |images|), depthView,
                           HandleRange(framebuffersStart, |images|))
    ensures KeepsOtherObjects(cleared, built)
  {
    var views := HandleRange(viewsStart, |images|);
    assert |views| == |images|;
    SwapchainAndViewsCreated(cleared, start, images, viewsStart, depthView, withSwapchain, withViews);
    DepthAndFramebuffersCreated(withViews, depthView, framebuffersStart, next, start, images, views, withDepth, built);
    KeepsOtherObjectsTransitive(cleared, withViews, built);
  }

  // ---------------------------------------------------------------- teardown

  /**
   * In a well-formed table holding a generation, CleanUpSwapChain's three
   * release phases are each allowed: nothing alive references a framebuffer;
   * once they are gone nothing references a view; once those are gone
   * nothing references the swapchain.
   */
  lemma TeardownReleasable(owned: Objects, nextHandle: Handle, swapChain: Handle, views: seq<Handle>, framebuffers: seq<Handle>)
    requires WellFormed(owned, nextHandle)
    requires GenerationOwned(owned, swapChain, views, framebuffers)
    ensures NoneReferenced(owned, framebuffers)
    ensures forall i :: 0 <= i < |framebuffers| ==>
              framebuffers[i] in owned && owned[framebuffers[i]].kind == FramebufferKind
    ensures forall i :: 0 <= i < |views| ==>
              views[i] in owned - HandleSet(framebuffers) && (owned - HandleSet(framebuffers))[views[i]].kind == ImageViewKind
    ensures NoneReferenced(owned - HandleSet(framebuffers), views)
    ensures swapChain in owned - HandleSet(framebuffers) - HandleSet(views)
    ensures (owned - HandleSet(framebuffers) - HandleSet(views))[swapChain].kind == SwapchainKind
    ensures Unreferenced(owned - HandleSet(framebuffers) - HandleSet(views), swapChain)
  {
    GenerationKinds(owned, swapChain, views, framebuffers);
    var noFramebuffers := owned - HandleSet(framebuffers);
    var noViews := noFramebuffers - HandleSet(views);
    forall x, h | x in noFramebuffers && h in views
      ensures h !in noFramebuffers[x].refs
    {
    }
    forall x | x in noViews
      ensures swapChain !in noViews[x].refs
    {
    }
  }

  /**
   * Removing a generation's framebuffers, views and swapchain from a
   * well-formed table leaves it well formed, with no generation object
   * alive and every other object as it was.
   */
  lemma TeardownClearsGeneration(owned: Objects, nextHandle: Handle, swapChain: Handle, views: seq<Handle>, framebuffers: seq<Handle>)
    requires WellFormed(owned, nextHandle)
    requires GenerationOwned(owned, swapChain, views, framebuffers)
    ensures WellFormed(owned - HandleSet(framebuffers) - HandleSet(views) - {swapChain}, nextHandle)
    ensures NoSwapchainObjects(owned - HandleSet(framebuffers) - HandleSet(views) - {swapChain})
    ensures KeepsOtherObjects(owned, owned - HandleSet(framebuffers) - HandleSet(views) - {swapChain})
  {
    var cleared := owned - HandleSet(framebuffers) - HandleSet(views) - {swapChain};
    forall x, y | x in owned && y in owned[x].refs
      ensures IsSwapchainObject(owned[x].kind)
    {
    }
  }

  /**
   * Creating objects that reference nothing, outside the generation, after a
   * generation is complete (command buffers, sync objects) keeps it complete.
   */
  lemma PlainCreatedKeepBuilt(
    before: Objects, start: Handle, rs: seq<Resource>, next: Handle,
    swapChain: Handle, images: seq<Handle>, views: seq<Handle>, depthView: Handle, framebuffers: seq<Handle>,
    after: Objects)
    requires WellFormed(before, start)
    requires SwapchainBuilt(before, swapChain, images, views, depthView, framebuffers)
    requires forall i :: 0 <= i < |rs| ==> rs[i].refs == [] && !IsSwapchainObject(rs[i].kind)
    requires Extends(before, after, start, rs) && next == start + |rs|
    ensures WellFormed(after, next)
    ensures SwapchainBuilt(after, swapChain, images, views, depthView, framebuffers)
    ensures KeepsOtherObjects(before, after)
  {
    CreatedWellFormed(before, after, start, rs, next);
    forall h | h in after && h !in before
      ensures !IsSwapchainObject(after[h].kind)
    {
      assert after[h] == rs[h - start];
    }
  }

  // ---------------------------------------------------------------- frame slots

  /** Per-slot objects: MAX_FRAMES_IN_FLIGHT of them, alive, distinct, outside the generation. */
  ghost predicate SlotHandlesValid(owned: Objects, hs: seq<Handle>) {
    && |hs| == MAX_FRAMES_IN_FLIGHT
    && Distinct(hs)
    && forall s :: 0 <= s < |hs| ==> hs[s] in owned && owned[hs[s]] == SLOT_RESOURCE
  }

  /** A slot loop's objects, one per slot from `start` on, are valid slot handles. */
  lemma SlotsCreated(before: Objects, start: Handle, after: Objects)
    requires Extends(before, after, start, SlotResources(MAX_FRAMES_IN_FLIGHT))
    ensures SlotHandlesValid(after, HandleRange(start, MAX_FRAMES_IN_FLIGHT))
  {
    var hs := HandleRange(start, MAX_FRAMES_IN_FLIGHT);
    forall s | 0 <= s < MAX_FRAMES_IN_FLIGHT
      ensures hs[s] in after && after[hs[s]] == SLOT_RESOURCE
    {
      assert after[start + s] == SlotResources(MAX_FRAMES_IN_FLIGHT)[s];
    }
  }

  /**
   * The handles CreateSyncObject issues for one kind: per slot it creates the
   * image-available semaphore, the render-finished semaphore and the
   * in-flight fence, so kind `offset` of slot i is handle start + 3i + offset.
   */
  function SyncHandles(start: Handle, offset: nat): (hs: seq<Handle>)
    requires offset < 3
    ensures |hs| == MAX_FRAMES_IN_FLIGHT
    ensures forall s :: 0 <= s < MAX_FRAMES_IN_FLIGHT ==> hs[s] == start + 3 * s + offset
  {
    seq(MAX_FRAMES_IN_FLIGHT, s requires 0 <= s < MAX_FRAMES_IN_FLIGHT => start + 3 * s + offset)
  }

  /** The sync objects of every kind are valid slot handles, and the three kinds never share a handle. */
  lemma SyncObjectsCreated(before: Objects, start: Handle, after: Objects)
    requires Extends(before, after, start, SlotResources(3 * MAX_FRAMES_IN_FLIGHT))
    ensures SlotHandlesValid(after, SyncHandles(start, 0))
    ensures SlotHandlesValid(after, SyncHandles(start, 1))
    ensures SlotHandlesValid(after, SyncHandles(start, 2))
    ensures forall s, t, k, l ::
              0 <= s < MAX_FRAMES_IN_FLIGHT && 0 <= t < MAX_FRAMES_IN_FLIGHT && 0 <= k < l < 3 ==>
                SyncHandles(start, k)[s] != SyncHandles(start, l)[t]
  {
    var rs := SlotResources(3 * MAX_FRAMES_IN_FLIGHT);
    forall k, s | 0 <= k < 3 && 0 <= s < MAX_FRAMES_IN_FLIGHT
      ensures SyncHandles(start, k)[s] in after && after[SyncHandles(start, k)[s]] == SLOT_RESOURCE
    {
      assert after[start + (3 * s + k)] == rs[3 * s + k];
    }
  }

  /**
   * A slot loop run while the generation's views are ready (uniform buffers,
   * descriptor sets): its objects are valid slot handles, the views stay
   * ready and every earlier object is kept.
   */
  lemma SlotsCreatedKeepViews(
    before: Objects, start: Handle, after: Objects, swapChain: Handle, images: seq<Handle>, views: seq<Handle>)
    requires WellFormed(before, start) && ViewsReady(before, swapChain, images, views)
    requires after == before + RangeTable(start, SlotResources(MAX_FRAMES_IN_FLIGHT))
    ensures WellFormed(after, start + MAX_FRAMES_IN_FLIGHT)
    ensures ViewsReady(after, swapChain, images, views)
    ensures KeepsOtherObjects(before, after)
    ensures SlotHandlesValid(after, HandleRange(start, MAX_FRAMES_IN_FLIGHT))
  {
    var rs := SlotResources(MAX_FRAMES_IN_FLIGHT);
    TableExtends(before, start, rs);
    PlainCreatedKeepViews(before, start, rs, start + MAX_FRAMES_IN_FLIGHT, swapChain, images, views, after);
    SlotsCreated(before, start, after);
  }

  /**
   * A slot loop run once the generation is complete (command buffers): its
   * objects are valid slot handles, the generation stays complete and every
   * earlier object is kept.
   */
  lemma SlotsCreatedKeepBuilt(
    before: Objects, start: Handle, after: Objects,
    swapChain: Handle, images: seq<Handle>, views: seq<Handle>, depthView: Handle, framebuffers: seq<Handle>)
    requires WellFormed(before, start)
    requires SwapchainBuilt(before, swapChain, images, views, depthView, framebuffers)
    requires after == before + RangeTable(start, SlotResources(MAX_FRAMES_IN_FLIGHT))
    ensures WellFormed(after, start + MAX_FRAMES_IN_FLIGHT)
    ensures SwapchainBuilt(after, swapChain, images, views, depthView, framebuffers)
    ensures KeepsOtherObjects(before, after)
    ensures SlotHandlesValid(after, HandleRange(start, MAX_FRAMES_IN_FLIGHT))
  {
    var rs := SlotResources(MAX_FRAMES_IN_FLIGHT);
    TableExtends(before, start, rs);
    PlainCreatedKeepBuilt(before, start, rs, start + MAX_FRAMES_IN_FLIGHT, swapChain, images, views, depthView, framebuffers, after);
    SlotsCreated(before, start, after);
  }

  /**
   * CreateSyncObject's objects, three per slot, made once the generation is
   * complete and the other per-slot objects exist: the generation stays
   * complete, and every per-slot kind, the new ones interleaved in slot
   * order, is a valid set of slot handles.
   */
  lemma SyncCreatedAllAlive(
    before: Objects, start: Handle, after: Objects,
    swapChain: Handle, images: seq<Handle>, views: seq<Handle>, depthView: Handle, framebuffers: seq<Handle>,
    commandBuffers: seq<Handle>, uniformBuffers: seq<Handle>, descriptorSets: seq<Handle>)
    requires WellFormed(before, start)
    requires SwapchainBuilt(before, swapChain, images, views, depthView, framebuffers)
    requires SlotHandlesValid(before, commandBuffers) && SlotHandlesValid(before, uniformBuffers)
    requires SlotHandlesValid(before, descriptorSets)
    requires after == before + RangeTable(start, SlotResources(3 * MAX_FRAMES_IN_FLIGHT))
    ensures WellFormed(after, start + 3 * MAX_FRAMES_IN_FLIGHT)
    ensures SwapchainBuilt(after, swapChain, images, views, depthView, framebuffers)
    ensures SlotObjectsAlive(after, commandBuffers, uniformBuffers, descriptorSets,
                             SyncHandles(start, 2), SyncHandles(start, 0), SyncHandles(start, 1))
  {
    var rs := SlotResources(3 * MAX_FRAMES_IN_FLIGHT);
    TableExtends(before, start, rs);
    PlainCreatedKeepBuilt(before, start, rs, start + 3 * MAX_FRAMES_IN_FLIGHT, swapChain, images, views, depthView, framebuffers, after);
    SyncObjectsCreated(before, start, after);
    SlotHandlesKept(before, after, commandBuffers);
    SlotHandlesKept(before, after, uniformBuffers);
    SlotHandlesKept(before, after, descriptorSets);
  }

  /** Slot objects survive anything that keeps the objects outside the generation. */
  lemma SlotHandlesKept(before: Objects, after: Objects, hs: seq<Handle>)
    requires SlotHandlesValid(before, hs)
    requires KeepsOtherObjects(before, after)
    ensures SlotHandlesValid(after, hs)
  {
  }

  /**
   * The per-slot objects: command buffers, uniform buffers, descriptor sets
   * and sync objects, MAX_FRAMES_IN_FLIGHT of each kind, all alive.
   */
  ghost predicate SlotObjectsAlive(
    owned: Objects, commandBuffers: seq<Handle>, uniformBuffers: seq<Handle>, descriptorSets: seq<Handle>,
    inFlightFences: seq<Handle>, imageAvailableSemaphores: seq<Handle>, renderFinishedSemaphores: seq<Handle>)
  {
    && SlotHandlesValid(owned, commandBuffers) && SlotHandlesValid(owned, uniformBuffers)
    && SlotHandlesValid(owned, descriptorSets) && SlotHandlesValid(owned, inFlightFences)
    && SlotHandlesValid(owned, imageAvailableSemaphores) && SlotHandlesValid(owned, renderFinishedSemaphores)
  }

  lemma SlotObjectsKept(
    before: Objects, after: Objects, commandBuffers: seq<Handle>, uniformBuffers: seq<Handle>, descriptorSets: seq<Handle>,
    inFlightFences: seq<Handle>, imageAvailableSemaphores: seq<Handle>, renderFinishedSemaphores: seq<Handle>)
    requires SlotObjectsAlive(before, commandBuffers, uniformBuffers, descriptorSets,
                              inFlightFences, imageAvailableSemaphores, renderFinishedSemaphores)
    requires KeepsOtherObjects(before, after)
    ensures SlotObjectsAlive(after, commandBuffers, uniformBuffers, descriptorSets,
                             inFlightFences, imageAvailableSemaphores, renderFinishedSemaphores)
  {
  }
}
