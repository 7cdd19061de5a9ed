/**
 * Swapchain parameter selection: the surface-format and present-mode
 * choosers (first candidate accepted by the active predicate, with a
 * fallback), the extent rule for the "undefined extent" sentinel, the image
 * count rule and the image sharing mode.
 */
module SwapchainPolicy {
  import opened VkTypes

  /** Index of the first element of `xs` that `p` accepts, if there is one. */
  function FirstMatch<T>(xs: seq<T>, p: T -> bool): (r: Option<nat>)
    ensures r.Some? ==> r.value < |xs|
    decreases |xs|
  {
    if |xs| == 0 then None
    else if p(xs[0]) then Some(0)
    else
      match FirstMatch(xs[1..], p)
      case None => None
      case Some(k) => Some(k + 1)
  }

  /**
   * FirstMatch finds an accepted element with none accepted before it, and
   * finds nothing exactly when no element is accepted.
   */
  lemma {:induction false} FirstMatchSpec<T>(xs: seq<T>, p: T -> bool)
    ensures FirstMatch(xs, p).Some? ==> p(xs[FirstMatch(xs, p).value])
    ensures FirstMatch(xs, p).Some? ==> forall j :: 0 <= j < FirstMatch(xs, p).value ==> !p(xs[j])
    ensures FirstMatch(xs, p).None? <==> forall j :: 0 <= j < |xs| ==> !p(xs[j])
    decreases |xs|
  {
    if |xs| > 0 && !p(xs[0]) {
      FirstMatchSpec(xs[1..], p);
      assert forall j :: 1 <= j < |xs| ==> xs[j] == xs[1..][j - 1];
    }
  }

  /** An index that `p` accepts with nothing accepted before it is what FirstMatch finds. */
  lemma FirstMatchAt<T>(xs: seq<T>, p: T -> bool, i: nat)
    requires i < |xs| && p(xs[i])
    requires forall j :: 0 <= j < i ==> !p(xs[j])
    ensures FirstMatch(xs, p) == Some(i)
  {
    FirstMatchSpec(xs, p);
  }

  /** FirstMatch depends only on what the predicate answers, not on how it is written. */
  lemma {:induction false} FirstMatchExtensional<T>(xs: seq<T>, p: T -> bool, q: T -> bool)
    requires forall x :: x in xs ==> p(x) == q(x)
    ensures FirstMatch(xs, p) == FirstMatch(xs, q)
    decreases |xs|
  {
    if |xs| > 0 && !p(xs[0]) {
      FirstMatchExtensional(xs[1..], p, q);
    }
  }

  // ---------------------------------------------------------------- surface format

  /** Built-in format preference: 8-bit RGBA sRGB in the sRGB non-linear colour space. */
  predicate DefaultSurfaceFormat(f: SurfaceFormat) {
    f.format == VK_FORMAT_R8G8B8A8_SRGB && f.colorSpace == VK_COLOR_SPACE_SRGB_NONLINEAR_KHR
  }

  /** The custom predicate when one is set, the built-in preference otherwise. */
  function ActiveFormatTest(checkSwapSurfaceFormatFunc: Option<SurfaceFormat -> bool>): SurfaceFormat -> bool {
    if checkSwapSurfaceFormatFunc.Some? then checkSwapSurfaceFormatFunc.value else DefaultSurfaceFormat
  }

  /** The format the chooser settles on: the first accepted one, else the first one offered. */
  function SelectedSurfaceFormat(formats: seq<SurfaceFormat>, checkSwapSurfaceFormatFunc: Option<SurfaceFormat -> bool>): (r: SurfaceFormat)
    requires |formats| > 0
    ensures r in formats
  {
    match FirstMatch(formats, ActiveFormatTest(checkSwapSurfaceFormatFunc))
    case Some(i) => formats[i]
    case None => formats[0]
  }

  /** An accepted format is chosen whenever one is offered; otherwise the first format offered. */
  lemma SelectedSurfaceFormatSpec(formats: seq<SurfaceFormat>, checkSwapSurfaceFormatFunc: Option<SurfaceFormat -> bool>)
    requires |formats| > 0
    ensures (exists i :: 0 <= i < |formats| && ActiveFormatTest(checkSwapSurfaceFormatFunc)(formats[i]))
            ==> ActiveFormatTest(checkSwapSurfaceFormatFunc)(SelectedSurfaceFormat(formats, checkSwapSurfaceFormatFunc))
    ensures (forall i :: 0 <= i < |formats| ==> !ActiveFormatTest(checkSwapSurfaceFormatFunc)(formats[i]))
            ==> SelectedSurfaceFormat(formats, checkSwapSurfaceFormatFunc) == formats[0]
  {
    FirstMatchSpec(formats, ActiveFormatTest(checkSwapSurfaceFormatFunc));
  }

  /**
   * ChooseSwapSurfaceFormat: scan the offered formats in order and return the
   * first one the active predicate accepts; with none accepted, return the
   * first format offered (indexing an empty list is undefined in the source,
   * hence the precondition).
   */
  method ChooseSwapSurfaceFormat(availableFormats: seq<SurfaceFormat>, checkSwapSurfaceFormatFunc: Option<SurfaceFormat -> bool>)
    returns (chosen: SurfaceFormat)
    requires |availableFormats| > 0
    ensures chosen == SelectedSurfaceFormat(availableFormats, checkSwapSurfaceFormatFunc)
  {
    ghost var accept := ActiveFormatTest(checkSwapSurfaceFormatFunc);
    var isAvailable := false;
    var i := 0;
    while i < |availableFormats|
      invariant 0 <= i <= |availableFormats|
      invariant !isAvailable
      invariant forall j :: 0 <= j < i ==> !accept(availableFormats[j])
    {
      var availableFormat := availableFormats[i];
      if checkSwapSurfaceFormatFunc.Some? {
        if checkSwapSurfaceFormatFunc.value(availableFormat) {
          isAvailable := true;
        }
      } else if availableFormat.format == VK_FORMAT_R8G8B8A8_SRGB
             && availableFormat.colorSpace == VK_COLOR_SPACE_SRGB_NONLINEAR_KHR {
        isAvailable := true;
      }
      if isAvailable {
        FirstMatchAt(availableFormats, accept, i);
        return availableFormat;
      }
      i := i + 1;
    }
    FirstMatchSpec(availableFormats, accept);
    return availableFormats[0];
  }

  // ---------------------------------------------------------------- present mode

  /** Built-in present-mode preference: MAILBOX. */
  predicate DefaultPresentMode(m: PresentMode) {
    m == VK_PRESENT_MODE_MAILBOX_KHR
  }

  function ActivePresentModeTest(checkSwapPresentModeFunc: Option<PresentMode -> bool>): PresentMode -> bool {
    if checkSwapPresentModeFunc.Some? then checkSwapPresentModeFunc.value else DefaultPresentMode
  }

  /** The mode the chooser settles on: the first accepted one, else FIFO (always supported). */
  function SelectedPresentMode(modes: seq<PresentMode>, checkSwapPresentModeFunc: Option<PresentMode -> bool>): (r: PresentMode)
    ensures r in modes || r == VK_PRESENT_MODE_FIFO_KHR
  {
    match FirstMatch(modes, ActivePresentModeTest(checkSwapPresentModeFunc))
    case Some(i) => modes[i]
    case None => VK_PRESENT_MODE_FIFO_KHR
  }

  /** An accepted mode is chosen whenever one is offered; otherwise FIFO. */
  lemma SelectedPresentModeSpec(modes: seq<PresentMode>, checkSwapPresentModeFunc: Option<PresentMode -> bool>)
    ensures (exists i :: 0 <= i < |modes| && ActivePresentModeTest(checkSwapPresentModeFunc)(modes[i]))
            ==> SelectedPresentMode(modes, checkSwapPresentModeFunc) in modes
                && ActivePresentModeTest(checkSwapPresentModeFunc)(SelectedPresentMode(modes, checkSwapPresentModeFunc))
    ensures (forall i :: 0 <= i < |modes| ==> !ActivePresentModeTest(checkSwapPresentModeFunc)(modes[i]))
            ==> SelectedPresentMode(modes, checkSwapPresentModeFunc) == VK_PRESENT_MODE_FIFO_KHR
  {
    FirstMatchSpec(modes, ActivePresentModeTest(checkSwapPresentModeFunc));
  }

  /** ChooseSwapPresentMode: first mode the active predicate accepts, else FIFO. */
  method ChooseSwapPresentMode(availablePresentModes: seq<PresentMode>, checkSwapPresentModeFunc: Option<PresentMode -> bool>)
    returns (chosen: PresentMode)
    ensures chosen == SelectedPresentMode(availablePresentModes, checkSwapPresentModeFunc)
  {
    ghost var accept := ActivePresentModeTest(checkSwapPresentModeFunc);
    var isAvailable := false;
    var i := 0;
    while i < |availablePresentModes|
      invariant 0 <= i <= |availablePresentModes|
      invariant !isAvailable
      invariant forall j :: 0 <= j < i ==> !accept(availablePresentModes[j])
    {
      var availablePresentMode := availablePresentModes[i];
      if checkSwapPresentModeFunc.Some? {
        if checkSwapPresentModeFunc.value(availablePresentMode) {
          isAvailable := true;
        }
      } else if availablePresentMode == VK_PRESENT_MODE_MAILBOX_KHR {
        isAvailable := true;
      }
      if isAvailable {
        FirstMatchAt(availablePresentModes, accept, i);
        return availablePresentMode;
      }
      i := i + 1;
    }
    FirstMatchSpec(availablePresentModes, accept);
    return VK_PRESENT_MODE_FIFO_KHR;
  }

  // ------------------------------------------- the application's example predicates

  /** The application's format predicate (CheckSwapSurfaceSupport). */
  predicate ExampleSurfaceFormatCheck(f: SurfaceFormat) {
    if f.format == VK_FORMAT_R8G8B8A8_SRGB && f.colorSpace == VK_COLOR_SPACE_SRGB_NONLINEAR_KHR then true else false
  }

  /** The application's present-mode predicate (CheckSwapPresentMode). */
  predicate ExamplePresentModeCheck(m: PresentMode) {
    if m == VK_PRESENT_MODE_MAILBOX_KHR then true else false
  }

  /** Supplying the application's predicates chooses exactly what the built-in defaults choose. */
  lemma ExamplePredicatesChooseAsDefaults(formats: seq<SurfaceFormat>, modes: seq<PresentMode>)
    requires |formats| > 0
    ensures SelectedSurfaceFormat(formats, Some(ExampleSurfaceFormatCheck)) == SelectedSurfaceFormat(formats, None)
    ensures SelectedPresentMode(modes, Some(ExamplePresentModeCheck)) == SelectedPresentMode(modes, None)
  {
    FirstMatchExtensional(formats, ActiveFormatTest(Some(ExampleSurfaceFormatCheck)), ActiveFormatTest(None));
    FirstMatchExtensional(modes, ActivePresentModeTest(Some(ExamplePresentModeCheck)), ActivePresentModeTest(None));
  }

  // ---------------------------------------------------------------- extent

  /** std::clamp(v, lo, hi) with ordered bounds: `v < lo ? lo : hi < v ? hi : v`. */
  function Clamp(v: u32, lo: u32, hi: u32): (r: u32)
    ensures lo <= hi ==> lo <= r <= hi
    ensures lo <= v <= hi ==> r == v
    ensures r == v || r == lo || r == hi
  {
    if v < lo then lo else if hi < v then hi else v
  }

  /** static_cast<uint32_t> of a C `int` (two's-complement wrap for negatives). */
  function ToU32(x: int): (r: u32)
    ensures 0 <= x < 0x1_0000_0000 ==> r == x
  {
    x % 0x1_0000_0000
  }

  /** The surface reports its size, or the sentinel meaning "the application decides". */
  predicate ExtentUndefined(capabilities: SurfaceCapabilities) {
    capabilities.currentExtent.width == UINT32_MAX
  }

  predicate ExtentBoundsOrdered(capabilities: SurfaceCapabilities) {
    capabilities.minImageExtent.width <= capabilities.maxImageExtent.width
    && capabilities.minImageExtent.height <= capabilities.maxImageExtent.height
  }

  predicate WithinExtentBounds(capabilities: SurfaceCapabilities, e: Extent2D) {
    capabilities.minImageExtent.width <= e.width <= capabilities.maxImageExtent.width
    && capabilities.minImageExtent.height <= e.height <= capabilities.maxImageExtent.height
  }

  /**
   * ChooseSwapExtent AS WRITTEN: a defined current extent is returned
   * unchanged; for the sentinel, the window's framebuffer size is clamped,
   * but the height is computed by clamping the already clamped WIDTH into the
   * height bounds.
   */
  function ChooseSwapExtent(capabilities: SurfaceCapabilities, framebufferWidth: int, framebufferHeight: int): (r: Extent2D)
    ensures !ExtentUndefined(capabilities) ==> r == capabilities.currentExtent
    ensures ExtentUndefined(capabilities) && ExtentBoundsOrdered(capabilities) ==> WithinExtentBounds(capabilities, r)
    ensures ExtentUndefined(capabilities) && 0 <= framebufferWidth
            && capabilities.minImageExtent.width <= framebufferWidth <= capabilities.maxImageExtent.width
            ==> r.width == framebufferWidth
    // the height follows the width, whatever the window height is
    ensures ExtentUndefined(capabilities) && capabilities.minImageExtent.height <= r.width <= capabilities.maxImageExtent.height
            ==> r.height == r.width
  {
    if capabilities.currentExtent.width != UINT32_MAX then
      capabilities.currentExtent
    else
      var width := Clamp(ToU32(framebufferWidth), capabilities.minImageExtent.width, capabilities.maxImageExtent.width);
      var height := Clamp(width, capabilities.minImageExtent.height, capabilities.maxImageExtent.height);
      Extent2D(width, height)
  }

  /** ChooseSwapExtent as evidently intended: each dimension clamped into its own bounds. */
  function ChooseSwapExtentIntended(capabilities: SurfaceCapabilities, framebufferWidth: int, framebufferHeight: int): (r: Extent2D)
    ensures !ExtentUndefined(capabilities) ==> r == capabilities.currentExtent
    ensures ExtentUndefined(capabilities) && ExtentBoundsOrdered(capabilities) ==> WithinExtentBounds(capabilities, r)
    ensures ExtentUndefined(capabilities)
            && capabilities.minImageExtent.width <= framebufferWidth <= capabilities.maxImageExtent.width
            && capabilities.minImageExtent.height <= framebufferHeight <= capabilities.maxImageExtent.height
            ==> r == Extent2D(framebufferWidth, framebufferHeight)
    // each dimension on its own: kept when in range, raised to the minimum, lowered to the maximum
    ensures ExtentUndefined(capabilities)
            && capabilities.minImageExtent.width <= framebufferWidth <= capabilities.maxImageExtent.width
            ==> r.width == framebufferWidth
    ensures ExtentUndefined(capabilities) && 0 <= framebufferWidth < capabilities.minImageExtent.width
            ==> r.width == capabilities.minImageExtent.width
    ensures ExtentUndefined(capabilities)
            && capabilities.minImageExtent.width <= capabilities.maxImageExtent.width < framebufferWidth < 0x1_0000_0000
            ==> r.width == capabilities.maxImageExtent.width
    ensures ExtentUndefined(capabilities)
            && capabilities.minImageExtent.height <= framebufferHeight <= capabilities.maxImageExtent.height
            ==> r.height == framebufferHeight
    ensures ExtentUndefined(capabilities) && 0 <= framebufferHeight < capabilities.minImageExtent.height
            ==> r.height == capabilities.minImageExtent.height
    ensures ExtentUndefined(capabilities)
            && capabilities.minImageExtent.height <= capabilities.maxImageExtent.height < framebufferHeight < 0x1_0000_0000
            ==> r.height == capabilities.maxImageExtent.height
  {
    if capabilities.currentExtent.width != UINT32_MAX then
      capabilities.currentExtent
    else
      Extent2D(
        Clamp(ToU32(framebufferWidth), capabilities.minImageExtent.width, capabilities.maxImageExtent.width),
        Clamp(ToU32(framebufferHeight), capabilities.minImageExtent.height, capabilities.maxImageExtent.height))
  }

  /**
   * The defect: for any window whose size fits the surface bounds but is not
   * square, the extent as written disagrees with the window's height while
   * the intended rule reproduces the window size.
   */
  lemma ExtentHeightDefect(capabilities: SurfaceCapabilities, width: u32, height: u32)
    requires ExtentUndefined(capabilities)
    requires WithinExtentBounds(capabilities, Extent2D(width, height))
    requires capabilities.minImageExtent.height <= width <= capabilities.maxImageExtent.height
    requires width != height
    ensures ChooseSwapExtent(capabilities, width, height).height != height
    ensures ChooseSwapExtentIntended(capabilities, width, height) == Extent2D(width, height)
  {
  }

  /** The application's 800x600 window on a surface that leaves the extent to it. */
  lemma ExtentHeightDefectExample()
    ensures var caps := SurfaceCapabilities(2, 0, Extent2D(UINT32_MAX, UINT32_MAX), Extent2D(1, 1), Extent2D(4096, 4096));
            ChooseSwapExtent(caps, 800, 600) == Extent2D(800, 800)
            && ChooseSwapExtentIntended(caps, 800, 600) == Extent2D(800, 600)
  {
  }

  // ---------------------------------------------------------------- image count

  /**
   * CreateSwapChain's image count: one more than the minimum (in uint32_t
   * arithmetic), lowered to the maximum when a maximum exists (non-zero) and
   * is exceeded.
   */
  function ImageCount(capabilities: SurfaceCapabilities): (r: u32)
    ensures capabilities.maxImageCount > 0 ==> r <= capabilities.maxImageCount
    ensures capabilities.minImageCount < UINT32_MAX
            && (capabilities.maxImageCount == 0 || capabilities.maxImageCount >= capabilities.minImageCount)
            ==> r >= capabilities.minImageCount
    ensures capabilities.minImageCount < UINT32_MAX
            && (capabilities.maxImageCount == 0 || capabilities.maxImageCount > capabilities.minImageCount)
            ==> r == capabilities.minImageCount + 1
    // minImageCount + 1 wraps to 0 in uint32_t
    ensures capabilities.minImageCount == UINT32_MAX ==> r == 0
  {
    var imageCount: u32 := (capabilities.minImageCount + 1) % 0x1_0000_0000;
    if capabilities.maxImageCount > 0 && imageCount > capabilities.maxImageCount then
      capabilities.maxImageCount
    else
      imageCount
  }

  // ---------------------------------------------------------------- sharing mode

  datatype SharingMode = SharingModeExclusive | SharingModeConcurrent

  datatype ImageSharing = ImageSharing(mode: SharingMode, queueFamilyIndices: seq<u32>)

  /**
   * Images are shared CONCURRENTLY between the two queue families when they
   * differ (both families listed), EXCLUSIVELY otherwise (no family listed).
   * Both families must be known: the source reads both optionals first.
   */
  function ChooseImageSharing(indices: QueueFamilyIndices): (r: ImageSharing)
    requires indices.IsComplete()
    ensures r.mode == SharingModeConcurrent <==> indices.graphicsFamily != indices.presentFamily
    ensures r.mode == SharingModeConcurrent ==>
              |r.queueFamilyIndices| == 2 && r.queueFamilyIndices[0] != r.queueFamilyIndices[1]
              && r.queueFamilyIndices[0] == indices.graphicsFamily.value
              && r.queueFamilyIndices[1] == indices.presentFamily.value
    ensures r.mode == SharingModeExclusive ==> r.queueFamilyIndices == []
  {
    if indices.graphicsFamily != indices.presentFamily then
      ImageSharing(SharingModeConcurrent, [indices.graphicsFamily.value, indices.presentFamily.value])
    else
      ImageSharing(SharingModeExclusive, [])
  }

  /** The parameters CreateSwapChain hands to vkCreateSwapchainKHR. */
  datatype SwapchainCreateInfo = SwapchainCreateInfo(
    minImageCount: u32,
    imageFormat: int,
    imageColorSpace: int,
    imageExtent: Extent2D,
    sharing: ImageSharing,
    presentMode: PresentMode)

  /** `info` carries the parameters the choosers select for this surface and these policies. */
  ghost predicate IsSwapchainCreateInfoFor(
    info: SwapchainCreateInfo,
    support: SwapChainSupportDetails,
    indices: QueueFamilyIndices,
    checkSwapSurfaceFormatFunc: Option<SurfaceFormat -> bool>,
    checkSwapPresentModeFunc: Option<PresentMode -> bool>,
    framebufferWidth: int,
    framebufferHeight: int)
    requires |support.formats| > 0
    requires indices.IsComplete()
  {
    && SurfaceFormat(info.imageFormat, info.imageColorSpace) == SelectedSurfaceFormat(support.formats, checkSwapSurfaceFormatFunc)
    && info.presentMode == SelectedPresentMode(support.presentModes, checkSwapPresentModeFunc)
    && info.imageExtent == ChooseSwapExtentIntended(support.capabilities, framebufferWidth, framebufferHeight)
    && info.minImageCount == ImageCount(support.capabilities)
    && info.sharing == ChooseImageSharing(indices)
  }

  /**
   * The create-info assembly of CreateSwapChain: chosen format, chosen
   * present mode, extent (by the intended rule), image count and sharing mode.
   */
  method BuildSwapchainCreateInfo(
    support: SwapChainSupportDetails,
    indices: QueueFamilyIndices,
    checkSwapSurfaceFormatFunc: Option<SurfaceFormat -> bool>,
    checkSwapPresentModeFunc: Option<PresentMode -> bool>,
    framebufferWidth: int,
    framebufferHeight: int)
    returns (info: SwapchainCreateInfo)
    requires |support.formats| > 0
    requires indices.IsComplete()
    ensures IsSwapchainCreateInfoFor(info, support, indices, checkSwapSurfaceFormatFunc, checkSwapPresentModeFunc,
                                     framebufferWidth, framebufferHeight)
  {
    var surfaceFormat := ChooseSwapSurfaceFormat(support.formats, checkSwapSurfaceFormatFunc);
    var presentMode := ChooseSwapPresentMode(support.presentModes, checkSwapPresentModeFunc);
    var extent := ChooseSwapExtentIntended(support.capabilities, framebufferWidth, framebufferHeight);
    var imageCount := ImageCount(support.capabilities);
    info := SwapchainCreateInfo(imageCount, surfaceFormat.format, surfaceFormat.colorSpace, extent,
                                ChooseImageSharing(indices), presentMode);
  }
}
