/**
 * Value types shared by the renderer model: 32-bit unsigned integers, opaque
 * Vulkan handles, the enumerant codes the renderer compares against, and the
 * surface description the driver reports for a physical device.
 */
module VkTypes {

  datatype Option<+T> = None | Some(value: T)

  datatype Result<+T, +E> = Ok(value: T) | Err(error: E)

  /** `uint32_t`. */
  type u32 = x: int | 0 <= x < 0x1_0000_0000

  /** `std::numeric_limits<uint32_t>::max()`, the "undefined extent" sentinel. */
  const UINT32_MAX: u32 := 0xFFFF_FFFF

  /** Number of frame slots (Renderer.h, MAX_FRAMES_IN_FLIGHT). */
  const MAX_FRAMES_IN_FLIGHT: nat := 2

  /** Number of combined-image-sampler bindings (Renderer.h, MAX_NUM_TEXTURE_BINDING). */
  const MAX_NUM_TEXTURE_BINDING: nat := 8

  /** An opaque Vulkan object handle; 0 is VK_NULL_HANDLE. */
  type Handle = nat

  const NULL_HANDLE: Handle := 0

  // Enumerant values as the Vulkan headers define them.
  const VK_FORMAT_UNDEFINED: int := 0
  const VK_FORMAT_R8G8B8A8_SRGB: int := 43
  const VK_COLOR_SPACE_SRGB_NONLINEAR_KHR: int := 0

  type PresentMode = int

  const VK_PRESENT_MODE_IMMEDIATE_KHR: PresentMode := 0
  const VK_PRESENT_MODE_MAILBOX_KHR: PresentMode := 1
  const VK_PRESENT_MODE_FIFO_KHR: PresentMode := 2
  const VK_PRESENT_MODE_FIFO_RELAXED_KHR: PresentMode := 3

  const VK_SUCCESS: int := 0
  const VK_SUBOPTIMAL_KHR: int := 1000001003
  const VK_ERROR_OUT_OF_DATE_KHR: int := -1000001004

  datatype Extent2D = Extent2D(width: u32, height: u32)

  datatype SurfaceFormat = SurfaceFormat(format: int, colorSpace: int)

  /** The fields of VkSurfaceCapabilitiesKHR the renderer reads. */
  datatype SurfaceCapabilities = SurfaceCapabilities(
    minImageCount: u32,
    maxImageCount: u32,
    currentExtent: Extent2D,
    minImageExtent: Extent2D,
    maxImageExtent: Extent2D)

  /** What QuerrySwapChainSupport reports for one device and surface. */
  datatype SwapChainSupportDetails = SwapChainSupportDetails(
    capabilities: SurfaceCapabilities,
    formats: seq<SurfaceFormat>,
    presentModes: seq<PresentMode>)

  /** Queue families found for graphics and for presentation (std::optional each). */
  datatype QueueFamilyIndices = QueueFamilyIndices(graphicsFamily: Option<u32>, presentFamily: Option<u32>)
  {
    predicate IsComplete() {
      graphicsFamily.Some? && presentFamily.Some?
    }
  }
}
