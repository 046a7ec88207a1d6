/** The values the Vulkan driver hands to HelloTriangleApplication, as plain data, and the
    error results the application produces in place of `throw`.

    Every driver query (vkEnumerate..., vkGetPhysicalDevice...) is modelled by the value it
    returns: the operations of the other modules take those values as inputs. */
module VulkanTypes {

  /** C++ `uint32_t`. */
  type uint32 = x: int | 0 <= x < 0x1_0000_0000

  /** `std::numeric_limits<uint32_t>::max()`. As `currentExtent.width` it means that the
      swapchain's extent is chosen by the application, not fixed by the surface. */
  const UINT32_MAX: uint32 := 0xFFFF_FFFF

  /** `std::optional<T>`. */
  datatype Option<T> = None | Some(value: T)

  /** The exceptions the modelled code can raise. */
  datatype Error =
    | RuntimeError(message: string)  // std::runtime_error with its message
    | BadOptionalAccess              // std::optional::value() on an empty optional

  /** Result of a member that returns a value or throws. */
  datatype Result<T> = Ok(value: T) | Err(error: Error)

  /** Result of a `void` member that may throw. */
  datatype Outcome = Pass | Fail(error: Error)

  /** VkFormat and VkColorSpaceKHR, by their numeric values in the Vulkan headers. */
  type Format = nat
  type ColorSpace = nat

  const FORMAT_UNDEFINED: Format := 0
  const FORMAT_B8G8R8A8_UNORM: Format := 44
  const COLOR_SPACE_SRGB_NONLINEAR: ColorSpace := 0

  /** VkSurfaceFormatKHR. */
  datatype SurfaceFormat = SurfaceFormat(format: Format, colorSpace: ColorSpace)

  /** VkPresentModeKHR. */
  datatype PresentMode =
    | Immediate                // VK_PRESENT_MODE_IMMEDIATE_KHR = 0
    | Mailbox                  // VK_PRESENT_MODE_MAILBOX_KHR = 1
    | Fifo                     // VK_PRESENT_MODE_FIFO_KHR = 2
    | FifoRelaxed              // VK_PRESENT_MODE_FIFO_RELAXED_KHR = 3
    | SharedDemandRefresh      // VK_PRESENT_MODE_SHARED_DEMAND_REFRESH_KHR
    | SharedContinuousRefresh  // VK_PRESENT_MODE_SHARED_CONTINUOUS_REFRESH_KHR

  /** VkExtent2D. */
  datatype Extent2D = Extent2D(width: uint32, height: uint32)

  /** The fields of VkSurfaceCapabilitiesKHR that the application reads. A `maxImageCount`
      of 0 means that the surface sets no upper limit on the number of images. */
  datatype SurfaceCapabilities = SurfaceCapabilities(
    minImageCount: uint32,
    maxImageCount: uint32,
    currentExtent: Extent2D,
    minImageExtent: Extent2D,
    maxImageExtent: Extent2D,
    currentTransform: bv32)

  /** SwapChainSupportDetails: what QuerySwapChainSupport gathers for one device and surface. */
  datatype SwapChainSupportDetails = SwapChainSupportDetails(
    capabilities: SurfaceCapabilities,
    formats: seq<SurfaceFormat>,
    presentModes: seq<PresentMode>)

  /** VK_QUEUE_GRAPHICS_BIT in VkQueueFlags. */
  const QUEUE_GRAPHICS_BIT: bv32 := 0x1

  /** One entry of vkGetPhysicalDeviceQueueFamilyProperties, together with the answer of
      vkGetPhysicalDeviceSurfaceSupportKHR for that family index and the application's surface. */
  datatype QueueFamily = QueueFamily(queueFlags: bv32, queueCount: uint32, surfaceSupported: bool)

  /** The queue families of one device; their count is a `uint32_t`. */
  type QueueFamilyList = s: seq<QueueFamily> | |s| <= UINT32_MAX witness []

  /** VkPhysicalDeviceType. */
  datatype PhysicalDeviceType = OtherType | IntegratedGpu | DiscreteGpu | VirtualGpu | Cpu

  /** Everything the application asks the driver about one physical device. */
  datatype PhysicalDevice = PhysicalDevice(
    deviceType: PhysicalDeviceType,           // VkPhysicalDeviceProperties.deviceType
    geometryShader: bool,                     // VkPhysicalDeviceFeatures.geometryShader
    queueFamilies: QueueFamilyList,
    extensions: seq<string>,                  // extensionName of each device extension
    swapChainSupport: SwapChainSupportDetails)
}
