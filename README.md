# Selection and validation rules of HelloTriangleApplication

A Dafny model of the decision-making core of `HelloTriangleApplication` in
`FollowingVulkanTutorial.com/main.cpp`. This is a Vulkan tutorial program. Most of the class
calls into Vulkan and GLFW. Between those calls it takes what the driver reports and decides
what to use:

- which surface format, present mode, image extent and image count the swapchain gets;
- which queue families serve graphics and presentation;
- whether the required instance extensions, validation layers and device extensions exist;
- which physical device is suitable and picked;
- which queues the logical device requests, and whether swapchain images are shared
  exclusively or concurrently.

Every driver query is an input value (see `VulkanTypes.dfy`):

- a physical device is a record holding its type, its geometry-shader feature, its queue
  families, its extension names and its swapchain support details;
- a queue family carries its flags, its queue count, and the per-index answer to the
  surface-support query.

A C++ `throw` becomes an `Err`/`Fail` result. Calling `std::optional::value()` on an empty
optional becomes `BadOptionalAccess`.

Modules follow the structure of the class:

- `VulkanTypes`: the driver's value types and the result types.
- `SwapChainChoices`: `ChooseSwapSurfaceFormat`, `ChooseSwapPresentMode`, `ChooseSwapExtent`,
  and the image-count rule of `CreateSwapChain`.
- `QueueFamilies`: `QueueFamilyIndices`, `FindQueueFamilies`, and the distinct-family queue
  requests of `CreateLogicalDevice`.
- `RequiredNames`: the two driver checks that throw, and `CheckDeviceExtensionsSupport`.
- `Application`: `IsDeviceSuitable`, and the class with `mPhysicalDevice` and the methods
  `PickPhysicalDevice`, `CreateLogicalDevice` and `CreateSwapChain`.

Loops in the source are loops here. Each one is proved against a declarative specification:

- `SurfaceFormatPreference` and `PresentModePreference` for the two choosers;
- `ScanResult`, built from `ScanEnd` and `LastServing`, for the queue-family scan;
- `DeviceSuitable` and `FirstSuitable` for device selection.

Modelling notes:

- **Image count.** `minImageCount + 1` is a `uint32_t` sum, so the model wraps it modulo 2^32
  instead of assuming `minImageCount < UINT32_MAX`. `RequestedImageCount` states the count
  for `minImageCount < UINT32_MAX` and gives the wrapped value 0 otherwise.
- **Sharing mode.** `CreateSwapChain` compares the two optionals themselves. If both are
  empty, they compare equal and the swapchain stays exclusive with no error. If exactly one is
  empty, `.value()` throws.

## Model

| member | source | states |
|---|---|---|
| `SwapChainChoices.SurfaceFormatPreference` | FollowingVulkanTutorial.com/main.cpp:526-543 | The choice is an available format unless the surface accepts any format. It is {B8G8R8A8_UNORM, SRGB_NONLINEAR} exactly when the surface accepts any format or lists that format. Otherwise it is the first available format. |
| `SwapChainChoices.ChooseSwapSurfaceFormat` | FollowingVulkanTutorial.com/main.cpp:526-543 | The special case, the search loop with early return, and the fallback to `front()` together return `SurfaceFormatPreference` of a non-empty list. |
| `SwapChainChoices.PresentModePreference` | FollowingVulkanTutorial.com/main.cpp:565-582 | The choice ranks highest under MAILBOX > IMMEDIATE > FIFO among the available modes. It is one of those three, and it is available or FIFO. |
| `SwapChainChoices.PresentModePreferenceDependsOnlyOnModesPresent` | FollowingVulkanTutorial.com/main.cpp:565-582 | Two lists that contain the same modes, in any order and with any repetition, get the same choice. |
| `SwapChainChoices.ChooseSwapPresentMode` | FollowingVulkanTutorial.com/main.cpp:565-582 | The loop that returns at the first MAILBOX and records `immediateAvailable` returns `PresentModePreference`. |
| `SwapChainChoices.ChooseSwapExtent` | FollowingVulkanTutorial.com/main.cpp:597-612 | `currentExtent` is returned unchanged unless its width is UINT32_MAX. In that case each dimension of the window size is clamped into [minImageExtent, maxImageExtent], with the minimum winning when min > max. The result is never below the minimum, not above the maximum when min <= max, and equal to the window size when that already lies within the bounds. |
| `SwapChainChoices.ClampedIntoIsUnique` | FollowingVulkanTutorial.com/main.cpp:609-610 | The clamp property pins down a single value, so `ChooseSwapExtent`'s contract fully determines its sentinel-case result. |
| `SwapChainChoices.RequestedImageCount` | FollowingVulkanTutorial.com/main.cpp:781-795 | The count never exceeds a non-zero `maxImageCount`. Without wrap-around it is `minImageCount + 1` when there is no limit or the limit is higher, and `maxImageCount` otherwise. Without wrap-around it is at least `minImageCount` under the Vulkan convention (max == 0 or min <= max). It wraps to 0 when `minImageCount` is UINT32_MAX. |
| `QueueFamilies.QueueFamilyIndices.IsComplete` | FollowingVulkanTutorial.com/main.cpp:238-240 | Both optionals are set. |
| `QueueFamilies.LastServing` | FollowingVulkanTutorial.com/main.cpp:476-489 | The largest index below k whose family has queues and the role's capability. It is None exactly when no family below k qualifies. |
| `QueueFamilies.ScanEnd` | FollowingVulkanTutorial.com/main.cpp:491-493 | The scan stops at the first point where the families seen so far qualify for both roles, or at the end of the list. |
| `QueueFamilies.ScanResultQualifies` | FollowingVulkanTutorial.com/main.cpp:476-489 | Any index the scan records is below the family count, and its family has `queueCount` > 0 and the graphics bit or surface support, according to its role. |
| `QueueFamilies.ScanCompleteIffBothServed` | FollowingVulkanTutorial.com/main.cpp:468-496 | The scan's result is complete if and only if some family qualifies for graphics and some family qualifies for presentation. |
| `QueueFamilies.GraphicsFamilyOverwrittenBeforeCompletion` | FollowingVulkanTutorial.com/main.cpp:481-483 | Before completion, a later graphics family overwrites an earlier one. The list [graphics, graphics, presentation] gives graphics 1 and presentation 2. |
| `QueueFamilies.ScanStopsAtCompletion` | FollowingVulkanTutorial.com/main.cpp:491-493 | Families after the completing index are not looked at. A family serving both roles followed by a graphics family gives 0 and 0. |
| `QueueFamilies.FindQueueFamilies` | FollowingVulkanTutorial.com/main.cpp:468-496 | The indexed loop with `break` returns `ScanResult`. Its result is complete if and only if both roles are served by some family. |
| `QueueFamilies.Smallest` | FollowingVulkanTutorial.com/main.cpp:724 | A non-empty set of family indices has an element no larger than any other, which is where std::set's ascending iteration starts. |
| `QueueFamilies.AppendSmallest` | FollowingVulkanTutorial.com/main.cpp:724-731 | Appending a request of one queue for the smallest remaining family keeps the walk's state: the requests stay ascending and below every family still to come, they name exactly the visited families, and the count of requests plus remaining families stays the set's size. |
| `QueueFamilies.RequestOneQueueEach` | FollowingVulkanTutorial.com/main.cpp:724-731 | Iterating the set pushes one request per element, each with `queueCount` 1, in strictly ascending family order. Together the requests name exactly the set's elements. |
| `QueueFamilies.QueueCreateInfos` | FollowingVulkanTutorial.com/main.cpp:715-731 | Throws `bad_optional_access` exactly when an index is missing. Otherwise it gives one request with queueCount 1 per distinct index, so one request when graphics = presentation and two otherwise, naming exactly {graphics, presentation} in ascending order. |
| `RequiredNames.FirstMissing` | FollowingVulkanTutorial.com/main.cpp:314-329 | The nested search with a `found` flag returns None exactly when every required name is available. Otherwise it returns the first required name that is not. |
| `RequiredNames.CheckRequiredExtensionsSupportedByDriver` | FollowingVulkanTutorial.com/main.cpp:281-330 | Passes if and only if every required extension is among the driver's. Otherwise it throws "Required extension '…' not found in the available driver extensions", naming the first missing one in list order. |
| `RequiredNames.CheckValidationLayersSupportedByDriver` | FollowingVulkanTutorial.com/main.cpp:338-359 | Passes if and only if every required layer is available. Otherwise it throws "Required layer '…' not found in the available layers", naming the first missing one. |
| `RequiredNames.CheckDeviceExtensionsSupport` | FollowingVulkanTutorial.com/main.cpp:504-518 | Erasing every available name from the set of required names leaves it empty if and only if every required device extension, that is VK_KHR_swapchain, is available. The loop invariant states that what remains is the set of required names not yet seen. |
| `Application.IsDeviceSuitable` | FollowingVulkanTutorial.com/main.cpp:652-681 | Returns the AND of five conditions: discrete GPU, geometry shader, some family for each role, VK_KHR_swapchain present, and swapchain adequate. Swapchain adequate means non-empty formats and present modes, and it is false without the extension. |
| `Application.SuitableDeviceHasWhatCreationNeeds` | FollowingVulkanTutorial.com/main.cpp:661-679 | A suitable device gets complete queue-family indices and a non-empty list of surface formats. |
| `Application.FirstSuitable` | FollowingVulkanTutorial.com/main.cpp:698-704 | The index of the first suitable device, with no suitable device before it. It is None exactly when no device is suitable. |
| `Application.HelloTriangleApplication.constructor` | FollowingVulkanTutorial.com/main.cpp:208 | `mPhysicalDevice` starts as VK_NULL_HANDLE. |
| `Application.HelloTriangleApplication.PickPhysicalDevice` | FollowingVulkanTutorial.com/main.cpp:688-705 | Throws exactly when there are zero devices. Otherwise the first suitable device is stored, and when none is suitable the prior value is kept without an error. |
| `Application.HelloTriangleApplication.PickSuitablePhysicalDevice` | FollowingVulkanTutorial.com/main.cpp:688-705 | The corrected pick. Success implies a device is stored. An empty list throws "failed to find GPUs with Vulkan support". It throws "failed to find a suitable GPU" exactly when the list is non-empty, no device is suitable and no device was stored before. Otherwise it stores the first suitable device, or keeps the one stored before. |
| `Application.HelloTriangleApplication.CreateLogicalDevice` | FollowingVulkanTutorial.com/main.cpp:713-742 | Throws exactly when the chosen device's scan is incomplete. Otherwise it gives one queue request per distinct family index (one or two), each with queueCount 1, naming exactly {graphics, presentation}, and it enables the required device extensions. |
| `Application.HelloTriangleApplication.CreateSwapChain` | FollowingVulkanTutorial.com/main.cpp:771-856 | The create info carries the chosen format, present mode, extent (for the 800×600 window) and image count. Equal indices leave it EXCLUSIVE with no family list. Differing indices make it CONCURRENT with queueFamilyIndexCount 2 and, held by value, the two distinct indices [graphics, presentation]. It throws only when the indices differ and one is missing. |
| `Application.OnlyUnsuitableDevice` | FollowingVulkanTutorial.com/main.cpp:698-704 | A non-empty device list can hold no suitable device: one integrated GPU with everything else in place. |
| `Application.PickAsWrittenLeavesNullHandle` | FollowingVulkanTutorial.com/main.cpp:688-705 | On that list, the as-written pick reports success and leaves VK_NULL_HANDLE. |
| `Application.PickCorrectedRejectsUnsuitable` | FollowingVulkanTutorial.com/main.cpp:688-705 | On that list, the corrected pick throws "failed to find a suitable GPU" and stores nothing. |

## Findings

| source | as written | input that shows it | evidently intended | confidence | as-written member | corrected member |
|---|---|---|---|---|---|---|
| FollowingVulkanTutorial.com/main.cpp:688-705 | When devices exist but none is suitable, `PickPhysicalDevice` returns normally and `mPhysicalDevice` stays VK_NULL_HANDLE. `CreateLogicalDevice` then passes that null handle to `FindQueueFamilies` and `vkCreateDevice`. | one device of type INTEGRATED_GPU that is otherwise suitable | Throw "failed to find a suitable GPU" after the loop when no device was stored | medium, not executed | `Application.PickAsWrittenLeavesNullHandle` | `Application.HelloTriangleApplication.PickSuitablePhysicalDevice` |

`CreateLogicalDevice` and `CreateSwapChain` require a stored device. The corrected pick
guarantees one whenever it succeeds. The as-written pick does not, as
`PickAsWrittenLeavesNullHandle` shows.

## Left out

- Every Vulkan and GLFW call is left out. Their meaning lives in those libraries. This covers
  instance, surface, device, swapchain, image-view, shader-module and pipeline-layout creation
  and destruction, `vkGetDeviceQueue`, and the enumeration calls. The model takes the results
  of the query and enumeration calls as input values.
- `CreateInstance` is left out. That includes its assembly of the required extension list
  (GLFW's names plus VK_EXT_debug_utils) and its `mEnableValidationLayers` gating. It is
  external-call sequencing. The two checks it calls are modelled.
- `QuerySwapChainSupport` is only driver queries. It becomes the `SwapChainSupportDetails`
  field of the device record.
- Names are compared as whole strings. `strcmp` on the fixed-size, NUL-terminated arrays of
  `VkExtensionProperties` and `VkLayerProperties` agrees with this for names without an
  embedded NUL. Longer or truncated names are not modelled.
- A physical device is identified by its record. Two devices with identical reported data
  are not told apart, whereas the source holds distinct handles.
- `ChooseSwapSurfaceFormat` and `CreateSwapChain` require a non-empty format list.
  `front()` on an empty vector is undefined behaviour. `IsDeviceSuitable` ensures the list is
  non-empty for any device that is picked.
- `CreateLogicalDevice` and `CreateSwapChain` require a stored device. Querying
  VK_NULL_HANDLE is undefined behaviour, not an exception.
- `sType`/`pNext` fields, the `queuePriority` of 1.0f (floating point), the enabled-feature
  struct, and the surface and old-swapchain handles of the create infos are left out.
- The `printf("")` in `ChooseSwapExtent` and the `PRINT_EXTENSIONS` block are output only.
- `ReadFileIntoString` and `DebugCallback` (file and stderr I/O), pipeline state, the stub
  `CreateRenderPass`, `InitWindow`/`InitVulkan`/`MainLoop`/`Cleanup`/`Run`/`main`, and the
  commented-out block at the top of the file are left out.
- `Application.HelloTriangleApplication.CreateLogicalDevice` and
  `Application.HelloTriangleApplication.CreateSwapChain` return the create info that
  `vkCreateDevice` or `vkCreateSwapchainKHR` would receive. When that call fails, the source
  throws "failed to create logical device" or "failed to create swap chain". Those throws
  are not modelled, because the outcome of the creation call lives in the driver.
- `Application.HelloTriangleApplication.CreateSwapChain`: the source declares the array of
  two indices inside the `else` block and stores a pointer to it in `pQueueFamilyIndices`.
  The array's lifetime has ended by the time `vkCreateSwapchainKHR` reads the create info, so
  the driver reads a dangling pointer. The model holds the two indices by value in the create
  info and does not capture this lifetime error.
- `Application.HelloTriangleApplication.CreateSwapChain`: after the swapchain is created the
  source stores the chosen format and extent in `mSwapChainImageFormat` and
  `mSwapChainExtent`, and it resizes `mSwapChainImages`. The class models only
  `physicalDevice`, so these writes are not modelled. The values written are the create
  info's `imageFormat` and `imageExtent`, which the contract states.
- `FollowingVulkanTutorial.com/vulkan_pch.h` holds only includes and is not part of this
  model.
