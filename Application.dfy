/** Device selection and the parts of logical-device and swapchain creation that decide
    something: which physical device is used, which queues are requested, and how the
    swapchain is configured. */
module Application {
  import opened VulkanTypes
  import opened SwapChainChoices
  import opened QueueFamilies
  import opened RequiredNames

  /** The surface offers at least one format and one present mode. It is only asked once the
      device is known to support the swapchain extension, so it is false without it. */
  predicate SwapChainAdequate(device: PhysicalDevice) {
    && DeviceExtensionsSupported(device.extensions)
    && |device.swapChainSupport.formats| > 0
    && |device.swapChainSupport.presentModes| > 0
  }

  /** The five conditions IsDeviceSuitable demands, stated over the device's own data. */
  predicate DeviceSuitable(device: PhysicalDevice) {
    && device.deviceType == DiscreteGpu
    && device.geometryShader
    && ServedBySome(device.queueFamilies, Graphics)
    && ServedBySome(device.queueFamilies, Presentation)
    && DeviceExtensionsSupported(device.extensions)
    && SwapChainAdequate(device)
  }

  /** IsDeviceSuitable: the conjunction of the five conditions, each computed as the source
      computes it (the queue-family scan, the set-erase extension check, and the swapchain
      query only when the extension is supported). */
  method IsDeviceSuitable(device: PhysicalDevice) returns (suitable: bool)
    ensures suitable == DeviceSuitable(device)
  {
    var isDiscreteGpu := device.deviceType == DiscreteGpu;
    var supportsGeometryShader := device.geometryShader;

    var indices := FindQueueFamilies(device.queueFamilies);
    var hasAllRequiredQueueFamilyIndices := indices.IsComplete();

    var deviceExtensionsSupported := CheckDeviceExtensionsSupport(device.extensions);

    var swapChainAdequate := false;
    if deviceExtensionsSupported {
      var swapChainSupport := device.swapChainSupport;
      swapChainAdequate := |swapChainSupport.formats| > 0 && |swapChainSupport.presentModes| > 0;
    }

    suitable := isDiscreteGpu && supportsGeometryShader && hasAllRequiredQueueFamilyIndices
                && deviceExtensionsSupported && swapChainAdequate;
  }

  /** A suitable device needs nothing more for the later steps: both queue-family indices are
      found, and the surface offers formats for ChooseSwapSurfaceFormat to choose from. */
  lemma SuitableDeviceHasWhatCreationNeeds(device: PhysicalDevice)
    requires DeviceSuitable(device)
    ensures ScanResult(device.queueFamilies).IsComplete()
    ensures |device.swapChainSupport.formats| > 0
  {
    ScanCompleteIffBothServed(device.queueFamilies);
  }

  /** The index of the first suitable device at or after `from`. */
  function FirstSuitable(devices: seq<PhysicalDevice>, from: nat): (r: Option<nat>)
    requires from <= |devices|
    ensures r.Some? ==> from <= r.value < |devices| && DeviceSuitable(devices[r.value])
    ensures r.Some? ==> forall j :: from <= j < r.value ==> !DeviceSuitable(devices[j])
    ensures r.None? <==> forall j :: from <= j < |devices| ==> !DeviceSuitable(devices[j])
    decreases |devices| - from
  {
    if from == |devices| then None
    else if DeviceSuitable(devices[from]) then Some(from)
    else FirstSuitable(devices, from + 1)
  }

  /** VkDeviceCreateInfo, reduced to what the application decides. */
  datatype DeviceCreateInfo = DeviceCreateInfo(
    queueCreateInfos: seq<DeviceQueueCreateInfo>,
    enabledExtensionNames: seq<string>)

  /** VkSharingMode. */
  datatype SharingMode = Exclusive | Concurrent

  /** VK_IMAGE_USAGE_COLOR_ATTACHMENT_BIT and VK_COMPOSITE_ALPHA_OPAQUE_BIT_KHR. */
  const IMAGE_USAGE_COLOR_ATTACHMENT_BIT: bv32 := 0x10
  const COMPOSITE_ALPHA_OPAQUE_BIT: bv32 := 0x1

  /** VkSwapchainCreateInfoKHR, without the surface and old-swapchain handles. */
  datatype SwapchainCreateInfo = SwapchainCreateInfo(
    minImageCount: uint32,
    imageFormat: Format,
    imageColorSpace: ColorSpace,
    imageExtent: Extent2D,
    imageArrayLayers: uint32,
    imageUsage: bv32,
    imageSharingMode: SharingMode,
    queueFamilyIndexCount: uint32,
    queueFamilyIndices: seq<uint32>,
    preTransform: bv32,
    compositeAlpha: bv32,
    presentMode: PresentMode,
    clipped: bool)

  /** The application object; of its state only the chosen physical device is modelled
      (None stands for VK_NULL_HANDLE). */
  class HelloTriangleApplication {
    const windowWidth: uint32 := 800
    const windowHeight: uint32 := 600

    var physicalDevice: Option<PhysicalDevice>

    constructor ()
      ensures physicalDevice == None
    {
      physicalDevice := None;
    }

    /** PickPhysicalDevice as written: throws when the driver reports no device, and otherwise
        stores the first suitable device; when none is suitable it stores nothing and does not
        throw. */
    method PickPhysicalDevice(devices: seq<PhysicalDevice>) returns (r: Outcome)
      modifies this
      ensures r.Fail? <==> |devices| == 0
      ensures r.Fail? ==> r.error == RuntimeError("failed to find GPUs with Vulkan support")
      ensures physicalDevice == match FirstSuitable(devices, 0)
                                case Some(k) => Some(devices[k])
                                case None => old(physicalDevice)
    {
      if |devices| == 0 {
        return Fail(RuntimeError("failed to find GPUs with Vulkan support"));
      }
      for i := 0 to |devices|
        invariant physicalDevice == old(physicalDevice)
        invariant forall j :: 0 <= j < i ==> !DeviceSuitable(devices[j])
      {
        var suitable := IsDeviceSuitable(devices[i]);
        if suitable {
          physicalDevice := Some(devices[i]);
          assert FirstSuitable(devices, 0) == Some(i);
          break;
        }
      }
      return Pass;
    }

    /** PickPhysicalDevice with the missing check added: when no device is suitable and no
        device was chosen before, it throws instead of going on with VK_NULL_HANDLE. */
    method PickSuitablePhysicalDevice(devices: seq<PhysicalDevice>) returns (r: Outcome)
      modifies this
      ensures r.Pass? ==> physicalDevice.Some?
      ensures r.Pass? <==> |devices| > 0 && (FirstSuitable(devices, 0).Some? || old(physicalDevice).Some?)
      ensures |devices| == 0 ==> r == Fail(RuntimeError("failed to find GPUs with Vulkan support"))
      ensures |devices| > 0 && r.Fail? ==> r == Fail(RuntimeError("failed to find a suitable GPU"))
      ensures physicalDevice == match FirstSuitable(devices, 0)
                                case Some(k) => Some(devices[k])
                                case None => old(physicalDevice)
    {
      r := PickPhysicalDevice(devices);
      if r.Pass? && physicalDevice.None? {
        r := Fail(RuntimeError("failed to find a suitable GPU"));
      }
    }

    /** The decisions of CreateLogicalDevice: the queue requests built from the chosen device's
        queue families, and the device extensions it enables. */
    method CreateLogicalDevice() returns (r: Result<DeviceCreateInfo>)
      requires physicalDevice.Some?
      ensures var indices := ScanResult(physicalDevice.value.queueFamilies);
              && (r.Err? <==> !indices.IsComplete())
              && (r.Err? ==> r.error == BadOptionalAccess)
              && (r.Ok? ==>
                    var graphics := indices.graphicsFamily.value;
                    var presentation := indices.presentationFamily.value;
                    var requests := r.value.queueCreateInfos;
                    && r.value.enabledExtensionNames == REQUIRED_DEVICE_EXTENSIONS
                    && |requests| == (if graphics == presentation then 1 else 2)
                    && OneQueueEach(requests)
                    && RequestedFamilies(requests) == {graphics, presentation}
                    && Ascending(requests))
    {
      var indices := FindQueueFamilies(physicalDevice.value.queueFamilies);
      var deviceCommandQueuesCreateInfo := QueueCreateInfos(indices);
      if deviceCommandQueuesCreateInfo.Err? {
        return Err(deviceCommandQueuesCreateInfo.error);
      }
      return Ok(DeviceCreateInfo(deviceCommandQueuesCreateInfo.value, REQUIRED_DEVICE_EXTENSIONS));
    }

    /** The decisions of CreateSwapChain: the three choosers, the image count, and the
        sharing mode, which is concurrent between the two families exactly when the graphics
        and presentation indices differ. */
    method CreateSwapChain() returns (r: Result<SwapchainCreateInfo>)
      requires physicalDevice.Some?
      requires |physicalDevice.value.swapChainSupport.formats| > 0
      ensures var support := physicalDevice.value.swapChainSupport;
              var indices := ScanResult(physicalDevice.value.queueFamilies);
              && (r.Err? <==> indices.graphicsFamily != indices.presentationFamily && !indices.IsComplete())
              && (r.Err? ==> r.error == BadOptionalAccess)
              && (r.Ok? ==>
                    var info := r.value;
                    && info.minImageCount == RequestedImageCount(support.capabilities)
                    && SurfaceFormat(info.imageFormat, info.imageColorSpace) == SurfaceFormatPreference(support.formats)
                    && info.imageExtent == ChooseSwapExtent(support.capabilities, Extent2D(windowWidth, windowHeight))
                    && info.presentMode == PresentModePreference(support.presentModes)
                    && info.imageArrayLayers == 1
                    && info.imageUsage == IMAGE_USAGE_COLOR_ATTACHMENT_BIT
                    && info.preTransform == support.capabilities.currentTransform
                    && info.compositeAlpha == COMPOSITE_ALPHA_OPAQUE_BIT
                    && info.clipped
                    && (info.imageSharingMode == Exclusive <==> indices.graphicsFamily == indices.presentationFamily)
                    && (info.imageSharingMode == Exclusive ==>
                          info.queueFamilyIndexCount == 0 && info.queueFamilyIndices == [])
                    && (info.imageSharingMode == Concurrent ==>
                          && info.queueFamilyIndexCount == 2
                          && info.queueFamilyIndices == [indices.graphicsFamily.value, indices.presentationFamily.value]
                          && info.queueFamilyIndices[0] != info.queueFamilyIndices[1]))
    {
      var swapChainSupport := physicalDevice.value.swapChainSupport;
      var surfaceFormat := ChooseSwapSurfaceFormat(swapChainSupport.formats);
      var presentMode := ChooseSwapPresentMode(swapChainSupport.presentModes);
      var extent := ChooseSwapExtent(swapChainSupport.capabilities, Extent2D(windowWidth, windowHeight));

      var createMinImageCount: uint32 := (swapChainSupport.capabilities.minImageCount + 1) % 0x1_0000_0000;
      if swapChainSupport.capabilities.maxImageCount == 0 {
        // no limit on the number of images
      } else {
        if createMinImageCount > swapChainSupport.capabilities.maxImageCount {
          createMinImageCount := swapChainSupport.capabilities.maxImageCount;
        }
      }

      var createInfo := SwapchainCreateInfo(
        createMinImageCount, surfaceFormat.format, surfaceFormat.colorSpace, extent, 1,
        IMAGE_USAGE_COLOR_ATTACHMENT_BIT, Exclusive, 0, [],
        swapChainSupport.capabilities.currentTransform, COMPOSITE_ALPHA_OPAQUE_BIT, presentMode, true);

      var indices := FindQueueFamilies(physicalDevice.value.queueFamilies);
      if indices.graphicsFamily == indices.presentationFamily {
        // exclusive: the default of a zero-initialised create info
      } else {
        if indices.graphicsFamily.None? || indices.presentationFamily.None? {
          return Err(BadOptionalAccess);
        }
        var queueFamilyIndices := [indices.graphicsFamily.value, indices.presentationFamily.value];
        createInfo := createInfo.(imageSharingMode := Concurrent, queueFamilyIndexCount := 2,
                                  queueFamilyIndices := queueFamilyIndices);
      }
      return Ok(createInfo);
    }
  }

  /** A device that is not a discrete GPU, though it has everything else. */
  function IntegratedExample(): PhysicalDevice {
    var family := QueueFamily(QUEUE_GRAPHICS_BIT, 1, true);
    var capabilities := SurfaceCapabilities(2, 8, Extent2D(800, 600), Extent2D(1, 1), Extent2D(4096, 4096), 1);
    PhysicalDevice(IntegratedGpu, true, [family], ["VK_KHR_swapchain"],
                   SwapChainSupportDetails(capabilities, [PREFERRED_SURFACE_FORMAT], [Fifo]))
  }

  /** With one device that is not suitable, the device list is non-empty and yet no device is
      suitable. */
  lemma {:induction false} OnlyUnsuitableDevice()
    ensures FirstSuitable([IntegratedExample()], 0).None?
  {
    assert !DeviceSuitable(IntegratedExample());
  }

  /** The as-written PickPhysicalDevice on that list: it reports success and the application is
      left with VK_NULL_HANDLE, which CreateLogicalDevice then queries. */
  method PickAsWrittenLeavesNullHandle() returns (r: Outcome, picked: Option<PhysicalDevice>)
    ensures r == Pass && picked == None
  {
    var app := new HelloTriangleApplication();
    OnlyUnsuitableDevice();
    r := app.PickPhysicalDevice([IntegratedExample()]);
    picked := app.physicalDevice;
  }

  /** The corrected pick on the same list throws instead. */
  method PickCorrectedRejectsUnsuitable() returns (r: Outcome, picked: Option<PhysicalDevice>)
    ensures r == Fail(RuntimeError("failed to find a suitable GPU")) && picked == None
  {
    var app := new HelloTriangleApplication();
    OnlyUnsuitableDevice();
    r := app.PickSuitablePhysicalDevice([IntegratedExample()]);
    picked := app.physicalDevice;
  }
}
