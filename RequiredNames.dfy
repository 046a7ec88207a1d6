/** The checks that every name the application requires (instance extensions, validation
    layers, device extensions) is among the names the driver reports. */
module RequiredNames {
  import opened VulkanTypes

  /** mRequiredDeviceExtensions: just VK_KHR_SWAPCHAIN_EXTENSION_NAME. */
  const REQUIRED_DEVICE_EXTENSIONS: seq<string> := ["VK_KHR_swapchain"]

  /** The nested search shared by the two driver checks: for each required name in order,
      look through the available names with a `found` flag; stop at the first required name
      that is not found. Names are compared as strcmp compares them, character by character. */
  method FirstMissing(required: seq<string>, available: seq<string>) returns (missing: Option<nat>)
    ensures missing.None? <==> forall i :: 0 <= i < |required| ==> required[i] in available
    ensures missing.Some? ==>
              && missing.value < |required|
              && required[missing.value] !in available
              && forall i :: 0 <= i < missing.value ==> required[i] in available
  {
    for k := 0 to |required|
      invariant forall i :: 0 <= i < k ==> required[i] in available
    {
      var found := false;
      for j := 0 to |available|
        invariant !found ==> required[k] !in available[..j]
      {
        if required[k] == available[j] {
          found := true;
          break;
        }
      }
      if !found {
        assert available[..|available|] == available;
        return Some(k);
      }
    }
    return None;
  }

  /** CheckRequiredExtensionsSupportedByDriver: passes when every required instance extension
      is available, and otherwise throws naming the first one that is not. */
  method CheckRequiredExtensionsSupportedByDriver(requiredExtensions: seq<string>, instanceExtensions: seq<string>)
    returns (r: Outcome)
    ensures r.Pass? <==> forall i :: 0 <= i < |requiredExtensions| ==> requiredExtensions[i] in instanceExtensions
    ensures r.Fail? ==>
              exists k :: && 0 <= k < |requiredExtensions|
                          && requiredExtensions[k] !in instanceExtensions
                          && (forall i :: 0 <= i < k ==> requiredExtensions[i] in instanceExtensions)
                          && r.error == RuntimeError("Required extension '" + requiredExtensions[k]
                                                     + "' not found in the available driver extensions")
  {
    var missing := FirstMissing(requiredExtensions, instanceExtensions);
    if missing.Some? {
      var reqExt := requiredExtensions[missing.value];
      return Fail(RuntimeError("Required extension '" + reqExt + "' not found in the available driver extensions"));
    }
    return Pass;
  }

  /** CheckValidationLayersSupportedByDriver: the same check for validation layers. */
  method CheckValidationLayersSupportedByDriver(requiredLayers: seq<string>, availableLayers: seq<string>)
    returns (r: Outcome)
    ensures r.Pass? <==> forall i :: 0 <= i < |requiredLayers| ==> requiredLayers[i] in availableLayers
    ensures r.Fail? ==>
              exists k :: && 0 <= k < |requiredLayers|
                          && requiredLayers[k] !in availableLayers
                          && (forall i :: 0 <= i < k ==> requiredLayers[i] in availableLayers)
                          && r.error == RuntimeError("Required layer '" + requiredLayers[k]
                                                     + "' not found in the available layers")
  {
    var missing := FirstMissing(requiredLayers, availableLayers);
    if missing.Some? {
      var reqLayer := requiredLayers[missing.value];
      return Fail(RuntimeError("Required layer '" + reqLayer + "' not found in the available layers"));
    }
    return Pass;
  }

  /** Every required device extension is among the device's extensions. */
  predicate DeviceExtensionsSupported(availableExtensions: seq<string>) {
    forall name :: name in REQUIRED_DEVICE_EXTENSIONS ==> name in availableExtensions
  }

  /** CheckDeviceExtensionsSupport: start from the set of required names, erase every
      available name, and report whether nothing is left. Whatever is left is exactly the set
      of required names the device lacks. */
  method CheckDeviceExtensionsSupport(availableExtensions: seq<string>) returns (supported: bool)
    ensures supported <==> DeviceExtensionsSupported(availableExtensions)
    ensures supported <==> "VK_KHR_swapchain" in availableExtensions
  {
    var requiredExtensions := set name | name in REQUIRED_DEVICE_EXTENSIONS;
    for i := 0 to |availableExtensions|
      invariant requiredExtensions == (set name | name in REQUIRED_DEVICE_EXTENSIONS)
                                      - (set name | name in availableExtensions[..i])
    {
      requiredExtensions := requiredExtensions - {availableExtensions[i]};
    }
    assert availableExtensions[..|availableExtensions|] == availableExtensions;
    assert (set name | name in REQUIRED_DEVICE_EXTENSIONS) == {"VK_KHR_swapchain"};
    supported := requiredExtensions == {};
    assert supported <==> "VK_KHR_swapchain" in availableExtensions by {
      assert "VK_KHR_swapchain" in requiredExtensions <==> "VK_KHR_swapchain" !in availableExtensions;
    }
  }
}
