/**
 * Physical-device selection and logical-device parameters: the device
 * extension check (required names minus available names), the suitability
 * conjunction, the first-suitable-device pick, the queue families a logical
 * device is created with, and the requested device features.
 */
module DeviceSelection {
  import opened VkTypes
  import opened SwapchainPolicy

  /**
   * What the renderer learns about one enumerated accelerator: its handle, its
   * queue families for the renderer's surface, its extension names, and the
   * swapchain support it offers for that surface.
   */
  datatype PhysicalDevice = PhysicalDevice(
    handle: Handle,
    queueFamilies: QueueFamilyIndices,
    availableExtensions: seq<string>,
    swapChainSupport: SwapChainSupportDetails)

  const VK_KHR_SWAPCHAIN_EXTENSION_NAME: string := "VK_KHR_swapchain"

  /** The renderer's required device extensions (Renderer.h, deviceExtension). */
  const DEVICE_EXTENSIONS: seq<string> := [VK_KHR_SWAPCHAIN_EXTENSION_NAME]

  predicate ExtensionsSupported(availableExtensions: seq<string>, deviceExtension: seq<string>) {
    forall name :: name in deviceExtension ==> name in availableExtensions
  }

  /**
   * checkDeviceExtensionSupport: start from the set of required names, erase
   * every available name, and report whether nothing is left.
   */
  method CheckDeviceExtensionSupport(availableExtensions: seq<string>, deviceExtension: seq<string>)
    returns (supported: bool)
    ensures supported <==> ExtensionsSupported(availableExtensions, deviceExtension)
  {
    var requiredExtensions := set name | name in deviceExtension;
    var i := 0;
    while i < |availableExtensions|
      invariant 0 <= i <= |availableExtensions|
      invariant forall name :: name in requiredExtensions <==> name in deviceExtension && name !in availableExtensions[..i]
    {
      requiredExtensions := requiredExtensions - {availableExtensions[i]};
      i := i + 1;
    }
    assert availableExtensions[..i] == availableExtensions;
    supported := requiredExtensions == {};
  }

  /** The suitability requirements, stated as one conjunction. */
  predicate Suitable(device: PhysicalDevice, deviceExtension: seq<string>, checkSuitableDeviceFunc: PhysicalDevice -> bool) {
    && device.queueFamilies.IsComplete()
    && ExtensionsSupported(device.availableExtensions, deviceExtension)
    && |device.swapChainSupport.formats| > 0
    && |device.swapChainSupport.presentModes| > 0
    && checkSuitableDeviceFunc(device)
  }

  function SuitabilityTest(deviceExtension: seq<string>, checkSuitableDeviceFunc: PhysicalDevice -> bool): PhysicalDevice -> bool {
    device => Suitable(device, deviceExtension, checkSuitableDeviceFunc)
  }

  /**
   * IsDeviceSuitable: queue completeness, extension support, swapchain
   * adequacy (queried only when the extensions are supported) and the
   * caller's predicate.
   */
  method IsDeviceSuitable(device: PhysicalDevice, deviceExtension: seq<string>, checkSuitableDeviceFunc: PhysicalDevice -> bool)
    returns (suitable: bool)
    ensures suitable <==> Suitable(device, deviceExtension, checkSuitableDeviceFunc)
  {
    var complete := device.queueFamilies.IsComplete();
    var extensionSupported := CheckDeviceExtensionSupport(device.availableExtensions, deviceExtension);
    var swapChainAdequate := false;
    if extensionSupported {
      var swapChainSupport := device.swapChainSupport;
      swapChainAdequate := |swapChainSupport.formats| > 0 && |swapChainSupport.presentModes| > 0;
    }
    suitable := complete && extensionSupported && swapChainAdequate && checkSuitableDeviceFunc(device);
  }

  /**
   * PickFirstPhysicalDevice: the first suitable device in enumeration order;
   * None when no device qualifies (the source then raises "failed to find a
   * suitable GPU").
   */
  method PickFirstPhysicalDevice(devices: seq<PhysicalDevice>, deviceExtension: seq<string>, checkSuitableDeviceFunc: PhysicalDevice -> bool)
    returns (physicalDevice: Option<PhysicalDevice>)
    ensures physicalDevice.Some? <==> exists i :: 0 <= i < |devices| && Suitable(devices[i], deviceExtension, checkSuitableDeviceFunc)
    ensures physicalDevice.Some? ==> Suitable(physicalDevice.value, deviceExtension, checkSuitableDeviceFunc)
    ensures match FirstMatch(devices, SuitabilityTest(deviceExtension, checkSuitableDeviceFunc))
            case Some(i) => physicalDevice == Some(devices[i])
            case None => physicalDevice == None
  {
    ghost var accept := SuitabilityTest(deviceExtension, checkSuitableDeviceFunc);
    physicalDevice := None;
    var i := 0;
    while i < |devices|
      invariant 0 <= i <= |devices|
      invariant forall j :: 0 <= j < i ==> !accept(devices[j])
    {
      var suitable := IsDeviceSuitable(devices[i], deviceExtension, checkSuitableDeviceFunc);
      if suitable {
        FirstMatchAt(devices, accept, i);
        physicalDevice := Some(devices[i]);
        return;
      }
      i := i + 1;
    }
    FirstMatchSpec(devices, accept);
  }

  /** The built-in device predicate (Renderer.h): it rejects every device. */
  predicate DefaultCheckSuitableDevice(device: PhysicalDevice) {
    false
  }

  /** Without a custom device predicate no device is ever picked. */
  lemma DefaultPolicyPicksNoDevice(devices: seq<PhysicalDevice>, deviceExtension: seq<string>)
    ensures FirstMatch(devices, SuitabilityTest(deviceExtension, DefaultCheckSuitableDevice)) == None
  {
    FirstMatchSpec(devices, SuitabilityTest(deviceExtension, DefaultCheckSuitableDevice));
  }

  // ---------------------------------------------------------------- logical device

  /** The distinct queue families a queue is requested from (one create-info each). */
  function UniqueQueueFamilies(indices: QueueFamilyIndices): (families: set<u32>)
    requires indices.IsComplete()
    ensures indices.graphicsFamily.value in families && indices.presentFamily.value in families
    ensures forall f :: f in families ==> f == indices.graphicsFamily.value || f == indices.presentFamily.value
    ensures |families| == if indices.graphicsFamily == indices.presentFamily then 1 else 2
  {
    {indices.graphicsFamily.value, indices.presentFamily.value}
  }

  /** VkPhysicalDeviceFeatures, as the set of enabled feature names. */
  type DeviceFeatures = set<string>

  const SAMPLER_ANISOTROPY: string := "samplerAnisotropy"

  /** The built-in feature hook (Renderer.h): leaves the features as they are. */
  function DefaultSetPhysicalDeviceFeatures(features: DeviceFeatures): DeviceFeatures {
    features
  }

  /** Features requested at device creation: anisotropic sampling, then the caller's hook. */
  function RequestedFeatures(setPhysicalDeviceFeaturesFunc: DeviceFeatures -> DeviceFeatures): (features: DeviceFeatures)
    ensures setPhysicalDeviceFeaturesFunc == DefaultSetPhysicalDeviceFeatures ==> features == {SAMPLER_ANISOTROPY}
  {
    setPhysicalDeviceFeaturesFunc({SAMPLER_ANISOTROPY})
  }
}
