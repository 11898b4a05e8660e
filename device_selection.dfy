/** Physical-device scoring and selection, and the validation-layer check that
    guards instance creation. */
module DeviceSelection {
  import opened VkTypes
  import opened QueueFamilies
  import opened SwapChainSupport
  import opened DeviceExtensions

  /** `VK_PHYSICAL_DEVICE_TYPE_DISCRETE_GPU`. */
  const PhysicalDeviceTypeDiscreteGpu: uint32 := 2

  /** One enumerated physical device, with what the program's queries report
      about it for the window surface. */
  datatype PhysicalDevice = PhysicalDevice(
    handle: Handle,
    deviceType: uint32,
    geometryShader: bool,
    queueFamilies: seq<QueueFamily>,
    extensions: seq<ExtensionProperties>,
    support: SwapChainSupportDetails)

  predicate IsDiscrete(d: PhysicalDevice) { d.deviceType == PhysicalDeviceTypeDiscreteGpu }

  /** The name comparison `support_extensions` applies to a reported extension
      and a required name: `SameStorage` is the one the code performs,
      `SameText` the one evidently intended. */
  type NameMatch = (ExtensionProperties, CString) -> bool

  /** `support_extensions(device)` under the name comparison `matches`. */
  predicate ExtensionsSupported(d: PhysicalDevice, matches: NameMatch)
  {
    SupportsAll(d.extensions, RequiredDeviceExtensions, matches)
  }

  /** Every capability the score rewards. */
  predicate FullyCapable(d: PhysicalDevice, matches: NameMatch)
  {
    && QueueFamiliesOf(d.queueFamilies).IsGraphicsSupported()
    && QueueFamiliesOf(d.queueFamilies).IsPresentationSupported()
    && ExtensionsSupported(d, matches)
    && |d.support.formats| > 0
    && |d.support.presentModes| > 0
  }

  /** `is_device_suitable`: an additive score; the surface formats and present
      modes are only consulted when the required extensions are supported. */
  function IsDeviceSuitable(d: PhysicalDevice, matches: NameMatch): (score: nat)
    ensures score <= 1701
    ensures score >= 1000 <==> IsDiscrete(d)
    ensures score % 2 == 1 <==> d.geometryShader
    ensures FullyCapable(d, matches) ==> score >= 600
    ensures IsDiscrete(d) && FullyCapable(d, matches) ==> score >= 1600
    ensures !ExtensionsSupported(d, matches) ==> score % 1000 <= 201
    ensures score == 0 <==>
      !IsDiscrete(d) && !d.geometryShader && !ExtensionsSupported(d, matches) &&
      !QueueFamiliesOf(d.queueFamilies).IsGraphicsSupported() &&
      !QueueFamiliesOf(d.queueFamilies).IsPresentationSupported()
  {
    var queueFamily := QueueFamiliesOf(d.queueFamilies);
    var deviceExtSupport := ExtensionsSupported(d, matches);
    var surfaceScore :=
      if deviceExtSupport then
        (if |d.support.formats| > 0 then 200 else 0) + (if |d.support.presentModes| > 0 then 200 else 0)
      else 0;
    var evenPart :=
      (if queueFamily.IsGraphicsSupported() then 100 else 0) +
      (if queueFamily.IsPresentationSupported() then 100 else 0) +
      (if deviceExtSupport then 100 else 0) +
      surfaceScore;
    assert evenPart % 2 == 0 && evenPart <= 700;
    assert !deviceExtSupport ==> evenPart <= 200;
    var score := (if IsDiscrete(d) then 1000 else 0) + evenPart + (if d.geometryShader then 1 else 0);
    assert score % 1000 == evenPart + (if d.geometryShader then 1 else 0);
    score
  }

  /** Without the required extensions, the surface formats and present modes
      the device reports make no difference to its score. */
  lemma SurfaceSupportNeedsExtensions(d: PhysicalDevice, support: SwapChainSupportDetails, matches: NameMatch)
    requires !ExtensionsSupported(d, matches)
    ensures IsDeviceSuitable(d.(support := support), matches) == IsDeviceSuitable(d, matches)
  {
  }

  /** A fully capable discrete GPU outscores every device that is not discrete. */
  lemma DiscreteCapableBeatsIntegrated(best: PhysicalDevice, other: PhysicalDevice, matches: NameMatch)
    requires IsDiscrete(best) && FullyCapable(best, matches)
    requires !IsDiscrete(other)
    ensures IsDeviceSuitable(other, matches) < IsDeviceSuitable(best, matches)
  {
  }

  /** With the address comparison the code performs, no device whose reported
      names live in its own storage is ever fully capable: it earns neither the
      extension term nor the surface terms, so at most 201 beyond the type term. */
  lemma AsWrittenScoreIgnoresSurface(d: PhysicalDevice)
    requires forall j :: 0 <= j < |d.extensions| ==> d.extensions[j].extensionName.storage != SwapchainNameStorage
    ensures !FullyCapable(d, SameStorage)
    ensures IsDeviceSuitable(d, SameStorage) % 1000 <= 201
    ensures IsDeviceSuitable(d, SameStorage) <= 1201
  {
    AsWrittenNeverSupported(d.extensions);
  }

  predicate IsNonNull(d: PhysicalDevice) { d.handle != NullHandle }

  /** `std::ranges::max_element` over the non-null devices, continued from
      `from` with `largest` the best index so far: it moves only on a strictly
      higher score, so it ends on the FIRST device of maximal score. */
  function MaxElementFrom(devices: seq<PhysicalDevice>, matches: NameMatch, from: nat, largest: nat): (r: nat)
    requires largest < from <= |devices|
    requires IsNonNull(devices[largest])
    requires forall j :: 0 <= j < from && IsNonNull(devices[j]) ==>
      IsDeviceSuitable(devices[j], matches) <= IsDeviceSuitable(devices[largest], matches)
    requires forall j :: 0 <= j < largest && IsNonNull(devices[j]) ==>
      IsDeviceSuitable(devices[j], matches) < IsDeviceSuitable(devices[largest], matches)
    ensures r < |devices| && IsNonNull(devices[r])
    ensures forall j :: 0 <= j < |devices| && IsNonNull(devices[j]) ==>
      IsDeviceSuitable(devices[j], matches) <= IsDeviceSuitable(devices[r], matches)
    ensures forall j :: 0 <= j < r && IsNonNull(devices[j]) ==>
      IsDeviceSuitable(devices[j], matches) < IsDeviceSuitable(devices[r], matches)
    decreases |devices| - from
  {
    if from == |devices| then largest
    else if IsNonNull(devices[from]) && IsDeviceSuitable(devices[largest], matches) < IsDeviceSuitable(devices[from], matches)
    then MaxElementFrom(devices, matches, from + 1, from)
    else MaxElementFrom(devices, matches, from + 1, largest)
  }

  const NoVulkanGpu := RuntimeError("Failed to find GPUs with Vulkan support!")
  const NoSuitableGpu := RuntimeError("Failed to find a suitable GPU")
  const NoCapableGpu := RuntimeError("Failed to find GPUs with required features enabled!")

  /** `pick_physical_device`: the first non-null device of highest score, or one
      of three failures. */
  function PickPhysicalDevice(devices: seq<PhysicalDevice>, matches: NameMatch): (r: Result<PhysicalDevice>)
    ensures r == Err(NoVulkanGpu) <==> |devices| == 0
    ensures r == Err(NoSuitableGpu) <==>
      |devices| > 0 && forall j :: 0 <= j < |devices| ==> !IsNonNull(devices[j])
    ensures r == Err(NoCapableGpu) <==>
      (exists j :: 0 <= j < |devices| && IsNonNull(devices[j])) &&
      (forall j :: 0 <= j < |devices| && IsNonNull(devices[j]) ==> IsDeviceSuitable(devices[j], matches) == 0)
    ensures r.Ok? <==>
      exists j :: 0 <= j < |devices| && IsNonNull(devices[j]) && IsDeviceSuitable(devices[j], matches) > 0
    ensures r.Err? ==> r.error in {NoVulkanGpu, NoSuitableGpu, NoCapableGpu}
    ensures r.Ok? ==> r.value in devices && IsNonNull(r.value) && IsDeviceSuitable(r.value, matches) > 0
    ensures r.Ok? ==> forall j :: 0 <= j < |devices| && IsNonNull(devices[j]) ==>
      IsDeviceSuitable(devices[j], matches) <= IsDeviceSuitable(r.value, matches)
    ensures r.Ok? ==>
      exists i :: 0 <= i < |devices| && devices[i] == r.value &&
        forall j :: 0 <= j < i && IsNonNull(devices[j]) ==>
          IsDeviceSuitable(devices[j], matches) < IsDeviceSuitable(r.value, matches)
  {
    if |devices| == 0 then Err(NoVulkanGpu)
    else match FindIf(devices, IsNonNull)
      case None => Err(NoSuitableGpu)
      case Some(first) =>
        var best := MaxElementFrom(devices, matches, first + 1, first);
        if IsDeviceSuitable(devices[best], matches) != 0 then Ok(devices[best]) else Err(NoCapableGpu)
  }

  /** A non-null device that outscores every other non-null device is the one picked. */
  lemma {:induction false} PickChoosesStrictBest(devices: seq<PhysicalDevice>, matches: NameMatch, i: nat)
    requires i < |devices| && IsNonNull(devices[i]) && IsDeviceSuitable(devices[i], matches) > 0
    requires forall j :: 0 <= j < |devices| && j != i && IsNonNull(devices[j]) ==>
      IsDeviceSuitable(devices[j], matches) < IsDeviceSuitable(devices[i], matches)
    ensures PickPhysicalDevice(devices, matches) == Ok(devices[i])
  {
    var r := PickPhysicalDevice(devices, matches);
    assert r.Ok?;
    var k :| 0 <= k < |devices| && devices[k] == r.value &&
      (forall j :: 0 <= j < k && IsNonNull(devices[j]) ==>
        IsDeviceSuitable(devices[j], matches) < IsDeviceSuitable(r.value, matches));
    assert IsDeviceSuitable(devices[i], matches) <= IsDeviceSuitable(devices[k], matches);
  }

  /** Two integrated GPUs with one queue family that does both graphics and
      presentation. The first reports the swapchain extension and one surface
      format and present mode; the second reports no extension but has
      geometry shaders. As written the second is picked (201 against 200);
      with names compared by text the first is (700 against 201). */
  lemma AsWrittenPicksWrongDevice()
    ensures var support := SwapChainSupportDetails(
              SurfaceCapabilities(2, 0, Extent2D(800, 600), Extent2D(1, 1), Extent2D(4096, 4096), 1),
              [PreferredFormat], [PresentModeFifo]);
      var a := PhysicalDevice(1, 1, false, [QueueFamily(QueueGraphicsBit, true)],
                              [ExtensionProperties(CString(1, "VK_KHR_swapchain"), 70)], support);
      var b := PhysicalDevice(2, 1, true, [QueueFamily(QueueGraphicsBit, true)], [], support);
      && PickPhysicalDevice([a, b], SameStorage) == Ok(b)
      && PickPhysicalDevice([a, b], SameText) == Ok(a)
  {
    var support := SwapChainSupportDetails(
      SurfaceCapabilities(2, 0, Extent2D(800, 600), Extent2D(1, 1), Extent2D(4096, 4096), 1),
      [PreferredFormat], [PresentModeFifo]);
    var a := PhysicalDevice(1, 1, false, [QueueFamily(QueueGraphicsBit, true)],
                            [ExtensionProperties(CString(1, "VK_KHR_swapchain"), 70)], support);
    var b := PhysicalDevice(2, 1, true, [QueueFamily(QueueGraphicsBit, true)], [], support);
    assert QueueFamiliesOf(a.queueFamilies).IsGraphicsSupported();
    assert QueueFamiliesOf(a.queueFamilies).IsPresentationSupported();
    AsWrittenScoreIgnoresSurface(a);
    assert IsDeviceSuitable(a, SameStorage) == 200;
    assert IsDeviceSuitable(b, SameStorage) == 201;
    PickChoosesStrictBest([a, b], SameStorage, 1);
    assert SameText(a.extensions[0], SwapchainExtensionName);
    assert ExtensionsSupported(a, SameText);
    assert IsDeviceSuitable(a, SameText) == 700;
    assert IsDeviceSuitable(b, SameText) == 201;
    PickChoosesStrictBest([a, b], SameText, 0);
  }

  /** `supported_layers`: the validation layer the program enables. */
  const SupportedLayers: seq<string> := ["VK_LAYER_KHRONOS_validation"]

  /** Some name in `available` equals `element` in the `strncmp(…, 256)` sense. */
  function Lists(available: seq<string>, element: string): (r: bool)
    ensures r <==> exists j :: 0 <= j < |available| && StrnEqual(available[j], element, 256)
  {
    if |available| == 0 then false
    else StrnEqual(available[0], element, 256) || Lists(available[1..], element)
  }

  /** `contains(in, is)`, whose sense is inverted: true exactly when some name of
      `required` is MISSING from `available`. */
  function Contains(available: seq<string>, required: seq<string>): (r: bool)
    ensures r <==> exists i :: 0 <= i < |required| && !Lists(available, required[i])
  {
    if |required| == 0 then false
    else !Lists(available, required[0]) || Contains(available, required[1..])
  }

  /** The layer check in `create_instance`, followed by `vkCreateInstance`'s
      result: it throws exactly when the validation layer is not available. */
  function CreateInstance(availableLayers: seq<string>, createResult: VkResult): (r: Outcome)
    ensures r == Fail(RuntimeError("Layers not supported!")) <==>
      "VK_LAYER_KHRONOS_validation" !in availableLayers
    ensures r == Pass <==> "VK_LAYER_KHRONOS_validation" in availableLayers && createResult == VkSuccess
    ensures r.Fail? && "VK_LAYER_KHRONOS_validation" in availableLayers ==>
      r.error == RuntimeError("failed to create instance!")
  {
    forall j | 0 <= j < |availableLayers| {
      StrnEqualShort(availableLayers[j], "VK_LAYER_KHRONOS_validation", 256);
    }
    assert Contains(availableLayers, SupportedLayers) <==> !Lists(availableLayers, SupportedLayers[0]);
    if Contains(availableLayers, SupportedLayers) then Fail(RuntimeError("Layers not supported!"))
    else if createResult != VkSuccess then Fail(RuntimeError("failed to create instance!"))
    else Pass
  }
}
