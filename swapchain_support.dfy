/** Swapchain parameter selection: which extent, surface format, present mode,
    image count and sharing mode the program asks the driver for. */
module SwapChainSupport {
  import opened VkTypes
  import opened QueueFamilies

  datatype Extent2D = Extent2D(width: uint32, height: uint32)

  /** The fields of `VkSurfaceCapabilitiesKHR` the selection reads. */
  datatype SurfaceCapabilities = SurfaceCapabilities(
    minImageCount: uint32,
    maxImageCount: uint32,
    currentExtent: Extent2D,
    minImageExtent: Extent2D,
    maxImageExtent: Extent2D,
    currentTransform: uint32)

  datatype SurfaceFormat = SurfaceFormat(format: uint32, colorSpace: uint32)

  type PresentMode = uint32

  /** What the three surface queries report for a device and surface. */
  datatype SwapChainSupportDetails = SwapChainSupportDetails(
    capabilities: SurfaceCapabilities,
    formats: seq<SurfaceFormat>,
    presentModes: seq<PresentMode>)

  /** The window's framebuffer size in pixels, as the window system reports it (C `int`s). */
  datatype FramebufferSize = FramebufferSize(width: int, height: int)

  const FormatB8G8R8A8Srgb: uint32 := 50
  const ColorSpaceSrgbNonlinear: uint32 := 0
  const PresentModeMailbox: PresentMode := 1
  const PresentModeFifo: PresentMode := 2
  const ImageUsageColorAttachmentBit: uint32 := 0x10
  const CompositeAlphaOpaqueBit: uint32 := 1

  const PreferredFormat := SurfaceFormat(FormatB8G8R8A8Srgb, ColorSpaceSrgbNonlinear)

  datatype SharingMode = Exclusive | Concurrent

  /** The fields of `VkSwapchainCreateInfoKHR` the program sets;
      `queueFamilyIndexCount` is the length of `queueFamilyIndices`. */
  datatype SwapchainCreateInfo = SwapchainCreateInfo(
    surface: Handle,
    minImageCount: uint32,
    imageFormat: uint32,
    imageColorSpace: uint32,
    imageExtent: Extent2D,
    imageArrayLayers: uint32,
    imageUsage: uint32,
    imageSharingMode: SharingMode,
    queueFamilyIndices: seq<nat>,
    preTransform: uint32,
    compositeAlpha: uint32,
    presentMode: PresentMode,
    clipped: bool,
    oldSwapchain: Handle)
  {
    function QueueFamilyIndexCount(): nat { |queueFamilyIndices| }
  }

  /** `std::clamp(v, lo, hi)`, whose behaviour is undefined unless `lo <= hi`. */
  function Clamp(v: uint32, lo: uint32, hi: uint32): (r: uint32)
    requires lo <= hi
    ensures lo <= r <= hi
    ensures lo <= v <= hi ==> r == v
    ensures v < lo ==> r == lo
    ensures hi < v ==> r == hi
  {
    if v < lo then lo else if hi < v then hi else v
  }

  predicate ExtentBoundsOrdered(caps: SurfaceCapabilities)
  {
    caps.minImageExtent.width <= caps.maxImageExtent.width &&
    caps.minImageExtent.height <= caps.maxImageExtent.height
  }

  /** Within [minImageExtent, maxImageExtent] component-wise. */
  predicate WithinImageExtent(e: Extent2D, caps: SurfaceCapabilities)
  {
    caps.minImageExtent.width <= e.width <= caps.maxImageExtent.width &&
    caps.minImageExtent.height <= e.height <= caps.maxImageExtent.height
  }

  /** `chooseSwapExtent`: the surface's current extent when it defines one;
      under the "undefined" sentinel width, the framebuffer size clamped onto
      the surface limits. */
  function ChooseSwapExtent(fb: FramebufferSize, caps: SurfaceCapabilities): (r: Extent2D)
    requires caps.currentExtent.width == Uint32Max ==> ExtentBoundsOrdered(caps)
    ensures caps.currentExtent.width != Uint32Max ==> r == caps.currentExtent
    ensures caps.currentExtent.width == Uint32Max ==> WithinImageExtent(r, caps)
    ensures caps.currentExtent.width == Uint32Max &&
            WithinImageExtent(Extent2D(ToUint32(fb.width), ToUint32(fb.height)), caps) ==>
              r == Extent2D(ToUint32(fb.width), ToUint32(fb.height))
    ensures caps.currentExtent.width == Uint32Max &&
            caps.minImageExtent.width <= ToUint32(fb.width) <= caps.maxImageExtent.width ==>
              r.width == ToUint32(fb.width)
    ensures caps.currentExtent.width == Uint32Max &&
            caps.minImageExtent.height <= ToUint32(fb.height) <= caps.maxImageExtent.height ==>
              r.height == ToUint32(fb.height)
    ensures caps.currentExtent.width == Uint32Max ==>
      (ToUint32(fb.width) < caps.minImageExtent.width ==> r.width == caps.minImageExtent.width) &&
      (ToUint32(fb.width) > caps.maxImageExtent.width ==> r.width == caps.maxImageExtent.width) &&
      (ToUint32(fb.height) < caps.minImageExtent.height ==> r.height == caps.minImageExtent.height) &&
      (ToUint32(fb.height) > caps.maxImageExtent.height ==> r.height == caps.maxImageExtent.height)
  {
    if caps.currentExtent.width != Uint32Max then caps.currentExtent
    else
      Extent2D(
        Clamp(ToUint32(fb.width), caps.minImageExtent.width, caps.maxImageExtent.width),
        Clamp(ToUint32(fb.height), caps.minImageExtent.height, caps.maxImageExtent.height))
  }

  predicate IsPreferredFormat(f: SurfaceFormat)
  {
    f.format == FormatB8G8R8A8Srgb && f.colorSpace == ColorSpaceSrgbNonlinear
  }

  /** `chooseSwapSurfaceFormat`: the first 8-bit BGRA sRGB-nonlinear entry, or
      else the first entry (dereferencing `begin()` of an empty list is undefined). */
  function ChooseSwapSurfaceFormat(formats: seq<SurfaceFormat>): (r: SurfaceFormat)
    requires |formats| > 0
    ensures r in formats
    ensures PreferredFormat in formats ==> r == PreferredFormat
    ensures PreferredFormat !in formats ==> r == formats[0]
  {
    match FindIf(formats, IsPreferredFormat)
    case Some(i) => formats[i]
    case None => formats[0]
  }

  /** When the preferred format is offered, where it sits in the list does not matter. */
  lemma FormatChoiceIgnoresOrder(formats: seq<SurfaceFormat>, reordered: seq<SurfaceFormat>)
    requires multiset(formats) == multiset(reordered)
    requires PreferredFormat in formats
    ensures |formats| > 0 && |reordered| > 0
    ensures ChooseSwapSurfaceFormat(formats) == ChooseSwapSurfaceFormat(reordered)
  {
    assert PreferredFormat in multiset(reordered);
  }

  predicate IsMailbox(m: PresentMode) { m == PresentModeMailbox }

  /** `chooseSwapPresentMode`: mailbox when offered, otherwise FIFO, whether or
      not FIFO is in the list. */
  function ChooseSwapPresentMode(modes: seq<PresentMode>): (r: PresentMode)
    ensures r == PresentModeMailbox || r == PresentModeFifo
    ensures r == PresentModeMailbox <==> PresentModeMailbox in modes
  {
    match FindIf(modes, IsMailbox)
    case Some(i) => modes[i]
    case None => PresentModeFifo
  }

  /** The image count requested: one more than the minimum (a `uint32_t` sum),
      lowered to the maximum when the surface sets a nonzero maximum below it. */
  function ImageCount(caps: SurfaceCapabilities): (r: uint32)
    ensures caps.maxImageCount > 0 ==> r <= caps.maxImageCount
    ensures caps.minImageCount < Uint32Max &&
            (caps.maxImageCount == 0 || caps.minImageCount < caps.maxImageCount) ==>
              r == caps.minImageCount + 1
    ensures caps.minImageCount < Uint32Max && 0 < caps.maxImageCount <= caps.minImageCount ==>
              r == caps.maxImageCount
    ensures caps.minImageCount < Uint32Max && caps.minImageCount <= caps.maxImageCount ==>
              caps.minImageCount <= r
    ensures caps.minImageCount == Uint32Max ==> r == 0
  {
    var imageCount := ToUint32(caps.minImageCount + 1);
    if caps.maxImageCount > 0 && imageCount > caps.maxImageCount then caps.maxImageCount
    else imageCount
  }

  lemma ImageCountExamples()
    ensures ImageCount(SurfaceCapabilities(2, 0, Extent2D(0, 0), Extent2D(0, 0), Extent2D(0, 0), 0)) == 3
    ensures ImageCount(SurfaceCapabilities(2, 2, Extent2D(0, 0), Extent2D(0, 0), Extent2D(0, 0), 0)) == 2
  {
  }

  /** Images shared by two different families are declared concurrent and list
      both families; one family gets exclusive access and no list. */
  function SharingFor(indices: QueueFamilyIndices): (r: (SharingMode, seq<nat>))
    requires indices.graphicsFamily.Some? && indices.presentationFamily.Some?
    ensures r.0 == Concurrent <==> indices.graphicsFamily != indices.presentationFamily
    ensures r.0 == Concurrent ==>
      r.1 == [indices.graphicsFamily.value, indices.presentationFamily.value] && |r.1| == 2
    ensures r.0 == Exclusive ==> r.1 == []
  {
    if indices.graphicsFamily != indices.presentationFamily
    then (Concurrent, [indices.graphicsFamily.value, indices.presentationFamily.value])
    else (Exclusive, [])
  }

  /** `createSwapChainInfo`: combines the choices above for a device's support
      details and queue families; `optional::value()` throws when either family
      is missing. */
  function CreateSwapChainInfo(
    fb: FramebufferSize, surface: Handle, support: SwapChainSupportDetails,
    families: seq<QueueFamily>, oldSwapchain: Handle): (r: Result<SwapchainCreateInfo>)
    requires |support.formats| > 0
    requires support.capabilities.currentExtent.width == Uint32Max ==> ExtentBoundsOrdered(support.capabilities)
    ensures r.Err? <==> !QueueFamiliesOf(families).IsGraphicsSupported() ||
                        !QueueFamiliesOf(families).IsPresentationSupported()
    ensures r.Err? ==> r.error == BadOptionalAccess
    ensures r.Ok? ==>
      var info, caps := r.value, support.capabilities;
      && SurfaceFormat(info.imageFormat, info.imageColorSpace) == ChooseSwapSurfaceFormat(support.formats)
      && SurfaceFormat(info.imageFormat, info.imageColorSpace) in support.formats
      && (PreferredFormat !in support.formats ==>
            SurfaceFormat(info.imageFormat, info.imageColorSpace) == support.formats[0])
      && (PreferredFormat in support.formats ==>
            SurfaceFormat(info.imageFormat, info.imageColorSpace) == PreferredFormat)
      && (info.presentMode == PresentModeMailbox <==> PresentModeMailbox in support.presentModes)
      && (info.presentMode == PresentModeMailbox || info.presentMode == PresentModeFifo)
      && info.imageUsage == ImageUsageColorAttachmentBit && info.compositeAlpha == CompositeAlphaOpaqueBit
      && info.clipped
      && info.imageExtent == ChooseSwapExtent(fb, caps)
      && info.minImageCount == ImageCount(caps)
      && info.preTransform == caps.currentTransform
      && info.surface == surface && info.oldSwapchain == oldSwapchain
      && info.imageArrayLayers == 1
    ensures r.Ok? ==>
      var info, q := r.value, QueueFamiliesOf(families);
      && (info.imageSharingMode == Concurrent <==> q.graphicsFamily != q.presentationFamily)
      && (info.imageSharingMode == Concurrent ==>
            info.QueueFamilyIndexCount() == 2 &&
            info.queueFamilyIndices == [q.graphicsFamily.value, q.presentationFamily.value])
      && (info.imageSharingMode == Exclusive ==> info.QueueFamilyIndexCount() == 0)
  {
    var caps := support.capabilities;
    var surfaceFormat := ChooseSwapSurfaceFormat(support.formats);
    var presentMode := ChooseSwapPresentMode(support.presentModes);
    var extent := ChooseSwapExtent(fb, caps);
    var queueIndices := QueueFamiliesOf(families);
    if queueIndices.graphicsFamily.None? || queueIndices.presentationFamily.None? then
      Err(BadOptionalAccess)
    else
      var sharing := SharingFor(queueIndices);
      Ok(SwapchainCreateInfo(
        surface := surface,
        minImageCount := ImageCount(caps),
        imageFormat := surfaceFormat.format,
        imageColorSpace := surfaceFormat.colorSpace,
        imageExtent := extent,
        imageArrayLayers := 1,
        imageUsage := ImageUsageColorAttachmentBit,
        imageSharingMode := sharing.0,
        queueFamilyIndices := sharing.1,
        preTransform := caps.currentTransform,
        compositeAlpha := CompositeAlphaOpaqueBit,
        presentMode := presentMode,
        clipped := true,
        oldSwapchain := oldSwapchain))
  }
}
