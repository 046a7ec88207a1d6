/** How HelloTriangleApplication picks the swapchain's parameters from what the surface
    supports: the surface format, the present mode, the image extent and the image count. */
module SwapChainChoices {
  import opened VulkanTypes

  /** {B8G8R8A8_UNORM, SRGB_NONLINEAR}: the surface format the application prefers. */
  const PREFERRED_SURFACE_FORMAT := SurfaceFormat(FORMAT_B8G8R8A8_UNORM, COLOR_SPACE_SRGB_NONLINEAR)

  /** The surface's way of saying that it accepts any format: a single entry whose format is
      UNDEFINED. */
  predicate AcceptsAnyFormat(available: seq<SurfaceFormat>) {
    |available| == 1 && available[0].format == FORMAT_UNDEFINED
  }

  /** The surface format ChooseSwapSurfaceFormat settles on: the preferred format when the
      surface accepts any format or lists the preferred one, otherwise its first format. */
  function SurfaceFormatPreference(available: seq<SurfaceFormat>): (r: SurfaceFormat)
    requires |available| > 0
    ensures r in available || AcceptsAnyFormat(available)
    ensures r == PREFERRED_SURFACE_FORMAT <==>
              AcceptsAnyFormat(available) || PREFERRED_SURFACE_FORMAT in available
    ensures r != PREFERRED_SURFACE_FORMAT ==> r == available[0]
  {
    if AcceptsAnyFormat(available) || PREFERRED_SURFACE_FORMAT in available then
      PREFERRED_SURFACE_FORMAT
    else
      available[0]
  }

  /** The special case first, then a search for the preferred format, then the first format. */
  method ChooseSwapSurfaceFormat(availableFormats: seq<SurfaceFormat>) returns (chosen: SurfaceFormat)
    requires |availableFormats| > 0
    ensures chosen == SurfaceFormatPreference(availableFormats)
  {
    if |availableFormats| == 1 && availableFormats[0].format == FORMAT_UNDEFINED {
      return SurfaceFormat(FORMAT_B8G8R8A8_UNORM, COLOR_SPACE_SRGB_NONLINEAR);
    }
    for i := 0 to |availableFormats|
      invariant PREFERRED_SURFACE_FORMAT !in availableFormats[..i]
    {
      var available := availableFormats[i];
      if available.format == FORMAT_B8G8R8A8_UNORM && available.colorSpace == COLOR_SPACE_SRGB_NONLINEAR {
        return available;
      }
    }
    assert availableFormats[..|availableFormats|] == availableFormats;
    return availableFormats[0];
  }

  /** The ranking of present modes: MAILBOX above IMMEDIATE above FIFO; the other modes are
      never chosen. */
  function PresentModeRank(mode: PresentMode): nat {
    match mode
    case Mailbox => 3
    case Immediate => 2
    case Fifo => 1
    case _ => 0
  }

  /** The present mode ChooseSwapPresentMode settles on. FIFO is the fallback, since every
      surface supports it even when the driver does not list it. */
  function PresentModePreference(available: seq<PresentMode>): (r: PresentMode)
    ensures PresentModeRank(r) > 0
    ensures r in available || r == Fifo
    ensures forall mode :: mode in available ==> PresentModeRank(mode) <= PresentModeRank(r)
  {
    if Mailbox in available then Mailbox
    else if Immediate in available then Immediate
    else Fifo
  }

  /** Only the set of modes that occur matters, not their order or how often they occur. */
  lemma PresentModePreferenceDependsOnlyOnModesPresent(a: seq<PresentMode>, b: seq<PresentMode>)
    requires forall mode :: mode in a <==> mode in b
    ensures PresentModePreference(a) == PresentModePreference(b)
  {
  }

  /** A search that returns at the first MAILBOX and otherwise remembers whether IMMEDIATE
      was seen. */
  method ChooseSwapPresentMode(availablePresentModes: seq<PresentMode>) returns (chosen: PresentMode)
    ensures chosen == PresentModePreference(availablePresentModes)
  {
    var immediateAvailable := false;
    for i := 0 to |availablePresentModes|
      invariant Mailbox !in availablePresentModes[..i]
      invariant immediateAvailable <==> Immediate in availablePresentModes[..i]
    {
      var available := availablePresentModes[i];
      if available == Mailbox {
        return available;
      } else if available == Immediate {
        immediateAvailable := true;
      }
    }
    assert availablePresentModes[..|availablePresentModes|] == availablePresentModes;
    if immediateAvailable {
      return Immediate;
    }
    return Fifo;
  }

  /** std::max and std::min on uint32_t. */
  function Max(a: uint32, b: uint32): uint32 { if a < b then b else a }
  function Min(a: uint32, b: uint32): uint32 { if b < a then b else a }

  /** v is x clamped into [lo, hi] with lo taking precedence: never below lo, never above hi
      unless hi < lo, and x itself when x already lies within the bounds. */
  predicate ClampedInto(v: int, x: int, lo: int, hi: int) {
    && lo <= v
    && (lo <= hi ==> v <= hi)
    && (lo <= x <= hi ==> v == x)
    && (x < lo ==> v == lo)
    && (lo <= hi < x ==> v == hi)
    && (hi < lo ==> v == lo)
  }

  /** The image extent: the surface's currentExtent unless its width is the UINT32_MAX
      sentinel, in which case the window size clamped into the surface's bounds. */
  function ChooseSwapExtent(capabilities: SurfaceCapabilities, window: Extent2D): (extent: Extent2D)
    ensures capabilities.currentExtent.width != UINT32_MAX ==> extent == capabilities.currentExtent
    ensures capabilities.currentExtent.width == UINT32_MAX ==>
              ClampedInto(extent.width, window.width,
                          capabilities.minImageExtent.width, capabilities.maxImageExtent.width)
    ensures capabilities.currentExtent.width == UINT32_MAX ==>
              ClampedInto(extent.height, window.height,
                          capabilities.minImageExtent.height, capabilities.maxImageExtent.height)
  {
    if capabilities.currentExtent.width != UINT32_MAX then
      capabilities.currentExtent
    else
      Extent2D(Max(capabilities.minImageExtent.width, Min(capabilities.maxImageExtent.width, window.width)),
               Max(capabilities.minImageExtent.height, Min(capabilities.maxImageExtent.height, window.height)))
  }

  /** ClampedInto pins down a single value, so ChooseSwapExtent's contract determines its result. */
  lemma ClampedIntoIsUnique(v: int, w: int, x: int, lo: int, hi: int)
    requires ClampedInto(v, x, lo, hi) && ClampedInto(w, x, lo, hi)
    ensures v == w
  {
  }

  /** The number of swapchain images requested: one more than the surface's minimum, as a
      `uint32_t` sum, lowered to the maximum when the surface has one (maxImageCount != 0). */
  function RequestedImageCount(capabilities: SurfaceCapabilities): (count: uint32)
    ensures capabilities.maxImageCount != 0 ==> count <= capabilities.maxImageCount
    ensures capabilities.minImageCount < UINT32_MAX &&
            (capabilities.maxImageCount == 0 || capabilities.minImageCount < capabilities.maxImageCount)
            ==> count == capabilities.minImageCount + 1
    ensures capabilities.minImageCount < UINT32_MAX &&
            capabilities.maxImageCount != 0 && capabilities.maxImageCount <= capabilities.minImageCount
            ==> count == capabilities.maxImageCount
    ensures capabilities.minImageCount < UINT32_MAX &&
            (capabilities.maxImageCount == 0 || capabilities.minImageCount <= capabilities.maxImageCount)
            ==> capabilities.minImageCount <= count
    ensures capabilities.minImageCount == UINT32_MAX ==> count == 0
  {
    var next: uint32 := (capabilities.minImageCount + 1) % 0x1_0000_0000;
    if capabilities.maxImageCount != 0 && next > capabilities.maxImageCount then
      capabilities.maxImageCount
    else
      next
  }
}
