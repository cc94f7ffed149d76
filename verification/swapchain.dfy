/** The swapchain set-up choices of `VulkanSwapchain.cpp`: surface format,
    present mode, extent, image count, sharing mode, and one colour view per
    swapchain image. The surface queries are inputs. */
module Swapchains {
  import opened Common
  import opened Vk

  /** VkColorSpaceKHR, by its numeric code. */
  type ColorSpace = nat

  const FORMAT_B8G8R8A8_SRGB: Format := 50
  const COLOR_SPACE_SRGB_NONLINEAR: ColorSpace := 0

  /** VkSurfaceFormatKHR. */
  datatype SurfaceFormat = SurfaceFormat(format: Format, colorSpace: ColorSpace)

  const PREFERRED_FORMAT: SurfaceFormat := SurfaceFormat(FORMAT_B8G8R8A8_SRGB, COLOR_SPACE_SRGB_NONLINEAR)

  /** VkPresentModeKHR. */
  datatype PresentMode = Immediate | Mailbox | Fifo | FifoRelaxed

  /** The fields of VkSurfaceCapabilitiesKHR the engine reads. */
  datatype SurfaceCapabilities = SurfaceCapabilities(
    minImageCount: nat,
    maxImageCount: nat,
    currentExtent: Extent2D,
    minImageExtent: Extent2D,
    maxImageExtent: Extent2D)

  /** `SwapChainSupportDetails`, as the surface queries fill it. */
  datatype SupportDetails = SupportDetails(
    capabilities: SurfaceCapabilities,
    formats: seq<SurfaceFormat>,
    presentModes: seq<PresentMode>)

  datatype SharingMode = Exclusive | Concurrent

  /** imageSharingMode with the queue family indices handed over. */
  datatype Sharing = Sharing(mode: SharingMode, familyIndices: seq<nat>)

  /** The parts of VkSwapchainCreateInfoKHR that vary. */
  datatype SwapchainCreateInfo = SwapchainCreateInfo(
    minImageCount: nat,
    surfaceFormat: SurfaceFormat,
    extent: Extent2D,
    imageArrayLayers: nat,
    sharing: Sharing,
    presentMode: PresentMode,
    clipped: bool,
    oldSwapchain: Handle)

  datatype SwapchainError =
    | MissingQueueFamily        // std::optional::value() on an empty optional
    | SwapchainCreationFailed
    | ViewCreationFailed(index: nat)

  /** `chooseSwapSurfaceFormat`: the first B8G8R8A8_SRGB / SRGB_NONLINEAR entry
      if there is one, else the first entry. The list is never empty: Vulkan
      reports at least one format / colour-space pair for a surface the
      device can present to, so the code's `formats[0]` fallback is in
      range. */
  function ChooseSwapSurfaceFormat(formats: seq<SurfaceFormat>): (r: SurfaceFormat)
    requires |formats| > 0
    ensures r in formats
    ensures r == PREFERRED_FORMAT <==> exists i :: 0 <= i < |formats| && formats[i] == PREFERRED_FORMAT
    ensures r != PREFERRED_FORMAT ==> r == formats[0]
  {
    var i := FirstIndex(formats, f => f == PREFERRED_FORMAT);
    if i < |formats| then formats[i] else formats[0]
  }

  /** `chooseSwapPresentMode`: MAILBOX when listed, otherwise FIFO, which the
      list need not contain. */
  function ChooseSwapPresentMode(modes: seq<PresentMode>): (r: PresentMode)
    ensures r == Mailbox <==> exists i :: 0 <= i < |modes| && modes[i] == Mailbox
    ensures r != Mailbox ==> r == Fifo
  {
    var i := FirstIndex(modes, m => m == Mailbox);
    if i < |modes| then modes[i] else Fifo
  }

  /** `static_cast<uint32_t>` of an `int`: reduction modulo 2^32. */
  function ToUint32(x: int): (r: nat)
    ensures r <= UINT32_MAX
    ensures 0 <= x <= UINT32_MAX ==> r == x
    ensures (r - x) % 0x1_0000_0000 == 0
  {
    x % 0x1_0000_0000
  }

  /** `std::max(lo, std::min(hi, x))`. */
  function Clamp(lo: nat, hi: nat, x: nat): (r: nat)
    ensures lo <= hi ==> lo <= r <= hi
    ensures lo <= x <= hi ==> r == x
    ensures hi < lo ==> r == lo
  {
    Max(lo, Min(hi, x))
  }

  /** `chooseSwapExtent` as written: the height's lower bound is the minimum
      WIDTH. `fbWidth`/`fbHeight` are what glfwGetFramebufferSize reports. */
  function ChooseSwapExtentAsWritten(caps: SurfaceCapabilities, fbWidth: int, fbHeight: int): (r: Extent2D)
    ensures caps.currentExtent.width != UINT32_MAX ==> r == caps.currentExtent
    ensures caps.currentExtent.width == UINT32_MAX ==>
      && r.width == Clamp(caps.minImageExtent.width, caps.maxImageExtent.width, ToUint32(fbWidth))
      && r.height == Clamp(caps.minImageExtent.width, caps.maxImageExtent.height, ToUint32(fbHeight))
  {
    if caps.currentExtent.width != UINT32_MAX then caps.currentExtent
    else
      Extent2D(Clamp(caps.minImageExtent.width, caps.maxImageExtent.width, ToUint32(fbWidth)),
               Clamp(caps.minImageExtent.width, caps.maxImageExtent.height, ToUint32(fbHeight)))
  }

  /** `chooseSwapExtent` with each dimension clamped into its own range: the
      surface's extent when it reports one, else the framebuffer size clamped
      into [minImageExtent, maxImageExtent]. */
  function ChooseSwapExtent(caps: SurfaceCapabilities, fbWidth: int, fbHeight: int): (r: Extent2D)
    ensures caps.currentExtent.width != UINT32_MAX ==> r == caps.currentExtent
    ensures caps.currentExtent.width == UINT32_MAX ==>
      && (caps.minImageExtent.width <= caps.maxImageExtent.width ==>
            caps.minImageExtent.width <= r.width <= caps.maxImageExtent.width)
      && (caps.minImageExtent.height <= caps.maxImageExtent.height ==>
            caps.minImageExtent.height <= r.height <= caps.maxImageExtent.height)
    ensures caps.currentExtent.width == UINT32_MAX &&
            caps.minImageExtent.width <= fbWidth <= caps.maxImageExtent.width &&
            caps.minImageExtent.height <= fbHeight <= caps.maxImageExtent.height &&
            fbWidth <= UINT32_MAX && fbHeight <= UINT32_MAX ==>
      r == Extent2D(fbWidth, fbHeight)
  {
    if caps.currentExtent.width != UINT32_MAX then caps.currentExtent
    else
      Extent2D(Clamp(caps.minImageExtent.width, caps.maxImageExtent.width, ToUint32(fbWidth)),
               Clamp(caps.minImageExtent.height, caps.maxImageExtent.height, ToUint32(fbHeight)))
  }

  /** A surface allowing heights 100..600 and widths 800..1000, with no
      current extent and a 900x500 framebuffer: the height as written comes
      out as 800, above the maximum height, while the per-dimension clamp
      keeps the framebuffer's 500. */
  lemma HeightClampUsesMinWidth()
    ensures var caps := SurfaceCapabilities(2, 3, Extent2D(UINT32_MAX, UINT32_MAX), Extent2D(800, 100), Extent2D(1000, 600));
      && ChooseSwapExtentAsWritten(caps, 900, 500).height == 800 > caps.maxImageExtent.height
      && ChooseSwapExtent(caps, 900, 500) == Extent2D(900, 500)
  {
  }

  /** The image count: `minImageCount`, lowered to `maxImageCount` when that
      is non-zero (zero meaning "no limit") and smaller. */
  function ImageCount(caps: SurfaceCapabilities): (r: nat)
    ensures r <= caps.minImageCount
    ensures caps.maxImageCount > 0 ==> r <= caps.maxImageCount
    ensures r == caps.minImageCount <==> caps.maxImageCount == 0 || caps.minImageCount <= caps.maxImageCount
    ensures caps.minImageCount > 0 ==> r > 0
  {
    if caps.maxImageCount > 0 && caps.minImageCount > caps.maxImageCount then caps.maxImageCount
    else caps.minImageCount
  }

  /** The sharing-mode choice: both optionals are read with `value()` first;
      CONCURRENT over both families when they differ, EXCLUSIVE otherwise. */
  function SharingFor(graphics: Option<nat>, present: Option<nat>): (r: Result<Sharing, SwapchainError>)
    ensures r.Ok? <==> graphics.Some? && present.Some?
    ensures r.Err? ==> r.error == MissingQueueFamily
    ensures r.Ok? ==> (r.value.mode == Concurrent <==> graphics.value != present.value)
    ensures r.Ok? && r.value.mode == Concurrent ==> r.value.familyIndices == [graphics.value, present.value]
    ensures r.Ok? && r.value.mode == Exclusive ==> r.value.familyIndices == []
  {
    if graphics.None? || present.None? then Err(MissingQueueFamily)
    else if graphics.value != present.value then Ok(Sharing(Concurrent, [graphics.value, present.value]))
    else Ok(Sharing(Exclusive, []))
  }

  /** `createSwapChainAndImageFormatExtent`: the create info from the four
      choices above (the extent as written), then vkCreateSwapchainKHR, whose
      failure (`createOk` false) throws. The swapchain handle is fresh. With
      two distinct families the code points pQueueFamilyIndices at an array
      local to the lambda that builds the create info (src/VulkanSwapchain.cpp:121-130),
      which has ended when vkCreateSwapchainKHR reads it (line 151); the
      model gives the intended indices [graphics, present]. The surface's
      format list is non-empty, as Vulkan guarantees for a surface the device
      presents to. */
  method CreateSwapchain(vk: Device, support: SupportDetails, fbWidth: int, fbHeight: int,
                         graphics: Option<nat>, present: Option<nat>, createOk: bool)
    returns (r: Result<(Handle, SwapchainCreateInfo), SwapchainError>)
    requires vk.Valid() && |support.formats| > 0
    modifies vk`nextHandle
    ensures vk.Valid()
    ensures r.Ok? <==> graphics.Some? && present.Some? && createOk
    ensures r.Err? ==> vk.nextHandle == old(vk.nextHandle)
    ensures r.Ok? ==>
      var (swapchain, info) := r.value;
      && swapchain == old(vk.nextHandle) && swapchain != NULL_HANDLE
      && info.minImageCount == ImageCount(support.capabilities)
      && info.surfaceFormat == ChooseSwapSurfaceFormat(support.formats)
      && info.extent == ChooseSwapExtentAsWritten(support.capabilities, fbWidth, fbHeight)
      && info.imageArrayLayers == 1
      && info.sharing == SharingFor(graphics, present).value
      && info.presentMode == ChooseSwapPresentMode(support.presentModes)
      && info.clipped && info.oldSwapchain == NULL_HANDLE
  {
    var surfaceFormat := ChooseSwapSurfaceFormat(support.formats);
    var presentMode := ChooseSwapPresentMode(support.presentModes);
    var extent := ChooseSwapExtentAsWritten(support.capabilities, fbWidth, fbHeight);
    var imageCount := support.capabilities.minImageCount;
    if support.capabilities.maxImageCount > 0 && imageCount > support.capabilities.maxImageCount {
      imageCount := support.capabilities.maxImageCount;
    }
    var sharing := SharingFor(graphics, present);
    if sharing.Err? {
      return Err(sharing.error);
    }
    var info := SwapchainCreateInfo(imageCount, surfaceFormat, extent, 1, sharing.value, presentMode, true, NULL_HANDLE);
    if !createOk {
      return Err(SwapchainCreationFailed);
    }
    var swapchain := vk.CreateHandle();
    return Ok((swapchain, info));
  }

  /** The subresource range every swapchain view uses: colour, one mip level,
      one layer. */
  const SWAPCHAIN_RANGE: SubresourceRange := SubresourceRange({ColorAspect}, 0, 1, 0, 1)

  /** `createSwapchainImageViews`: view i is a 2D colour view of image i in
      the swapchain's format. `viewOk(i)` is whether the i-th
      vkCreateImageView succeeds; the first failure throws. */
  method CreateSwapchainImageViews(vk: Device, format: Format, images: seq<Handle>, viewOk: nat -> bool)
    returns (r: Result<(seq<Handle>, seq<ImageViewInfo>), SwapchainError>)
    requires vk.Valid()
    modifies vk`nextHandle
    ensures vk.Valid()
    ensures r.Ok? <==> forall i :: 0 <= i < |images| ==> viewOk(i)
    ensures r.Err? ==>
      && r.error.ViewCreationFailed? && r.error.index < |images| && !viewOk(r.error.index)
      && forall i :: 0 <= i < r.error.index ==> viewOk(i)
    ensures r.Ok? ==>
      var (views, infos) := r.value;
      && views == HandleRange(old(vk.nextHandle), |images|) && Distinct(views)
      && NULL_HANDLE !in views
      && |infos| == |images|
      && forall i :: 0 <= i < |images| ==> infos[i] == ImageViewInfo(images[i], View2D, format, SWAPCHAIN_RANGE)
  {
    var views: seq<Handle> := [];
    var infos: seq<ImageViewInfo> := [];
    var i := 0;
    while i < |images|
      invariant 0 <= i <= |images| && vk.Valid()
      invariant forall k :: 0 <= k < i ==> viewOk(k)
      invariant views == HandleRange(old(vk.nextHandle), i) && vk.nextHandle == old(vk.nextHandle) + i
      invariant |infos| == i
      invariant forall k :: 0 <= k < i ==> infos[k] == ImageViewInfo(images[k], View2D, format, SWAPCHAIN_RANGE)
    {
      var ci := ImageViewInfo(images[i], View2D, format, SWAPCHAIN_RANGE);
      if !viewOk(i) {
        return Err(ViewCreationFailed(i));
      }
      var view := vk.CreateHandle();
      views := views + [view];
      infos := infos + [ci];
      i := i + 1;
    }
    return Ok((views, infos));
  }
}
