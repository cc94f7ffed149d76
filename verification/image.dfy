/** `render::memory::VulkanImage`: format classification, the aspect mask and
    view set-up of an allocated image, and the wrapper for images made
    elsewhere (the swapchain's). */
module Images {
  import opened Common
  import opened Vk

  /** The depth and stencil formats of VkFormat, by their numeric codes. */
  const FORMAT_D16_UNORM: Format := 124
  const FORMAT_X8_D24_UNORM_PACK32: Format := 125
  const FORMAT_D32_SFLOAT: Format := 126
  const FORMAT_S8_UINT: Format := 127
  const FORMAT_D16_UNORM_S8_UINT: Format := 128
  const FORMAT_D24_UNORM_S8_UINT: Format := 129
  const FORMAT_D32_SFLOAT_S8_UINT: Format := 130

  /** The six formats `hasDepth` looks for. */
  const DEPTH_FORMATS: seq<Format> := [FORMAT_D16_UNORM, FORMAT_X8_D24_UNORM_PACK32, FORMAT_D32_SFLOAT,
                                       FORMAT_D16_UNORM_S8_UINT, FORMAT_D24_UNORM_S8_UINT, FORMAT_D32_SFLOAT_S8_UINT]

  /** The four formats `hasStencil` looks for. */
  const STENCIL_FORMATS: seq<Format> := [FORMAT_S8_UINT, FORMAT_D16_UNORM_S8_UINT, FORMAT_D24_UNORM_S8_UINT,
                                         FORMAT_D32_SFLOAT_S8_UINT]

  /** VkImageUsageFlagBits; a usage word is a set of them. */
  datatype ImageUsage =
    | TransferSrc | TransferDst | Sampled | Storage
    | ColorAttachment | DepthStencilAttachment | TransientAttachment | InputAttachment

  /** `VulkanImageCreateInfo`. */
  datatype ImageCreateInfo = ImageCreateInfo(
    width: nat, height: nat, layerCount: nat, mipLevels: nat,
    format: Format, usage: set<ImageUsage>, samples: nat)

  datatype ImageError = EmptyAspectMask   // assert(aspectMask > 0)

  /** `hasDepth`: in the Vulkan numbering the depth formats are the codes
      124 to 130 except S8_UINT (127). */
  predicate HasDepth(format: Format)
    ensures HasDepth(format) <==> 124 <= format <= 130 && format != FORMAT_S8_UINT
  {
    format in DEPTH_FORMATS
  }

  /** `hasStencil`: the codes 127 to 130. */
  predicate HasStencil(format: Format)
    ensures HasStencil(format) <==> 127 <= format <= 130
  {
    format in STENCIL_FORMATS
  }

  /** `hasDepthOrStencil`: the codes 124 to 130. */
  predicate HasDepthOrStencil(format: Format)
    ensures HasDepthOrStencil(format) <==> 124 <= format <= 130
  {
    HasDepth(format) || HasStencil(format)
  }

  /** Every stencil format but S8_UINT also carries depth. */
  lemma CombinedFormatsHaveDepth(format: Format)
    requires HasStencil(format) && format != FORMAT_S8_UINT
    ensures HasDepth(format)
  {
  }

  /** The aspect mask of the allocating constructor as written: colour usage
      wins; otherwise, for a depth-stencil attachment, a depth format
      contributes the COLOR bit and a stencil format adds STENCIL. */
  function AspectMaskAsWritten(usage: set<ImageUsage>, format: Format): (r: set<Aspect>)
    ensures ColorAttachment in usage ==> r == {ColorAspect}
    ensures ColorAttachment !in usage ==>
      && (ColorAspect in r <==> DepthStencilAttachment in usage && HasDepth(format))
      && (StencilAspect in r <==> DepthStencilAttachment in usage && HasStencil(format))
    ensures r <= {ColorAspect, StencilAspect}
  {
    if ColorAttachment in usage then {ColorAspect}
    else if DepthStencilAttachment in usage then
      (if HasDepth(format) then {ColorAspect} else {}) + (if HasStencil(format) then {StencilAspect} else {})
    else {}
  }

  /** The aspect mask the code evidently means: DEPTH for a depth format. A
      colour attachment gets exactly COLOR; a depth-stencil attachment gets
      DEPTH iff its format has depth and STENCIL iff it has stencil, never
      COLOR; any other usage gets nothing. */
  function AspectMask(usage: set<ImageUsage>, format: Format): (r: set<Aspect>)
    ensures ColorAttachment in usage ==> r == {ColorAspect}
    ensures ColorAttachment !in usage && DepthStencilAttachment in usage ==>
      && ColorAspect !in r
      && (DepthAspect in r <==> HasDepth(format))
      && (StencilAspect in r <==> HasStencil(format))
    ensures ColorAttachment !in usage && DepthStencilAttachment !in usage ==> r == {}
  {
    if ColorAttachment in usage then {ColorAspect}
    else if DepthStencilAttachment in usage then
      (if HasDepth(format) then {DepthAspect} else {}) + (if HasStencil(format) then {StencilAspect} else {})
    else {}
  }

  /** A D32_SFLOAT depth attachment: as written its mask is COLOR; the
      intended mask is DEPTH. */
  lemma DepthFormatGetsColorAspect()
    ensures AspectMaskAsWritten({DepthStencilAttachment}, FORMAT_D32_SFLOAT) == {ColorAspect}
    ensures AspectMask({DepthStencilAttachment}, FORMAT_D32_SFLOAT) == {DepthAspect}
  {
    assert HasDepth(FORMAT_D32_SFLOAT) && !HasStencil(FORMAT_D32_SFLOAT);
  }

  /** The two masks are empty for the same inputs, so the correction never
      changes whether the constructor's assertion fires. */
  lemma {:induction false} AspectMasksEmptyTogether(usage: set<ImageUsage>, format: Format)
    ensures AspectMaskAsWritten(usage, format) == {} <==> AspectMask(usage, format) == {}
  {
    if ColorAttachment !in usage && DepthStencilAttachment in usage {
      if HasDepth(format) {
        assert ColorAspect in AspectMaskAsWritten(usage, format);
        assert DepthAspect in AspectMask(usage, format);
      } else if HasStencil(format) {
        assert StencilAspect in AspectMaskAsWritten(usage, format);
        assert StencilAspect in AspectMask(usage, format);
      }
    }
  }

  class VulkanImage {
    var vkImage: Handle
    var vkImageView: Handle
    var format: Format
    var subresourceRange: SubresourceRange
    /** Set by the wrapping constructor only. */
    var wrapped: bool

    /** The wrapping constructor: stores what it is given, unchanged. */
    constructor Wrap(image: Handle, imageView: Handle, format: Format, range: SubresourceRange)
      ensures vkImage == image && vkImageView == imageView
      ensures this.format == format && subresourceRange == range && wrapped
    {
      vkImage := image;
      vkImageView := imageView;
      this.format := format;
      subresourceRange := range;
      wrapped := true;
    }

    /** The end of the allocating constructor: the object holds what it made. */
    constructor Allocated(image: Handle, imageView: Handle, format: Format, range: SubresourceRange)
      ensures vkImage == image && vkImageView == imageView
      ensures this.format == format && subresourceRange == range && !wrapped
    {
      vkImage := image;
      vkImageView := imageView;
      this.format := format;
      subresourceRange := range;
      wrapped := false;
    }
  }

  /** The allocating constructor `VulkanImage(ci, allocator)`: the aspect mask
      (as written: COLOR for a depth format) must be non-empty; the stored
      range covers one mip level and all of `ci.layerCount` layers; the view
      is 2D for one layer and a 2D array otherwise, and its aspect is DEPTH
      alone for a depth format. The image and the view are fresh handles. */
  method NewImage(ci: ImageCreateInfo, vk: Device) returns (r: Result<(VulkanImage, ImageViewInfo), ImageError>)
    requires vk.Valid()
    modifies vk`nextHandle
    ensures vk.Valid()
    ensures r.Err? <==> AspectMaskAsWritten(ci.usage, ci.format) == {}
    ensures r.Err? ==> vk.nextHandle == old(vk.nextHandle)
    ensures r.Ok? ==>
      var (img, view) := r.value;
      && fresh(img) && !img.wrapped && img.format == ci.format
      && img.vkImage == old(vk.nextHandle) && img.vkImageView == old(vk.nextHandle) + 1
      && vk.nextHandle == old(vk.nextHandle) + 2
      && img.subresourceRange == SubresourceRange(AspectMaskAsWritten(ci.usage, ci.format), 0, 1, 0, ci.layerCount)
      && view.image == img.vkImage && view.format == ci.format
      && (view.viewType == View2D <==> ci.layerCount == 1)
      && view.range.aspectMask == (if HasDepth(ci.format) then {DepthAspect} else AspectMaskAsWritten(ci.usage, ci.format))
      && view.range.layerCount == ci.layerCount && view.range.levelCount == 1
  {
    var aspectMask: set<Aspect> := {};
    if ColorAttachment in ci.usage {
      aspectMask := {ColorAspect};
    } else if DepthStencilAttachment in ci.usage {
      if HasDepth(ci.format) {
        aspectMask := {ColorAspect};
      }
      if HasStencil(ci.format) {
        aspectMask := aspectMask + {StencilAspect};
      }
    }
    if aspectMask == {} {
      return Err(EmptyAspectMask);
    }
    var image := vk.CreateHandle();
    var range := SubresourceRange(aspectMask, 0, 1, 0, ci.layerCount);
    var viewType := if ci.layerCount == 1 then View2D else View2DArray;
    var viewInfo := ImageViewInfo(image, viewType, ci.format,
                                  range.(aspectMask := if HasDepth(ci.format) then {DepthAspect} else aspectMask));
    var imageView := vk.CreateHandle();
    var img := new VulkanImage.Allocated(image, imageView, ci.format, range);
    return Ok((img, viewInfo));
  }
}
