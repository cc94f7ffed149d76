/** `render::VulkanFramebuffer`'s constructor: `numOfFramebuffers`
    framebuffers, each holding one freshly allocated image per attachment
    create info, with the attachment description derived from that info. */
module Framebuffers {
  import opened Common
  import opened Vk
  import opened Images

  datatype LoadOp = LoadClear | LoadDontCare
  datatype StoreOp = StoreStore | StoreDontCare
  datatype ImageLayout = LayoutUndefined | DepthStencilReadOnly | ShaderReadOnly

  /** VkAttachmentDescription. */
  datatype AttachmentDescription = AttachmentDescription(
    format: Format,
    samples: nat,
    loadOp: LoadOp,
    storeOp: StoreOp,
    stencilLoadOp: LoadOp,
    stencilStoreOp: StoreOp,
    initialLayout: ImageLayout,
    finalLayout: ImageLayout)

  /** One attachment: its image object and its description. */
  datatype Attachment = Attachment(image: VulkanImage, description: AttachmentDescription)

  /** A framebuffer's VkFramebuffer (not created by this constructor) and its
      attachments. */
  datatype Framebuffer = Framebuffer(vkFramebuffer: Handle, attachments: seq<Attachment>)

  /** The description of an attachment made from `ci`: cleared on load, stored
      only when the image will be sampled, stencil ignored, starting
      undefined and ending read-only as depth-stencil or for shaders. */
  function DescriptionFor(ci: ImageCreateInfo): (d: AttachmentDescription)
    ensures d.format == ci.format && d.samples == ci.samples
    ensures d.storeOp == StoreStore <==> Sampled in ci.usage
    ensures d.loadOp == LoadClear
    ensures d.stencilLoadOp == LoadDontCare && d.stencilStoreOp == StoreDontCare
    ensures d.initialLayout == LayoutUndefined
    ensures d.finalLayout == DepthStencilReadOnly <==> HasDepthOrStencil(ci.format)
    ensures d.finalLayout != DepthStencilReadOnly ==> d.finalLayout == ShaderReadOnly
  {
    AttachmentDescription(
      ci.format, ci.samples, LoadClear,
      if Sampled in ci.usage then StoreStore else StoreDontCare,
      LoadDontCare, StoreDontCare, LayoutUndefined,
      if HasDepthOrStencil(ci.format) then DepthStencilReadOnly else ShaderReadOnly)
  }

  /** Every create info yields an image (its aspect mask is non-empty). */
  predicate AllAllocatable(cis: seq<ImageCreateInfo>)
  {
    forall j :: 0 <= j < |cis| ==> AspectMaskAsWritten(cis[j].usage, cis[j].format) != {}
  }

  /** Framebuffer `fb` has one attachment per create info, in order, each a
      new image of that info's format with that info's description. */
  ghost predicate BuiltFrom(fb: Framebuffer, cis: seq<ImageCreateInfo>)
    reads set a | a in fb.attachments :: a.image
  {
    && fb.vkFramebuffer == NULL_HANDLE
    && |fb.attachments| == |cis|
    && forall j :: 0 <= j < |cis| ==>
         && fb.attachments[j].description == DescriptionFor(cis[j])
         && fb.attachments[j].image.format == cis[j].format
         && !fb.attachments[j].image.wrapped
  }

  class VulkanFramebuffer {
    var framebuffers: seq<Framebuffer>

    /** `VulkanFramebuffer() = default`. */
    constructor Empty()
      ensures framebuffers == []
    {
      framebuffers := [];
    }

    /** `size()`. */
    function Size(): (n: nat)
      reads this
      ensures n == |framebuffers|
    {
      |framebuffers|
    }
  }

  /** One framebuffer's attachments: an image per create info, in order; the
      first image whose aspect mask is empty aborts. */
  method BuildFramebuffer(cis: seq<ImageCreateInfo>, vk: Device) returns (r: Result<Framebuffer, ImageError>)
    requires vk.Valid()
    modifies vk`nextHandle
    ensures vk.Valid()
    ensures r.Ok? <==> AllAllocatable(cis)
    ensures r.Ok? ==> BuiltFrom(r.value, cis)
    ensures r.Ok? ==> forall j :: 0 <= j < |cis| ==> fresh(r.value.attachments[j].image)
  {
    var framebuffer := Framebuffer(NULL_HANDLE, []);
    var j := 0;
    while j < |cis|
      invariant 0 <= j <= |cis| && vk.Valid()
      invariant AllAllocatable(cis[..j])
      invariant framebuffer.vkFramebuffer == NULL_HANDLE && |framebuffer.attachments| == j
      invariant forall k :: 0 <= k < j ==>
        && framebuffer.attachments[k].description == DescriptionFor(cis[k])
        && framebuffer.attachments[k].image.format == cis[k].format
        && !framebuffer.attachments[k].image.wrapped
        && fresh(framebuffer.attachments[k].image)
    {
      var made := NewImage(cis[j], vk);
      if made.Err? {
        assert !AllAllocatable(cis);
        return Err(made.error);
      }
      var attachment := Attachment(made.value.0, DescriptionFor(cis[j]));
      framebuffer := framebuffer.(attachments := framebuffer.attachments + [attachment]);
      j := j + 1;
      assert cis[..j] == cis[..j - 1] + [cis[j - 1]];
    }
    assert cis[..j] == cis;
    return Ok(framebuffer);
  }

  /** `VulkanFramebuffer(allocator, ci, numOfFramebuffers)`: exactly
      `numOfFramebuffers` framebuffers, each built from the whole create-info
      list with images of its own. An image whose aspect mask is empty
      aborts the construction. */
  method NewFramebuffers(cis: seq<ImageCreateInfo>, numOfFramebuffers: nat, vk: Device)
    returns (r: Result<VulkanFramebuffer, ImageError>)
    requires vk.Valid()
    modifies vk`nextHandle
    ensures vk.Valid()
    ensures r.Ok? <==> numOfFramebuffers == 0 || AllAllocatable(cis)
    ensures r.Ok? ==>
      && fresh(r.value)
      && r.value.Size() == numOfFramebuffers
      && forall i :: 0 <= i < numOfFramebuffers ==> BuiltFrom(r.value.framebuffers[i], cis)
  {
    var fbs := new VulkanFramebuffer.Empty();
    var framebufferIdx := 0;
    while framebufferIdx < numOfFramebuffers
      invariant 0 <= framebufferIdx <= numOfFramebuffers && vk.Valid()
      invariant framebufferIdx > 0 ==> AllAllocatable(cis)
      invariant fresh(fbs) && |fbs.framebuffers| == framebufferIdx
      invariant forall i :: 0 <= i < framebufferIdx ==> BuiltFrom(fbs.framebuffers[i], cis)
    {
      var framebuffer := BuildFramebuffer(cis, vk);
      if framebuffer.Err? {
        return Err(framebuffer.error);
      }
      fbs.framebuffers := fbs.framebuffers + [framebuffer.value];
      framebufferIdx := framebufferIdx + 1;
    }
    return Ok(fbs);
  }
}
