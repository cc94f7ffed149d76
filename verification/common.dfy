/** Shared vocabulary of the renderer model: opaque handles, failure wrappers,
    bytes, and the compile-time constants of the engine's headers. */
module Common {

  /** Every Vulkan handle (fence, semaphore, image view, descriptor set, buffer, ...)
      is an opaque token; 0 plays the role of VK_NULL_HANDLE. */
  type Handle = nat

  const NULL_HANDLE: Handle := 0

  datatype Option<+T> = None | Some(value: T)

  /** `Err` stands for a thrown exception or an aborting assertion. */
  datatype Result<+T, +E> = Ok(value: T) | Err(error: E)

  type Byte = b: int | 0 <= b < 256

  /** Frames the CPU may record ahead of the GPU (K). */
  const MAX_FRAMES_IN_FLIGHT: nat := 2

  /** Binding numbers of the per-frame descriptor set. */
  const PER_FRAME_TEXTURE_ARRAY_BINDING: nat := 0
  const PER_FRAME_TEXTURE_SAMPLER_BINDING: nat := 1
  const PER_FRAME_UBO_BINDING: nat := 2

  /** Descriptor set numbers by rebind frequency. */
  const BIND_FREQUENCY_FRAME: nat := 0
  const BIND_FREQUENCY_OBJECT: nat := 1

  const UINT32_MAX: nat := 0xFFFF_FFFF

  /** The descriptor kinds the engine uses. */
  datatype DescriptorType = Sampler | SampledImage | UniformBuffer

  /** One entry of a VkDescriptorPoolCreateInfo's pool-size list. */
  datatype PoolSize = PoolSize(kind: DescriptorType, count: nat)

  /** The part of VkDescriptorPoolCreateInfo the engine chooses. */
  datatype PoolInfo = PoolInfo(maxSets: nat, sizes: seq<PoolSize>)

  /** VkDescriptorBufferInfo. */
  datatype BufferInfo = BufferInfo(buffer: Handle, offset: nat, range: nat)

  /** A single-descriptor VkWriteDescriptorSet naming a uniform buffer. */
  datatype UboWrite = UboWrite(dstSet: Handle, binding: nat, info: BufferInfo)

  function Min(a: nat, b: nat): nat { if a <= b then a else b }

  function Max(a: nat, b: nat): nat { if a >= b then a else b }

  /** All elements pairwise distinct. */
  predicate Distinct<T(==)>(s: seq<T>)
  {
    forall i, j :: 0 <= i < j < |s| ==> s[i] != s[j]
  }

  /** VkFormat, by its numeric code (the enumeration has hundreds of values). */
  type Format = nat

  /** The bits of VkImageAspectFlags the engine uses; a mask is a set of them. */
  datatype Aspect = ColorAspect | DepthAspect | StencilAspect

  datatype ViewType = View2D | View2DArray

  /** VkImageSubresourceRange. */
  datatype SubresourceRange = SubresourceRange(aspectMask: set<Aspect>, baseMipLevel: nat, levelCount: nat,
                                               baseArrayLayer: nat, layerCount: nat)

  /** The parts of VkImageViewCreateInfo the engine sets. */
  datatype ImageViewInfo = ImageViewInfo(image: Handle, viewType: ViewType, format: Format, range: SubresourceRange)

  /** VkExtent2D. */
  datatype Extent2D = Extent2D(width: nat, height: nat)

  /** Index of the first element satisfying `p`, or |s| when none does: the
      shape of every `std::find_if` and early-return search loop. */
  function FirstIndex<T>(s: seq<T>, p: T -> bool): (r: nat)
    ensures r <= |s|
    ensures forall k :: 0 <= k < r ==> !p(s[k])
    ensures r < |s| ==> p(s[r])
  {
    if |s| == 0 then 0
    else if p(s[0]) then 0
    else 1 + FirstIndex(s[1..], p)
  }

  /** The handles `from`, `from + 1`, ..., `from + n - 1`, in that order. */
  function HandleRange(from: Handle, n: nat): (r: seq<Handle>)
    ensures |r| == n && forall i :: 0 <= i < n ==> r[i] == from + i
  {
    seq(n, i => from + i)
  }

  /** The commands the engine records, in the order they are recorded:
      vkCmdBindPipeline, a mesh's draw, and vkCmdBindDescriptorSets (pipeline
      layout, first set number, the sets). */
  datatype Command =
    | BindPipeline(pipeline: Handle)
    | DrawMesh(mesh: Handle)
    | BindDescriptorSets(layout: Handle, firstSet: nat, sets: seq<Handle>)
}
