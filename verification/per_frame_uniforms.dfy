/** `render::memory::PerFrameUniformSystem`: one descriptor set per frame in
    flight (set number 0, the frame-frequency set), each holding the texture
    array and a uniform buffer descriptor for its own slot of a
    `UniformData<PerFrameUbo, K>`. */
module PerFrameUniforms {
  import opened Common
  import opened Vk
  import opened VmaBuffers
  import opened UniformBuffers
  import opened Textures
  import opened Cameras
  import opened Pipelines

  /** The per-frame uniform block; its `camera` member is the only one the
      system writes. */
  datatype PerFrameUbo = PerFrameUbo(camera: UboData)

  const K: nat := MAX_FRAMES_IN_FLIGHT

  class PerFrameUniformSystem {
    const device: Device
    const textureMgr: TextureManager
    const camera: CameraSystem
    const pipeline: Pipeline
    const ubo: UniformData<PerFrameUbo>
    var descriptorPool: Handle
    /** The VkDescriptorPoolCreateInfo of `createDescriptorPool`. */
    var poolInfo: PoolInfo
    /** The layouts handed to vkAllocateDescriptorSets. */
    var setLayouts: seq<Handle>
    var descriptorSets: seq<Handle>
    /** The uniform-buffer descriptor writes issued, in order. */
    var uboWrites: seq<UboWrite>
    /** The sets handed to the texture manager's `fillDescriptorSet`, in order. */
    var textureFills: seq<Handle>

    /** K distinct sets, and set i's uniform-buffer binding covers exactly
        slot i of the buffer. */
    ghost predicate Valid()
      reads this, ubo, ubo.uboBuffer
    {
      && ubo.Valid() && ubo.n == K
      && |descriptorSets| == K && Distinct(descriptorSets)
      && |uboWrites| == K
      && (forall i :: 0 <= i < K ==>
            uboWrites[i] == UboWrite(descriptorSets[i], PER_FRAME_UBO_BINDING,
                                     SlotInfo(ubo.uboBuffer.descriptor.buffer, ubo.alignedSize, ubo.sizeOfT, i)))
    }

    /** The constructor: the uniform data (sized for K copies), then
        `createDescriptorPool`, `generateDescriptorSets`, `fillDescriptorSets`
        and `fillUboDescriptor`. The alignment and the allocation, with its
        first contents, are inputs. */
    constructor (device: Device, textureMgr: TextureManager, camera: CameraSystem, pipeline: Pipeline,
                 sizeOfT: nat, encode: PerFrameUbo -> seq<Byte>, blank: PerFrameUbo, minUboAlignment: nat,
                 buffer: Handle, allocationSize: nat, allocationOffset: nat, hostCoherent: bool,
                 initialBytes: seq<Byte>)
      requires device.Valid() && BIND_FREQUENCY_FRAME < |pipeline.descriptorSetLayouts|
      requires minUboAlignment > 0 && sizeOfT > 0 && forall t :: |encode(t)| == sizeOfT
      requires allocationSize >= CalcAlignedTypeSize(sizeOfT, minUboAlignment) * K
      requires |initialBytes| == allocationSize
      modifies device`nextHandle
      ensures Valid() && device.Valid() && fresh(ubo) && fresh(ubo.uboBuffer)
      ensures ubo.uboArr == seq(K, _ => blank)
      ensures poolInfo == PoolInfo(K, textureMgr.poolSizes + [PoolSize(UniformBuffer, K)])
      ensures |setLayouts| == K
      ensures forall i :: 0 <= i < K ==> setLayouts[i] == pipeline.descriptorSetLayouts[BIND_FREQUENCY_FRAME]
      ensures descriptorPool != NULL_HANDLE && descriptorPool !in descriptorSets
      ensures textureFills == descriptorSets
    {
      this.device := device;
      this.textureMgr := textureMgr;
      this.camera := camera;
      this.pipeline := pipeline;
      ubo := new UniformData<PerFrameUbo>(K, sizeOfT, encode, blank, minUboAlignment,
                                           buffer, allocationSize, allocationOffset, hostCoherent, initialBytes);
      descriptorPool := NULL_HANDLE;
      poolInfo := PoolInfo(0, []);
      setLayouts := [];
      descriptorSets := [];
      uboWrites := [];
      textureFills := [];
      new;
      CreateDescriptorPool();
      GenerateDescriptorSets();
      FillDescriptorSets();
      FillUboDescriptor();
    }

    /** `createDescriptorPool`: the texture manager's pool sizes plus one
        uniform-buffer entry of K descriptors, for at most K sets. */
    method CreateDescriptorPool()
      requires device.Valid()
      modifies this`descriptorPool, this`poolInfo, device`nextHandle
      ensures device.Valid() && device.nextHandle == old(device.nextHandle) + 1
      ensures poolInfo == PoolInfo(K, textureMgr.poolSizes + [PoolSize(UniformBuffer, K)])
      ensures descriptorPool == old(device.nextHandle) && descriptorPool != NULL_HANDLE
    {
      var poolSizes := textureMgr.poolSizes;
      var uniformBufferPoolSizes := PoolSize(UniformBuffer, K);
      poolSizes := poolSizes + [uniformBufferPoolSizes];
      poolInfo := PoolInfo(K, poolSizes);
      descriptorPool := device.CreateHandle();
    }

    /** `generateDescriptorSets`: K sets, all with the frame-frequency layout. */
    method GenerateDescriptorSets()
      requires device.Valid() && BIND_FREQUENCY_FRAME < |pipeline.descriptorSetLayouts|
      modifies this`setLayouts, this`descriptorSets, device`nextHandle
      ensures device.Valid()
      ensures |setLayouts| == K
      ensures forall i :: 0 <= i < K ==> setLayouts[i] == pipeline.descriptorSetLayouts[BIND_FREQUENCY_FRAME]
      ensures descriptorSets == HandleRange(old(device.nextHandle), K) && Distinct(descriptorSets)
      ensures device.nextHandle == old(device.nextHandle) + K
    {
      var setLayout := pipeline.GetSetLayoutIndex(BIND_FREQUENCY_FRAME);
      setLayouts := seq(K, _ => setLayout);
      descriptorSets := device.AllocateHandles(K);
    }

    /** `fillDescriptorSets`: every set goes to the texture manager. */
    method FillDescriptorSets()
      modifies this`textureFills
      ensures textureFills == old(textureFills) + descriptorSets
    {
      var i := 0;
      while i < |descriptorSets|
        invariant 0 <= i <= |descriptorSets|
        invariant textureFills == old(textureFills) + descriptorSets[..i]
      {
        textureFills := textureFills + [descriptorSets[i]];
        i := i + 1;
        assert descriptorSets[..i] == descriptorSets[..i - 1] + [descriptorSets[i - 1]];
      }
      assert descriptorSets[..i] == descriptorSets;
    }

    /** `fillUboDescriptor`: the buffer infos match the sets one to one (the
        source asserts it, and here it is proved), and set i gets info i at
        the per-frame uniform-buffer binding. */
    method FillUboDescriptor()
      requires ubo.Valid() && ubo.n == K && |descriptorSets| == K
      modifies this`uboWrites
      ensures |uboWrites| == K
      ensures forall i :: 0 <= i < K ==>
        uboWrites[i] == UboWrite(descriptorSets[i], PER_FRAME_UBO_BINDING,
                                 SlotInfo(ubo.uboBuffer.descriptor.buffer, ubo.alignedSize, ubo.sizeOfT, i))
    {
      var uniformBufferInfos := ubo.GetDescriptorBufferInfos();
      assert |uniformBufferInfos| == |descriptorSets|;
      uboWrites := [];
      var i := 0;
      while i < |descriptorSets|
        invariant 0 <= i <= K && |uboWrites| == i
        invariant forall k :: 0 <= k < i ==>
          uboWrites[k] == UboWrite(descriptorSets[k], PER_FRAME_UBO_BINDING,
                                   SlotInfo(ubo.uboBuffer.descriptor.buffer, ubo.alignedSize, ubo.sizeOfT, k))
      {
        uboWrites := uboWrites + [UboWrite(descriptorSets[i], PER_FRAME_UBO_BINDING, uniformBufferInfos[i])];
        i := i + 1;
      }
    }

    /** `refreshData(setIdx)`: both bounds are asserted; the set's textures
        are filled again, slot `setIdx` gets the camera's current matrices and
        only that slot is pushed to the buffer. */
    method RefreshData(setIdx: nat)
      requires Valid() && setIdx < |descriptorSets| && setIdx < K
      modifies this`textureFills, ubo`uboArr,
               ubo.uboBuffer`bytes, ubo.uboBuffer`flushes, ubo.uboBuffer`mapped, ubo.uboBuffer`mapCount
      ensures Valid() && textureFills == old(textureFills) + [descriptorSets[setIdx]]
      ensures ubo.uboArr == old(ubo.uboArr)[setIdx := old(ubo.uboArr[setIdx]).(camera :=
        UboData(LookAt(camera.statics.pos, Add(camera.statics.pos, camera.statics.dir), camera.statics.up),
                camera.projMatrix))]
      ensures forall j :: 0 <= j < K ==> SlotStart(ubo.alignedSize, j) + ubo.sizeOfT <= |ubo.uboBuffer.bytes|
      ensures SlotBytes(ubo.uboBuffer.bytes, ubo.alignedSize, ubo.sizeOfT, setIdx) == ubo.encode(ubo.uboArr[setIdx])
      ensures forall j :: 0 <= j < K && j != setIdx ==>
        SlotBytes(ubo.uboBuffer.bytes, ubo.alignedSize, ubo.sizeOfT, j) ==
        SlotBytes(old(ubo.uboBuffer.bytes), ubo.alignedSize, ubo.sizeOfT, j)
    {
      textureFills := textureFills + [descriptorSets[setIdx]];
      var matrices := camera.GenCurrentVPMatrices();
      ubo.Set(setIdx, ubo.uboArr[setIdx].(camera := matrices));
      ubo.UpdateAt(setIdx);
    }

    /** `bind`: the bound set sits at set number 0 (frame frequency), and the
        only uniform-buffer descriptor ever written into it covers slot
        `setIdx`. */
    method Bind(setIdx: nat) returns (cmd: Command)
      requires setIdx < |descriptorSets|
      ensures cmd == BindDescriptorSets(pipeline.pipelineLayout, BIND_FREQUENCY_FRAME, [descriptorSets[setIdx]])
      ensures Valid() ==> forall w :: w in uboWrites && w.dstSet == cmd.sets[0] ==>
        w.info == SlotInfo(ubo.uboBuffer.descriptor.buffer, ubo.alignedSize, ubo.sizeOfT, setIdx)
    {
      cmd := BindDescriptorSets(pipeline.GetLayoutHandle(), BIND_FREQUENCY_FRAME, [descriptorSets[setIdx]]);
    }
  }
}
