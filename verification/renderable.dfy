/** `render::Renderable`: meshes drawn with one pipeline, plus K uniform
    slots (one per frame in flight) reached through K descriptor sets at set
    number 1, the object-frequency set. */
module Renderables {
  import opened Common
  import opened Vk
  import opened VmaBuffers
  import opened UniformBuffers
  import opened Pipelines

  /** `RenderableUbo`: the model matrix, as its 16 floats. */
  datatype RenderableUbo = RenderableUbo(model: seq<real>)

  const K: nat := MAX_FRAMES_IN_FLIGHT

  /** Set number of the per-object set. */
  const OBJECT_SET: nat := 1

  /** The command order of `cmdBindSetsDrawMeshes`: the pipeline, then one draw
      per mesh in order, then the set. */
  function DrawSequence(pipeline: Handle, meshes: seq<Handle>, layout: Handle, dstSet: Handle): (cmds: seq<Command>)
    ensures |cmds| == |meshes| + 2
    ensures cmds[0] == BindPipeline(pipeline)
    ensures forall i :: 0 <= i < |meshes| ==> cmds[i + 1] == DrawMesh(meshes[i])
    ensures cmds[|cmds| - 1] == BindDescriptorSets(layout, OBJECT_SET, [dstSet])
  {
    [BindPipeline(pipeline)] + seq(|meshes|, i requires 0 <= i < |meshes| => DrawMesh(meshes[i]))
      + [BindDescriptorSets(layout, OBJECT_SET, [dstSet])]
  }

  /** In that order no draw comes after the set bind: every draw of the call
      runs with whatever set 1 was bound before it. */
  lemma DrawsPrecedeSetBind(pipeline: Handle, meshes: seq<Handle>, layout: Handle, dstSet: Handle)
    ensures var cmds := DrawSequence(pipeline, meshes, layout, dstSet);
      forall i, j :: 0 <= i < j < |cmds| && cmds[j].BindDescriptorSets? ==> !cmds[i].BindDescriptorSets? && j == |cmds| - 1
  {
    var cmds := DrawSequence(pipeline, meshes, layout, dstSet);
    forall i, j | 0 <= i < j < |cmds| && cmds[j].BindDescriptorSets?
      ensures !cmds[i].BindDescriptorSets? && j == |cmds| - 1
    {
      if i > 0 {
        assert cmds[(i - 1) + 1] == DrawMesh(meshes[i - 1]);
      }
    }
  }

  class Renderable {
    const device: Device
    const meshes: seq<Handle>
    const pipeline: Pipeline
    const uniforms: UniformData<RenderableUbo>
    var descriptorPool: Handle
    var poolInfo: PoolInfo
    var setLayouts: seq<Handle>
    var descriptorSets: seq<Handle>
    var uboWrites: seq<UboWrite>

    /** K distinct sets, and set i's binding 0 covers exactly slot i. */
    ghost predicate Valid()
      reads this, uniforms, uniforms.uboBuffer
    {
      && uniforms.Valid() && uniforms.n == K
      && |descriptorSets| == K && Distinct(descriptorSets)
      && |uboWrites| == K
      && (forall i :: 0 <= i < K ==>
            uboWrites[i] == UboWrite(descriptorSets[i], 0,
                                     SlotInfo(uniforms.uboBuffer.descriptor.buffer, uniforms.alignedSize, uniforms.sizeOfT, i)))
    }

    /** `Renderable(device, meshes)`: `createDescriptorPool` then
        `generateUboDescriptorSets`. The pipeline and the uniform data, which
        the class uses but never sets, are inputs here. */
    constructor (device: Device, meshes: seq<Handle>, pipeline: Pipeline, uniforms: UniformData<RenderableUbo>)
      requires device.Valid() && uniforms.Valid() && uniforms.n == K
      requires OBJECT_SET < |pipeline.descriptorSetLayouts|
      modifies device`nextHandle
      ensures Valid() && device.Valid()
      ensures this.meshes == meshes && this.pipeline == pipeline && this.uniforms == uniforms
      ensures poolInfo == PoolInfo(K, [PoolSize(UniformBuffer, K)])
      ensures |setLayouts| == K
      ensures forall i :: 0 <= i < K ==> setLayouts[i] == pipeline.descriptorSetLayouts[OBJECT_SET]
      ensures descriptorPool != NULL_HANDLE && descriptorPool !in descriptorSets
    {
      this.device := device;
      this.meshes := meshes;
      this.pipeline := pipeline;
      this.uniforms := uniforms;
      descriptorPool := NULL_HANDLE;
      poolInfo := PoolInfo(0, []);
      setLayouts := [];
      descriptorSets := [];
      uboWrites := [];
      new;
      CreateDescriptorPool();
      GenerateUboDescriptorSets();
    }

    /** `createDescriptorPool`: a single uniform-buffer entry of K
        descriptors, for at most K sets. */
    method CreateDescriptorPool()
      requires device.Valid()
      modifies this`descriptorPool, this`poolInfo, device`nextHandle
      ensures device.Valid() && device.nextHandle == old(device.nextHandle) + 1
      ensures poolInfo == PoolInfo(K, [PoolSize(UniformBuffer, K)])
      ensures descriptorPool == old(device.nextHandle) && descriptorPool != NULL_HANDLE
    {
      var poolSize := PoolSize(UniformBuffer, K);
      poolInfo := PoolInfo(K, [poolSize]);
      descriptorPool := device.CreateHandle();
    }

    /** `generateUboDescriptorSets`: K sets with the pipeline's set layout at
        index 1, and set i bound at binding 0 to buffer info i. */
    method GenerateUboDescriptorSets()
      requires device.Valid() && uniforms.Valid() && uniforms.n == K
      requires OBJECT_SET < |pipeline.descriptorSetLayouts|
      modifies this`setLayouts, this`descriptorSets, this`uboWrites, device`nextHandle
      ensures device.Valid() && Valid()
      ensures |setLayouts| == K
      ensures forall i :: 0 <= i < K ==> setLayouts[i] == pipeline.descriptorSetLayouts[OBJECT_SET]
      ensures descriptorSets == HandleRange(old(device.nextHandle), K)
      ensures device.nextHandle == old(device.nextHandle) + K
    {
      var setLayout := pipeline.GetSetLayoutIndex(OBJECT_SET);
      setLayouts := seq(K, _ => setLayout);
      descriptorSets := device.AllocateHandles(K);
      var uboBufferInfos := uniforms.GetDescriptorBufferInfos();
      uboWrites := [];
      var i := 0;
      while i < |descriptorSets|
        invariant 0 <= i <= K && |uboWrites| == i
        invariant device.Valid() && device.nextHandle == old(device.nextHandle) + K
        invariant descriptorSets == HandleRange(old(device.nextHandle), K) && Distinct(descriptorSets)
        invariant |setLayouts| == K && forall k :: 0 <= k < K ==> setLayouts[k] == setLayout
        invariant forall k :: 0 <= k < i ==>
          uboWrites[k] == UboWrite(descriptorSets[k], 0,
                                   SlotInfo(uniforms.uboBuffer.descriptor.buffer, uniforms.alignedSize, uniforms.sizeOfT, k))
      {
        uboWrites := uboWrites + [UboWrite(descriptorSets[i], 0, uboBufferInfos[i])];
        i := i + 1;
      }
    }

    /** `updateUniforms(ubo, bufferIdx)`: slot `bufferIdx` gets the new block
        and only that slot is pushed to the buffer. */
    method UpdateUniforms(ubo: RenderableUbo, bufferIdx: nat)
      requires Valid() && bufferIdx < K
      modifies uniforms`uboArr,
               uniforms.uboBuffer`bytes, uniforms.uboBuffer`flushes, uniforms.uboBuffer`mapped, uniforms.uboBuffer`mapCount
      ensures Valid() && uniforms.uboArr == old(uniforms.uboArr)[bufferIdx := ubo]
      ensures forall j :: 0 <= j < K ==> SlotStart(uniforms.alignedSize, j) + uniforms.sizeOfT <= |uniforms.uboBuffer.bytes|
      ensures SlotBytes(uniforms.uboBuffer.bytes, uniforms.alignedSize, uniforms.sizeOfT, bufferIdx) == uniforms.encode(ubo)
      ensures forall j :: 0 <= j < K && j != bufferIdx ==>
        SlotBytes(uniforms.uboBuffer.bytes, uniforms.alignedSize, uniforms.sizeOfT, j) ==
        SlotBytes(old(uniforms.uboBuffer.bytes), uniforms.alignedSize, uniforms.sizeOfT, j)
    {
      uniforms.Set(bufferIdx, ubo);
      uniforms.UpdateAt(bufferIdx);
    }

    /** `cmdBindSetsDrawMeshes(commandBuffer, frameIndex)`: records the
        pipeline bind, every mesh's draw in order, and only then the bind of
        set `frameIndex` at set number 1. */
    method CmdBindSetsDrawMeshes(frameIndex: nat) returns (cmds: seq<Command>)
      requires frameIndex < |descriptorSets|
      ensures cmds == DrawSequence(pipeline.pipeline, meshes, pipeline.pipelineLayout, descriptorSets[frameIndex])
    {
      cmds := [BindPipeline(pipeline.GetHandle())];
      var i := 0;
      while i < |meshes|
        invariant 0 <= i <= |meshes| && |cmds| == i + 1
        invariant cmds[0] == BindPipeline(pipeline.pipeline)
        invariant forall k :: 0 <= k < i ==> cmds[k + 1] == DrawMesh(meshes[k])
      {
        cmds := cmds + [DrawMesh(meshes[i])];
        i := i + 1;
      }
      cmds := cmds + [BindDescriptorSets(pipeline.GetLayoutHandle(), OBJECT_SET, [descriptorSets[frameIndex]])];
      ghost var spec := DrawSequence(pipeline.pipeline, meshes, pipeline.pipelineLayout, descriptorSets[frameIndex]);
      assert forall k :: 0 <= k < |spec| ==> cmds[k] == spec[k];
    }
  }
}
