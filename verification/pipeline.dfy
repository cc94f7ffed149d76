/** `render::Pipeline`: a graphics pipeline built from a list of shaders, plus
    the handle-ownership rules of its destructor and move operations. */
module Pipelines {
  import opened Common
  import opened Vk
  import opened Shaders

  /** The vertex type a pipeline is built for: `None` is the
      `PipelineNoInput` tag, `Some(n)` a vertex format with n attributes. */
  type VertexFormat = Option<nat>

  /** VkPipelineVertexInputStateCreateInfo's two counts. */
  datatype VertexInputInfo = VertexInputInfo(bindingCount: nat, attributeCount: nat)

  /** The parts of VkGraphicsPipelineCreateInfo that vary or that the engine
      deliberately leaves null. Viewport and scissor both cover the extent. */
  datatype GraphicsPipelineInfo = GraphicsPipelineInfo(
    stageCount: nat,
    stages: seq<StageCreateInfo>,
    vertexInput: VertexInputInfo,
    viewport: Extent2D,
    scissor: Extent2D,
    hasDepthStencilState: bool,
    hasDynamicState: bool,
    layout: Handle,
    renderPass: Handle,
    subpass: nat)

  datatype PipelineError = NoVertexShader

  /** The vertex-input lambdas: no bindings and no attributes for the
      no-input tag, otherwise one binding and the format's attributes. */
  function VertexInputFor(format: VertexFormat): (v: VertexInputInfo)
    ensures v.bindingCount == 0 <==> format.None?
    ensures v.bindingCount <= 1
    ensures v.attributeCount == (if format.Some? then format.value else 0)
  {
    if format.None? then VertexInputInfo(0, 0) else VertexInputInfo(1, format.value)
  }

  predicate IsVertexStage(stage: Option<StageBit>)
  {
    stage == Some(VertexBit)
  }

  /** What a destructor with "destroy if non-null" checks releases: the layout
      first, then the pipeline. */
  function DestroyedHandles(layout: Handle, pipeline: Handle): (r: seq<Handle>)
    ensures forall h :: h in r <==> h != NULL_HANDLE && (h == layout || h == pipeline)
    ensures |r| <= 2
  {
    (if layout != NULL_HANDLE then [layout] else []) + (if pipeline != NULL_HANDLE then [pipeline] else [])
  }

  /** Two distinct handles are each released at most once. */
  lemma DestroyedAtMostOnce(layout: Handle, pipeline: Handle)
    requires layout != pipeline
    ensures forall h :: multiset(DestroyedHandles(layout, pipeline))[h] <= 1
  {
    var r := DestroyedHandles(layout, pipeline);
    forall h ensures multiset(r)[h] <= 1 {
      if layout != NULL_HANDLE && pipeline != NULL_HANDLE {
        assert r == [layout, pipeline];
      }
    }
  }

  class Pipeline {
    var pipeline: Handle
    var pipelineLayout: Handle
    var device: Handle
    var descriptorSetLayouts: seq<Handle>
    const log: DestroyLog

    /** Everything this object's destructor would release. */
    function Owned(): (r: seq<Handle>)
      reads this
      ensures r == DestroyedHandles(pipelineLayout, pipeline)
      ensures forall h :: h in r <==> h != NULL_HANDLE && (h == pipelineLayout || h == pipeline)
      ensures |r| <= 2
    {
      DestroyedHandles(pipelineLayout, pipeline)
    }

    /** `Pipeline() {}`: both handles null, no set layouts. The device member
        has no initialiser; the model starts it null. */
    constructor Default(log: DestroyLog)
      ensures pipeline == NULL_HANDLE && pipelineLayout == NULL_HANDLE && Owned() == []
      ensures descriptorSetLayouts == [] && this.log == log
    {
      pipeline := NULL_HANDLE;
      pipelineLayout := NULL_HANDLE;
      device := NULL_HANDLE;
      descriptorSetLayouts := [];
      this.log := log;
    }

    /** The end of the templated constructor: the object holds what it built. */
    constructor Created(pipeline: Handle, layout: Handle, device: Handle, setLayouts: seq<Handle>, log: DestroyLog)
      ensures this.pipeline == pipeline && pipelineLayout == layout && this.device == device
      ensures descriptorSetLayouts == setLayouts && this.log == log
    {
      this.pipeline := pipeline;
      pipelineLayout := layout;
      this.device := device;
      descriptorSetLayouts := setLayouts;
      this.log := log;
    }

    /** `~Pipeline`: the layout and then the pipeline, each only if non-null. */
    method Destroy()
      modifies log
      ensures log.destroyed == old(log.destroyed) + Owned()
      ensures forall h :: h in log.destroyed[|old(log.destroyed)|..] ==> h != NULL_HANDLE
    {
      if pipelineLayout != NULL_HANDLE {
        log.Destroy(pipelineLayout);
      }
      if pipeline != NULL_HANDLE {
        log.Destroy(pipeline);
      }
    }

    /** `Pipeline(Pipeline&&)`: takes both handles and the device and nulls the
        source's handles, so destroying both objects releases exactly what the
        source would have released, once. The set layouts are not in the
        initialiser list and start empty. */
    constructor Move(rhs: Pipeline)
      modifies rhs
      ensures pipeline == old(rhs.pipeline) && pipelineLayout == old(rhs.pipelineLayout)
      ensures device == old(rhs.device) && log == rhs.log && descriptorSetLayouts == []
      ensures rhs.pipeline == NULL_HANDLE && rhs.pipelineLayout == NULL_HANDLE
      ensures rhs.device == old(rhs.device) && rhs.descriptorSetLayouts == old(rhs.descriptorSetLayouts)
      ensures Owned() == old(rhs.Owned()) && rhs.Owned() == []
    {
      pipeline := rhs.pipeline;
      pipelineLayout := rhs.pipelineLayout;
      device := rhs.device;
      descriptorSetLayouts := [];
      log := rhs.log;
      new;
      rhs.pipeline := NULL_HANDLE;
      rhs.pipelineLayout := NULL_HANDLE;
    }

    /** `operator=(Pipeline&&)`: takes both handles and nulls the source's;
        the handles held before are dropped without being destroyed, the
        device is not copied, and a self-assignment nulls the object. */
    method MoveAssign(rhs: Pipeline)
      modifies this, rhs
      ensures rhs != this ==>
        && pipeline == old(rhs.pipeline) && pipelineLayout == old(rhs.pipelineLayout)
        && rhs.pipeline == NULL_HANDLE && rhs.pipelineLayout == NULL_HANDLE
        && rhs.device == old(rhs.device) && rhs.descriptorSetLayouts == old(rhs.descriptorSetLayouts)
      ensures rhs == this ==> pipeline == NULL_HANDLE && pipelineLayout == NULL_HANDLE
      ensures device == old(device) && descriptorSetLayouts == old(descriptorSetLayouts)
      ensures log.destroyed == old(log.destroyed)
    {
      pipeline := rhs.pipeline;
      pipelineLayout := rhs.pipelineLayout;
      rhs.pipeline := NULL_HANDLE;
      rhs.pipelineLayout := NULL_HANDLE;
    }

    function GetHandle(): (h: Handle)
      reads this
      ensures h == pipeline
      ensures h != NULL_HANDLE ==> h in Owned()
    {
      pipeline
    }

    function GetLayoutHandle(): (h: Handle)
      reads this
      ensures h == pipelineLayout
      ensures h != NULL_HANDLE ==> h in Owned()
    {
      pipelineLayout
    }

    /** `getSetLayoutIndex`: unchecked indexing, so the index must be in range. */
    function GetSetLayoutIndex(index: nat): (l: Handle)
      reads this
      requires index < |descriptorSetLayouts|
      ensures l in descriptorSetLayouts && l == descriptorSetLayouts[index]
    {
      descriptorSetLayouts[index]
    }
  }

  /** The templated constructor. One stage create info per shader, in order;
      the vertex-input rule; set layouts from the first vertex shader, and a
      throw when there is none; depth-stencil and dynamic state left null.
      Pipeline-layout and pipeline creation are assumed to succeed and yield
      fresh handles. */
  method NewPipeline(shaders: seq<Shader>, extent: Extent2D, deviceHandle: Handle, renderPass: Handle,
                     format: VertexFormat, vk: Device, log: DestroyLog)
    returns (r: Result<(Pipeline, GraphicsPipelineInfo), PipelineError>)
    requires vk.Valid()
    modifies vk`nextHandle
    ensures vk.Valid()
    ensures r.Err? <==> forall i :: 0 <= i < |shaders| ==> !IsVertexStage(shaders[i].createInfo.stage)
    ensures r.Ok? ==>
      var (p, info) := r.value;
      && fresh(p) && p.log == log && p.device == deviceHandle
      && info.stageCount == |shaders| == |info.stages|
      && (forall i :: 0 <= i < |shaders| ==> info.stages[i] == shaders[i].createInfo)
      && info.vertexInput == VertexInputFor(format)
      && info.viewport == extent && info.scissor == extent
      && !info.hasDepthStencilState && !info.hasDynamicState
      && info.renderPass == renderPass && info.subpass == 0
      && info.layout == p.pipelineLayout != NULL_HANDLE
      && p.pipeline != NULL_HANDLE && p.pipeline != p.pipelineLayout
      && (exists j :: 0 <= j < |shaders| && IsVertexStage(shaders[j].createInfo.stage) &&
            (forall k :: 0 <= k < j ==> !IsVertexStage(shaders[k].createInfo.stage)) &&
            p.descriptorSetLayouts == shaders[j].setLayouts)
  {
    var stages: seq<StageCreateInfo> := [];
    var i := 0;
    while i < |shaders|
      invariant 0 <= i <= |shaders| && |stages| == i
      invariant forall k :: 0 <= k < i ==> stages[k] == shaders[k].createInfo
    {
      stages := stages + [shaders[i].GetCi()];
      i := i + 1;
    }
    var vertexInput := VertexInputFor(format);

    var j := 0;
    while j < |shaders| && !IsVertexStage(shaders[j].GetShaderType())
      invariant 0 <= j <= |shaders|
      invariant forall k :: 0 <= k < j ==> !IsVertexStage(shaders[k].createInfo.stage)
    {
      j := j + 1;
    }
    if j == |shaders| {
      return Err(NoVertexShader);
    }
    var setLayouts := shaders[j].setLayouts;
    var layout := vk.CreateHandle();
    var info := GraphicsPipelineInfo(|stages|, stages, vertexInput, extent, extent, false, false, layout, renderPass, 0);
    var handle := vk.CreateHandle();
    var p := new Pipeline.Created(handle, layout, deviceHandle, setLayouts, log);
    return Ok((p, info));
  }
}
