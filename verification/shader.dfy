/** `render::Shader`: a SPIR-V module ready to be a pipeline stage. The module
    handle lives in a reference-counted block (`std::shared_ptr` with a
    deleter that calls vkDestroyShaderModule), so copies share one module and
    the module is destroyed when the last owner lets go. */
module Shaders {
  import opened Common
  import opened Vk

  /** `EShaderType`. */
  datatype ShaderType = VertexShader | FragmentShader

  /** The VkShaderStageFlagBits the engine uses. */
  datatype StageBit = VertexBit | FragmentBit

  /** VkPipelineShaderStageCreateInfo: stage, module and entry-point name;
      `ZERO_STAGE_INFO` is the value-initialised struct. */
  datatype StageCreateInfo = StageCreateInfo(stage: Option<StageBit>, moduleHandle: Handle, entryPoint: Option<string>)

  const ZERO_STAGE_INFO: StageCreateInfo := StageCreateInfo(None, NULL_HANDLE, None)

  /** VkShaderModuleCreateInfo: byte count and code. */
  datatype ModuleCreateInfo = ModuleCreateInfo(codeSize: nat, code: seq<char>)

  datatype ShaderError = ModuleCreationFailed

  /** `getVulkanStageType`: vertex maps to the vertex bit and fragment to the
      fragment bit, and no other way round. */
  function GetVulkanStageType(t: ShaderType): (b: StageBit)
    ensures b == VertexBit <==> t == VertexShader
    ensures b == FragmentBit <==> t == FragmentShader
  {
    match t
    case VertexShader => VertexBit
    case FragmentShader => FragmentBit
  }

  /** `makeShaderCreateInfo`: the mapped stage, the given module and the entry
      point "main"; never the zeroed struct. */
  function MakeShaderCreateInfo(t: ShaderType, moduleHandle: Handle): (ci: StageCreateInfo)
    ensures ci.stage == Some(GetVulkanStageType(t)) && ci.moduleHandle == moduleHandle
    ensures ci.entryPoint == Some("main") && ci != ZERO_STAGE_INFO
  {
    StageCreateInfo(Some(GetVulkanStageType(t)), moduleHandle, Some("main"))
  }

  /** The create info built by `createShaderModule`: its size is the code's
      byte count. */
  function ShaderModuleCreateInfo(code: seq<char>): (ci: ModuleCreateInfo)
    ensures ci.codeSize == |code| && ci.code == code
  {
    ModuleCreateInfo(|code|, code)
  }

  /** `createShaderModule`: vkCreateShaderModule (whose outcome is the input
      `createOk`) either yields a fresh module or the call throws. */
  method CreateShaderModule(code: seq<char>, device: Device, createOk: bool) returns (r: Result<Handle, ShaderError>)
    requires device.Valid()
    modifies device`nextHandle
    ensures device.Valid()
    ensures r.Ok? <==> createOk
    ensures r.Ok? ==> r.value == old(device.nextHandle) && r.value != NULL_HANDLE
    ensures !createOk ==> device.nextHandle == old(device.nextHandle)
  {
    var info := ShaderModuleCreateInfo(code);
    if !createOk {
      return Err(ModuleCreationFailed);
    }
    var h := device.CreateHandle();
    return Ok(h);
  }

  /** The control block of the module's `shared_ptr`: the module, the number
      of owners, and the log the deleter writes to. */
  class SharedModule {
    const moduleHandle: Handle
    var useCount: nat
    const log: DestroyLog

    /** The module has been destroyed exactly once if nobody owns it, and not
        at all while somebody does. */
    ghost predicate Valid()
      reads this, log
    {
      multiset(log.destroyed)[moduleHandle] == (if useCount == 0 then 1 else 0)
    }

    constructor (moduleHandle: Handle, log: DestroyLog)
      requires moduleHandle !in log.destroyed
      ensures Valid() && this.moduleHandle == moduleHandle && this.log == log && useCount == 1
    {
      this.moduleHandle := moduleHandle;
      this.log := log;
      useCount := 1;
    }

    /** A copy of the `shared_ptr`. */
    method Share()
      requires Valid() && useCount > 0
      modifies this`useCount
      ensures Valid() && useCount == old(useCount) + 1
    {
      useCount := useCount + 1;
    }

    /** One owner lets go; the last one runs the deleter. */
    method Drop()
      requires Valid() && useCount > 0
      modifies this`useCount, log
      ensures Valid() && useCount == old(useCount) - 1
      ensures log.destroyed == old(log.destroyed) + (if useCount == 0 then [moduleHandle] else [])
    {
      useCount := useCount - 1;
      if useCount == 0 {
        log.Destroy(moduleHandle);
      }
    }
  }

  class Shader {
    var createInfo: StageCreateInfo
    var shaderModule: Option<SharedModule>
    var device: Handle
    /** The reflected descriptor set layouts. */
    var setLayouts: seq<Handle>

    ghost function Footprint(): set<object>
      reads this
    {
      if shaderModule.Some? then {shaderModule.value, shaderModule.value.log} else {}
    }

    /** A live shader is one of the owners of its module, and its create info
        names that module. */
    ghost predicate Valid()
      reads this, Footprint()
    {
      shaderModule.Some? ==>
        shaderModule.value.Valid() && shaderModule.value.useCount > 0 &&
        createInfo.moduleHandle == shaderModule.value.moduleHandle
    }

    /** `Shader()`: no module, no device, zeroed create info. */
    constructor Empty()
      ensures Valid() && shaderModule.None? && device == NULL_HANDLE
      ensures createInfo == ZERO_STAGE_INFO && setLayouts == []
    {
      createInfo := ZERO_STAGE_INFO;
      shaderModule := None;
      device := NULL_HANDLE;
      setLayouts := [];
    }

    /** The second half of `Shader(device, path, type)`: the freshly created
        module becomes owned by a new control block. */
    constructor Wrap(device: Handle, moduleHandle: Handle, t: ShaderType, log: DestroyLog, reflected: seq<Handle>)
      requires moduleHandle !in log.destroyed
      ensures Valid() && shaderModule.Some? && fresh(shaderModule.value) && shaderModule.value.useCount == 1
      ensures shaderModule.value.moduleHandle == moduleHandle && shaderModule.value.log == log
      ensures createInfo == MakeShaderCreateInfo(t, moduleHandle)
      ensures this.device == device && setLayouts == reflected
    {
      var block := new SharedModule(moduleHandle, log);
      shaderModule := Some(block);
      createInfo := MakeShaderCreateInfo(t, moduleHandle);
      this.device := device;
      setLayouts := reflected;
    }

    /** `Shader(Shader&&)`: the target takes the module, create info and device;
        the source's module is reset, its device nulled and its create info
        zeroed. The owner count does not change. Members outside the
        initialiser list start empty. */
    constructor Move(rhs: Shader)
      requires rhs.Valid()
      modifies rhs
      ensures Valid() && rhs.Valid()
      ensures shaderModule == old(rhs.shaderModule) && createInfo == old(rhs.createInfo)
      ensures device == old(rhs.device) && setLayouts == []
      ensures rhs.shaderModule.None? && rhs.device == NULL_HANDLE && rhs.createInfo == ZERO_STAGE_INFO
      ensures rhs.setLayouts == old(rhs.setLayouts)
    {
      shaderModule := rhs.shaderModule;
      createInfo := rhs.createInfo;
      device := rhs.device;
      setLayouts := [];
      new;
      rhs.shaderModule := None;
      rhs.device := NULL_HANDLE;
      rhs.createInfo := ZERO_STAGE_INFO;
    }

    /** `Shader(const Shader&)` as src/Shader.cpp defines it: both share the
        same module, which gains an owner, and no set layouts are copied.
        The header's `= default` would also copy the set layouts. */
    constructor Copy(rhs: Shader)
      requires rhs.Valid()
      modifies rhs.Footprint()
      ensures Valid() && rhs.Valid()
      ensures shaderModule == rhs.shaderModule && createInfo == rhs.createInfo && device == rhs.device
      ensures rhs.shaderModule.Some? ==> rhs.shaderModule.value.useCount == old(rhs.shaderModule.value.useCount) + 1
      ensures setLayouts == []
    {
      shaderModule := rhs.shaderModule;
      createInfo := rhs.createInfo;
      device := rhs.device;
      setLayouts := [];
      new;
      if rhs.shaderModule.Some? {
        rhs.shaderModule.value.Share();
      }
    }

    /** `~Shader`: the object's `shared_ptr` lets go of the module; the
        deleter runs when this was the last owner. */
    method Release()
      requires Valid()
      modifies this, Footprint()
      ensures shaderModule.None?
      ensures old(shaderModule).Some? ==>
        var block := old(shaderModule).value;
        block.Valid() && block.useCount == old(block.useCount) - 1 &&
        block.log.destroyed == old(block.log.destroyed) + (if block.useCount == 0 then [block.moduleHandle] else [])
    {
      if shaderModule.Some? {
        shaderModule.value.Drop();
      }
      shaderModule := None;
    }

    function GetCi(): (ci: StageCreateInfo)
      reads this
      ensures ci == createInfo
    {
      createInfo
    }

    /** `getShaderModule`: dereferences the `shared_ptr`, so the shader must
        still own a module. */
    function GetShaderModule(): (m: Handle)
      reads this, Footprint()
      requires Valid() && shaderModule.Some?
      ensures m == shaderModule.value.moduleHandle && m == createInfo.moduleHandle
    {
      shaderModule.value.moduleHandle
    }

    /** The stage the shader was created for, read from its create info. */
    function GetShaderType(): (b: Option<StageBit>)
      reads this
      ensures b == createInfo.stage
    {
      createInfo.stage
    }
  }

  /** `Shader(device, path, type)`: the file's bytes are `code`; module
      creation may fail, and then the constructor throws. */
  method NewShader(deviceHandle: Handle, device: Device, code: seq<char>, t: ShaderType,
                   createOk: bool, log: DestroyLog, reflected: seq<Handle>) returns (r: Result<Shader, ShaderError>)
    requires device.Valid() && forall h :: h in log.destroyed ==> h < device.nextHandle
    modifies device`nextHandle
    ensures device.Valid()
    ensures r.Ok? <==> createOk
    ensures r.Ok? ==>
      var s := r.value;
      fresh(s) && s.Valid() && s.shaderModule.Some? && fresh(s.shaderModule.value) &&
      s.shaderModule.value.useCount == 1 && s.shaderModule.value.log == log &&
      s.createInfo == MakeShaderCreateInfo(t, old(device.nextHandle)) && s.device == deviceHandle
  {
    var m := CreateShaderModule(code, device, createOk);
    if m.Err? {
      return Err(m.error);
    }
    var s := new Shader.Wrap(deviceHandle, m.value, t, log, reflected);
    return Ok(s);
  }
}
