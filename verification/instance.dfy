/** `render::VulkanInstance`: the extension list, the validation-layer check,
    the instance create info and the debug messenger. What the loader and
    GLFW report is an input. */
module Instances {
  import opened Common
  import opened Vk

  /** VK_EXT_DEBUG_UTILS_EXTENSION_NAME. */
  const DEBUG_UTILS_EXTENSION_NAME: string := "VK_EXT_debug_utils"

  /** The one validation layer the engine asks for. */
  const KHRONOS_VALIDATION: string := "VK_LAYER_KHRONOS_validation"

  /** The VkResult values that matter here. */
  datatype VkResult = Success | ErrorExtensionNotPresent | OtherError(code: int)

  /** The parts of VkInstanceCreateInfo that vary. */
  datatype InstanceCreateInfo = InstanceCreateInfo(extensions: seq<string>, enabledLayers: seq<string>)

  datatype InstanceError =
    | ValidationLayersUnavailable    // "validation layers requested, not available."
    | InstanceCreationFailed
    | DebugMessengerFailed           // "failed to set up debug messenger"

  /** `getRequiredExtensions`: GLFW's list in its order, then the debug-utils
      extension iff validation is enabled. */
  function GetRequiredExtensions(glfwExtensions: seq<string>, enableValidationLayers: bool): (r: seq<string>)
    ensures |r| == |glfwExtensions| + (if enableValidationLayers then 1 else 0)
    ensures r[..|glfwExtensions|] == glfwExtensions
    ensures enableValidationLayers ==> r[|r| - 1] == DEBUG_UTILS_EXTENSION_NAME
    ensures !enableValidationLayers ==> r == glfwExtensions
  {
    if enableValidationLayers then glfwExtensions + [DEBUG_UTILS_EXTENSION_NAME] else glfwExtensions
  }

  /** Whether `layer` is one of the requested names. */
  predicate Requested(requested: seq<string>, layer: string)
  {
    exists j :: 0 <= j < |requested| && requested[j] == layer
  }

  /** `checkValidationLayerSupport`: the nested search over the available
      layers (outer) and the requested names (inner), returning on the first
      equal pair. It holds iff SOME requested layer is available. */
  function CheckValidationLayerSupport(requested: seq<string>, available: seq<string>): (r: bool)
    ensures r <==> exists i, j :: 0 <= i < |available| && 0 <= j < |requested| && available[i] == requested[j]
  {
    if |available| == 0 then false
    else if Requested(requested, available[0]) then true
    else
      var rest := CheckValidationLayerSupport(requested, available[1..]);
      assert forall i :: 1 <= i < |available| ==> available[i] == available[1..][i - 1];
      rest
  }

  /** With a single requested layer, as `createInstance` passes, the
      some-layer check is the every-layer check. */
  lemma {:induction false} SingleLayerCheckIsComplete(layer: string, available: seq<string>)
    ensures CheckValidationLayerSupport([layer], available) <==> layer in available
  {
    if layer in available {
      var i :| 0 <= i < |available| && available[i] == layer;
      assert available[i] == [layer][0];
    }
  }

  /** With several requested layers, one available layer is enough: the
      check does not demand all of them. */
  lemma SomeLayerIsEnough()
    ensures CheckValidationLayerSupport([KHRONOS_VALIDATION, "VK_LAYER_missing"], [KHRONOS_VALIDATION])
  {
    assert [KHRONOS_VALIDATION][0] == [KHRONOS_VALIDATION, "VK_LAYER_missing"][0];
  }

  /** `createInstance`: throws iff validation is requested and the Khronos
      layer is not available, or vkCreateInstance fails (`createOk` false).
      The extensions are the required ones; the layer list is the validation
      layer with validation on and empty with it off. */
  function CreateInstance(enableValidationLayers: bool, glfwExtensions: seq<string>,
                          availableLayers: seq<string>, createOk: bool): (r: Result<InstanceCreateInfo, InstanceError>)
    ensures r == Err(ValidationLayersUnavailable) <==>
      enableValidationLayers && KHRONOS_VALIDATION !in availableLayers
    ensures r.Ok? <==> (!enableValidationLayers || KHRONOS_VALIDATION in availableLayers) && createOk
    ensures r.Ok? ==> r.value.extensions == GetRequiredExtensions(glfwExtensions, enableValidationLayers)
    ensures r.Ok? ==> |r.value.enabledLayers| == (if enableValidationLayers then 1 else 0)
    ensures r.Ok? && enableValidationLayers ==> r.value.enabledLayers == [KHRONOS_VALIDATION]
  {
    SingleLayerCheckIsComplete(KHRONOS_VALIDATION, availableLayers);
    if enableValidationLayers && !CheckValidationLayerSupport([KHRONOS_VALIDATION], availableLayers) then
      Err(ValidationLayersUnavailable)
    else
      var extensions := GetRequiredExtensions(glfwExtensions, enableValidationLayers);
      var info := InstanceCreateInfo(extensions, if enableValidationLayers then [KHRONOS_VALIDATION] else []);
      if createOk then Ok(info) else Err(InstanceCreationFailed)
  }

  /** `CreateDebugUtilsMessengerEXT`: EXTENSION_NOT_PRESENT when the loader
      finds no entry point (`found` false), else what the entry point
      returns. */
  function CreateDebugUtilsMessenger(found: bool, entryPointResult: VkResult): (r: VkResult)
    ensures !found ==> r == ErrorExtensionNotPresent
    ensures found ==> r == entryPointResult
  {
    if found then entryPointResult else ErrorExtensionNotPresent
  }

  /** `setupDebugMessenger`: a null messenger with validation off; otherwise a
      fresh messenger, or a throw when the creation does not succeed. */
  method SetupDebugMessenger(vk: Device, enableValidationLayers: bool, found: bool, entryPointResult: VkResult)
    returns (r: Result<Handle, InstanceError>)
    requires vk.Valid()
    modifies vk`nextHandle
    ensures vk.Valid()
    ensures !enableValidationLayers ==> r == Ok(NULL_HANDLE)
    ensures r.Err? <==> enableValidationLayers && CreateDebugUtilsMessenger(found, entryPointResult) != Success
    ensures r.Ok? && enableValidationLayers ==> r.value != NULL_HANDLE && r.value == old(vk.nextHandle)
  {
    if !enableValidationLayers {
      return Ok(NULL_HANDLE);
    }
    if CreateDebugUtilsMessenger(found, entryPointResult) != Success {
      return Err(DebugMessengerFailed);
    }
    var messenger := vk.CreateHandle();
    return Ok(messenger);
  }

  class VulkanInstance {
    var validationLayersEnabled: bool
    var vkInstance: Handle
    var debugMessenger: Handle

    constructor (debugFlag: bool, instance: Handle, messenger: Handle)
      ensures validationLayersEnabled == debugFlag && vkInstance == instance && debugMessenger == messenger
    {
      validationLayersEnabled := debugFlag;
      vkInstance := instance;
      debugMessenger := messenger;
    }
  }

  /** `VulkanInstance(debugFlag)`: the instance, then the debug messenger
      only when validation is on; the messenger stays null otherwise. */
  method NewInstance(vk: Device, debugFlag: bool, glfwExtensions: seq<string>, availableLayers: seq<string>,
                     createOk: bool, found: bool, entryPointResult: VkResult)
    returns (r: Result<(VulkanInstance, InstanceCreateInfo), InstanceError>)
    requires vk.Valid()
    modifies vk`nextHandle
    ensures vk.Valid()
    ensures r.Ok? <==>
      && CreateInstance(debugFlag, glfwExtensions, availableLayers, createOk).Ok?
      && (!debugFlag || CreateDebugUtilsMessenger(found, entryPointResult) == Success)
    ensures r.Ok? ==>
      var (inst, info) := r.value;
      && fresh(inst) && inst.validationLayersEnabled == debugFlag
      && info == CreateInstance(debugFlag, glfwExtensions, availableLayers, createOk).value
      && inst.vkInstance != NULL_HANDLE
      && (inst.debugMessenger == NULL_HANDLE <==> !debugFlag)
  {
    var ci := CreateInstance(debugFlag, glfwExtensions, availableLayers, createOk);
    if ci.Err? {
      return Err(ci.error);
    }
    var instance := vk.CreateHandle();
    var messenger := NULL_HANDLE;
    if debugFlag {
      var m := SetupDebugMessenger(vk, debugFlag, found, entryPointResult);
      if m.Err? {
        return Err(m.error);
      }
      messenger := m.value;
    }
    var inst := new VulkanInstance(debugFlag, instance, messenger);
    return Ok((inst, ci.value));
  }
}
