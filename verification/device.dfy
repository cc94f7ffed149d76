/** The device-selection logic of `VulkanDevice.cpp`: queue-family search,
    physical-device choice, the queue set of the logical device, and the
    memory-type search. What the driver reports is an input. */
module Devices {
  import opened Common

  /** What vkGetPhysicalDeviceQueueFamilyProperties and
      vkGetPhysicalDeviceSurfaceSupportKHR say about one queue family: whether
      its flags hold VK_QUEUE_GRAPHICS_BIT, and whether it can present to the
      surface. */
  datatype QueueFamily = QueueFamily(graphics: bool, present: bool)

  /** `QueueFamiliesIndices`. */
  datatype QueueFamilyIndices = QueueFamilyIndices(graphicsFamily: Option<nat>, presentationFamily: Option<nat>)

  /** VkMemoryPropertyFlagBits; a flag word is a set of them. */
  datatype MemoryProperty = DeviceLocal | HostVisible | HostCoherent | HostCached | LazilyAllocated

  /** VK_MAX_MEMORY_TYPES, the length of VkPhysicalDeviceMemoryProperties's
      memoryTypes array. */
  const MAX_MEMORY_TYPES: nat := 32

  /** VkPhysicalDeviceMemoryProperties: `memoryTypeCount` of the fixed-size
      `memoryTypes` table are meaningful. */
  datatype MemoryProperties = MemoryProperties(memoryTypeCount: nat, memoryTypes: seq<set<MemoryProperty>>)

  /** The shape the Vulkan specification guarantees for that structure. */
  predicate WellFormedMemory(m: MemoryProperties)
  {
    |m.memoryTypes| == MAX_MEMORY_TYPES && m.memoryTypeCount <= MAX_MEMORY_TYPES
  }

  /** The parts of VkDeviceQueueCreateInfo the engine sets. */
  datatype QueueCreateInfo = QueueCreateInfo(queueFamilyIndex: nat, queueCount: nat, priority: real)

  datatype DeviceError =
    | NoPhysicalDevice              // "No Vulkan supporting physical devices."
    | NoSuitableDevice
    | DeviceIndexOutOfRange         // physicalDevices[1] read past the end
    | MissingQueueFamily            // std::optional::value() on an empty optional
    | DeviceCreationFailed
    | NoSuitableMemoryType          // "Cannot find suitable memory type"
    | MemoryIndexAssertion          // assert(memIndex <= VK_MAX_MEMORY_TYPES)

  /** `queryGraphicsFamilyIndice`: the first family with the graphics bit. */
  function QueryGraphicsFamilyIndice(families: seq<QueueFamily>): (r: Option<nat>)
    ensures r.Some? <==> exists i :: 0 <= i < |families| && families[i].graphics
    ensures r.Some? ==> r.value < |families| && families[r.value].graphics
    ensures r.Some? ==> forall k :: 0 <= k < r.value ==> !families[k].graphics
  {
    var i := FirstIndex(families, (f: QueueFamily) => f.graphics);
    if i < |families| then Some(i) else None
  }

  /** The first even index whose family can present, searching from `from`
      in steps of two: what the loop of `queryQueueFamilies` finds. */
  function FirstEvenPresent(families: seq<QueueFamily>, from: nat): (r: Option<nat>)
    requires from % 2 == 0
    ensures r.Some? ==> from <= r.value < |families| && r.value % 2 == 0 && families[r.value].present
    ensures r.Some? ==> forall k :: from <= k < r.value && k % 2 == 0 ==> !families[k].present
    ensures r.None? ==> forall k :: from <= k < |families| && k % 2 == 0 ==> !families[k].present
    decreases |families| - from
  {
    if from >= |families| then None
    else if families[from].present then Some(from)
    else FirstEvenPresent(families, from + 2)
  }

  /** `queryQueueFamilies` as written: the loop header and the body both
      increment `i`, so only families 0, 2, 4, ... are asked about
      presentation support. */
  method QueryQueueFamilies(families: seq<QueueFamily>) returns (indices: QueueFamilyIndices)
    ensures indices.graphicsFamily == QueryGraphicsFamilyIndice(families)
    ensures indices.presentationFamily == FirstEvenPresent(families, 0)
  {
    indices := QueueFamilyIndices(QueryGraphicsFamilyIndice(families), None);
    var i: nat := 0;
    while i < |families|
      invariant i % 2 == 0
      invariant FirstEvenPresent(families, i) == FirstEvenPresent(families, 0)
      decreases |families| - i
    {
      if families[i].present {
        indices := indices.(presentationFamily := Some(i));
        return;
      }
      i := i + 1;
      i := i + 1;
    }
  }

  /** The presentation family the search is evidently meant to find: the
      first family that can present. */
  function PresentationFamily(families: seq<QueueFamily>): (r: Option<nat>)
    ensures r.Some? <==> exists i :: 0 <= i < |families| && families[i].present
    ensures r.Some? ==> r.value < |families| && families[r.value].present
    ensures r.Some? ==> forall k :: 0 <= k < r.value ==> !families[k].present
  {
    var i := FirstIndex(families, (f: QueueFamily) => f.present);
    if i < |families| then Some(i) else None
  }

  /** `queryQueueFamilies` with a single increment per pass. */
  function QueueFamiliesOf(families: seq<QueueFamily>): (r: QueueFamilyIndices)
    ensures r.graphicsFamily == QueryGraphicsFamilyIndice(families)
    ensures r.presentationFamily == PresentationFamily(families)
  {
    QueueFamilyIndices(QueryGraphicsFamilyIndice(families), PresentationFamily(families))
  }

  /** The search as written never reports an odd family, and misses the
      presentation support of a device whose only presenting family is
      family 1; the single-step search finds it. */
  lemma {:induction false} OddFamiliesSkipped(families: seq<QueueFamily>)
    ensures FirstEvenPresent(families, 0).Some? ==> FirstEvenPresent(families, 0).value % 2 == 0
    ensures |families| == 2 && !families[0].present && families[1].present ==>
      FirstEvenPresent(families, 0).None? && PresentationFamily(families) == Some(1)
  {
    if |families| == 2 && !families[0].present && families[1].present {
      assert FirstEvenPresent(families, 2).None?;
    }
  }

  /** When the first presenting family is even, both searches agree. */
  lemma SearchesAgreeOnEvenFamily(families: seq<QueueFamily>)
    requires PresentationFamily(families).Some? && PresentationFamily(families).value % 2 == 0
    ensures FirstEvenPresent(families, 0) == PresentationFamily(families)
  {
  }

  /** `pickPhysicalDevice` as written: throw on zero devices, else device 0
      if it has a graphics family, else device 1, whether or not it exists
      and whatever families it has. Each device is its family list. */
  function PickPhysicalDeviceAsWritten(devices: seq<seq<QueueFamily>>): (r: Result<nat, DeviceError>)
    ensures |devices| == 0 <==> r == Err(NoPhysicalDevice)
    ensures r.Ok? ==> r.value < |devices| && r.value <= 1
    ensures |devices| > 0 && QueryGraphicsFamilyIndice(devices[0]).Some? ==> r == Ok(0)
    ensures |devices| == 1 && QueryGraphicsFamilyIndice(devices[0]).None? ==> r == Err(DeviceIndexOutOfRange)
  {
    if |devices| == 0 then Err(NoPhysicalDevice)
    else if QueryGraphicsFamilyIndice(devices[0]).Some? then Ok(0)
    else if |devices| < 2 then Err(DeviceIndexOutOfRange)
    else Ok(1)
  }

  /** The choice the trailing "No device with all required queue families
      found." throw evidently stands for: the first device with a graphics
      family, or that error. */
  function PickPhysicalDevice(devices: seq<seq<QueueFamily>>): (r: Result<nat, DeviceError>)
    ensures |devices| == 0 <==> r == Err(NoPhysicalDevice)
    ensures r.Ok? <==> exists i :: 0 <= i < |devices| && QueryGraphicsFamilyIndice(devices[i]).Some?
    ensures r.Ok? ==> r.value < |devices| && QueryGraphicsFamilyIndice(devices[r.value]).Some?
    ensures r.Ok? ==> forall k :: 0 <= k < r.value ==> QueryGraphicsFamilyIndice(devices[k]).None?
    ensures r.Err? ==> r.error == NoPhysicalDevice || r.error == NoSuitableDevice
  {
    if |devices| == 0 then Err(NoPhysicalDevice)
    else
      var i := FirstIndex(devices, (d: seq<QueueFamily>) => QueryGraphicsFamilyIndice(d).Some?);
      if i < |devices| then Ok(i) else Err(NoSuitableDevice)
  }

  /** Two devices, neither with a graphics family: the code as written picks
      device 1 anyway; the intended search reports that no device fits. */
  lemma PickAsWrittenIgnoresSecondDevice()
    ensures var noGraphics := [QueueFamily(false, true)];
      && PickPhysicalDeviceAsWritten([noGraphics, noGraphics]) == Ok(1)
      && QueryGraphicsFamilyIndice(noGraphics).None?
      && PickPhysicalDevice([noGraphics, noGraphics]) == Err(NoSuitableDevice)
  {
    var noGraphics := [QueueFamily(false, true)];
    assert QueryGraphicsFamilyIndice(noGraphics).None?;
  }

  /** The distinct family indices in ascending order, as iterating a
      `std::set<uint32_t>` of the two visits them. */
  function UniqueFamilies(graphics: nat, present: nat): (r: seq<nat>)
    ensures forall f :: f in r <==> f == graphics || f == present
    ensures Distinct(r)
    ensures forall i, j :: 0 <= i < j < |r| ==> r[i] < r[j]
    ensures |r| == (if graphics == present then 1 else 2)
  {
    if graphics == present then [graphics]
    else if graphics < present then [graphics, present]
    else [present, graphics]
  }

  /** The queue set of `createLogicalDevice`: one queue-create info with one
      queue per distinct family, in ascending family order, each with the
      priority 1.0 the code means to pass; then vkCreateDevice, whose failure
      (`createOk` false) throws. */
  method CreateLogicalDeviceQueues(indices: QueueFamilyIndices, createOk: bool)
    returns (r: Result<seq<QueueCreateInfo>, DeviceError>)
    ensures r.Ok? <==> indices.graphicsFamily.Some? && indices.presentationFamily.Some? && createOk
    ensures r.Ok? ==>
      var g, p := indices.graphicsFamily.value, indices.presentationFamily.value;
      && |r.value| == |{g, p}|
      && (forall i :: 0 <= i < |r.value| ==> r.value[i].queueFamilyIndex in {g, p})
      && (exists i :: 0 <= i < |r.value| && r.value[i].queueFamilyIndex == g)
      && (exists i :: 0 <= i < |r.value| && r.value[i].queueFamilyIndex == p)
      && (forall i, j :: 0 <= i < j < |r.value| ==> r.value[i].queueFamilyIndex < r.value[j].queueFamilyIndex)
      && (forall i :: 0 <= i < |r.value| ==> r.value[i].queueCount == 1 && r.value[i].priority == 1.0)
  {
    if indices.graphicsFamily.None? || indices.presentationFamily.None? {
      return Err(MissingQueueFamily);
    }
    var g, p := indices.graphicsFamily.value, indices.presentationFamily.value;
    var unique := UniqueFamilies(g, p);
    var infos: seq<QueueCreateInfo> := [];
    var i := 0;
    while i < |unique|
      invariant 0 <= i <= |unique| && |infos| == i
      invariant forall k :: 0 <= k < i ==> infos[k] == QueueCreateInfo(unique[k], 1, 1.0)
    {
      infos := infos + [QueueCreateInfo(unique[i], 1, 1.0)];
      i := i + 1;
    }
    if !createOk {
      return Err(DeviceCreationFailed);
    }
    assert g in unique && p in unique;
    return Ok(infos);
  }

  /** The i-th memory type is allowed by `memTypeBits` and has every requested
      property flag. */
  predicate Suitable(mem: MemoryProperties, memTypeBits: bv32, properties: set<MemoryProperty>, i: nat)
    requires i < MAX_MEMORY_TYPES && WellFormedMemory(mem)
  {
    memTypeBits & (1 << i) != 0 && properties <= mem.memoryTypes[i]
  }

  /** `getMemoryTypeIndex`: the smallest suitable index below
      `memoryTypeCount`. With no match, a caller that passed a success flag
      (`hasSuccessFlag`) gets UINT_MAX and the flag false; any other caller
      gets an exception. `success` is what is written to the flag, if
      anything. */
  method GetMemoryTypeIndex(mem: MemoryProperties, memTypeBits: bv32, properties: set<MemoryProperty>,
                            hasSuccessFlag: bool)
    returns (r: Result<nat, DeviceError>, success: Option<bool>)
    requires WellFormedMemory(mem)
    ensures r.Ok? && r.value < mem.memoryTypeCount ==>
      && Suitable(mem, memTypeBits, properties, r.value)
      && (forall k :: 0 <= k < r.value ==> !Suitable(mem, memTypeBits, properties, k))
    ensures (exists i :: 0 <= i < mem.memoryTypeCount && Suitable(mem, memTypeBits, properties, i)) <==>
            r.Ok? && r.value < mem.memoryTypeCount
    ensures success == (if hasSuccessFlag then Some(r.Ok? && r.value < mem.memoryTypeCount) else None)
    ensures r.Ok? && r.value >= mem.memoryTypeCount ==> r.value == UINT32_MAX && hasSuccessFlag
    ensures r.Err? <==> !hasSuccessFlag && forall i :: 0 <= i < mem.memoryTypeCount ==> !Suitable(mem, memTypeBits, properties, i)
    ensures r.Err? ==> r.error == NoSuitableMemoryType
  {
    var i := 0;
    while i < mem.memoryTypeCount
      invariant 0 <= i <= mem.memoryTypeCount
      invariant forall k :: 0 <= k < i ==> !Suitable(mem, memTypeBits, properties, k)
    {
      if memTypeBits & (1 << i) != 0 && properties <= mem.memoryTypes[i] {
        assert Suitable(mem, memTypeBits, properties, i);
        success := if hasSuccessFlag then Some(true) else None;
        return Ok(i), success;
      }
      i := i + 1;
    }
    if hasSuccessFlag {
      return Ok(UINT32_MAX), Some(false);
    } else {
      return Err(NoSuitableMemoryType), None;
    }
  }

  /** The guard of `getMemoryProperties` as written. */
  predicate MemoryIndexGuardAsWritten(memIndex: nat)
  {
    memIndex <= MAX_MEMORY_TYPES
  }

  /** The guard admits index 32, one past the end of the 32-entry table. */
  lemma GuardAdmitsOnePastEnd(mem: MemoryProperties)
    requires WellFormedMemory(mem)
    ensures MemoryIndexGuardAsWritten(MAX_MEMORY_TYPES) && !(MAX_MEMORY_TYPES < |mem.memoryTypes|)
  {
  }

  /** `getMemoryProperties` with the bound the table needs: the flags of
      memory type `memIndex`, and the assertion failure for any index past
      the table. */
  function GetMemoryProperties(mem: MemoryProperties, memIndex: nat): (r: Result<set<MemoryProperty>, DeviceError>)
    requires WellFormedMemory(mem)
    ensures r.Ok? <==> memIndex < |mem.memoryTypes|
    ensures r.Ok? ==> r.value == mem.memoryTypes[memIndex]
    ensures r.Err? ==> r.error == MemoryIndexAssertion
  {
    if memIndex < MAX_MEMORY_TYPES then Ok(mem.memoryTypes[memIndex]) else Err(MemoryIndexAssertion)
  }

  /** A type index found by the search always passes the corrected guard,
      and its flags hold the requested properties. */
  lemma {:induction false} FoundTypeHasProperties(mem: MemoryProperties, memTypeBits: bv32,
                                                  properties: set<MemoryProperty>, i: nat)
    requires WellFormedMemory(mem) && i < mem.memoryTypeCount && Suitable(mem, memTypeBits, properties, i)
    ensures GetMemoryProperties(mem, i).Ok? && properties <= GetMemoryProperties(mem, i).value
  {
  }
}
