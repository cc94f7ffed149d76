/** The slice of a Vulkan logical device the engine's bookkeeping depends on:
    a handle allocator and the signal state of every fence.

    Fences follow the Vulkan specification, chapter "Synchronization and Cache
    Control", section "Fences": a fence is either signalled or unsignalled;
    vkWaitForFences with an infinite timeout returns once the fence is signalled
    (so afterwards it is), vkResetFences makes it unsignalled, and a fence handed
    to vkQueueSubmit becomes signalled only when the GPU finishes that batch,
    which in this model is observed through the next wait. */
module Vk {
  import opened Common

  class Device {
    /** Signal state of every fence created on this device. */
    var signalled: map<Handle, bool>
    /** Next handle value to give out; handles are never reused. */
    var nextHandle: Handle

    ghost predicate Valid()
      reads this
    {
      0 < nextHandle && forall h :: h in signalled ==> 0 < h < nextHandle
    }

    constructor ()
      ensures Valid() && signalled == map[] && nextHandle == 1
    {
      signalled := map[];
      nextHandle := 1;
    }

    /** A fresh non-null handle for a non-fence object (semaphore, command buffer,
        descriptor set, image view, ...). */
    method CreateHandle() returns (h: Handle)
      requires Valid()
      modifies this`nextHandle
      ensures Valid()
      ensures h == old(nextHandle) && h != NULL_HANDLE && h !in signalled
      ensures nextHandle == old(nextHandle) + 1
    {
      h := nextHandle;
      nextHandle := nextHandle + 1;
    }

    /** `n` fresh handles at once, as vkAllocateDescriptorSets fills an array
        of sets. */
    method AllocateHandles(n: nat) returns (hs: seq<Handle>)
      requires Valid()
      modifies this`nextHandle
      ensures Valid()
      ensures hs == HandleRange(old(nextHandle), n) && nextHandle == old(nextHandle) + n
      ensures forall h :: h in hs ==> h != NULL_HANDLE && h !in signalled
    {
      hs := [];
      var i := 0;
      while i < n
        invariant 0 <= i <= n && Valid()
        invariant hs == HandleRange(old(nextHandle), i) && nextHandle == old(nextHandle) + i
      {
        var h := CreateHandle();
        hs := hs + [h];
        i := i + 1;
      }
    }

    /** vkCreateFence; `signalledBit` is VK_FENCE_CREATE_SIGNALED_BIT. */
    method CreateFence(signalledBit: bool) returns (f: Handle)
      requires Valid()
      modifies this
      ensures Valid()
      ensures f == old(nextHandle) && f != NULL_HANDLE && f !in old(signalled)
      ensures signalled == old(signalled)[f := signalledBit]
      ensures nextHandle == old(nextHandle) + 1
    {
      f := nextHandle;
      signalled := signalled[f := signalledBit];
      nextHandle := nextHandle + 1;
    }

    /** vkWaitForFences on one fence with an infinite timeout. */
    method WaitForFence(f: Handle)
      requires f in signalled
      modifies this`signalled
      ensures signalled == old(signalled)[f := true]
    {
      signalled := signalled[f := true];
    }

    /** vkResetFences on one fence. */
    method ResetFence(f: Handle)
      requires f in signalled
      modifies this`signalled
      ensures signalled == old(signalled)[f := false]
    {
      signalled := signalled[f := false];
    }
  }

  /** The vkDestroy* calls issued so far (pipelines, pipeline layouts, shader
      modules), in call order. */
  class DestroyLog {
    var destroyed: seq<Handle>

    constructor ()
      ensures destroyed == []
    {
      destroyed := [];
    }

    method Destroy(h: Handle)
      modifies this
      ensures destroyed == old(destroyed) + [h]
    {
      destroyed := destroyed + [h];
    }
  }
}
