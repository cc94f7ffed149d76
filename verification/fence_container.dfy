/** `render::sync::FenceContainer`: a fixed-size table of fence handles that
    can be waited on and reset by index, where a null entry makes both
    operations no-ops.

    The header does not compile as written, and nothing includes it: the
    loop bound calls `size()` on the `size_t` parameter, `resize` needs
    movable elements and `std::atomic` is not, the wait and reset calls
    pass a `VkFence` where a `const VkFence*` is expected, the tag
    constructor leaves the reference member `vkDevice` uninitialised, and
    every member is private. This module gives the evident intended
    semantics: a sized table of signalled fences, or of null handles, with
    the wait, reset and indexing operations acting on one entry. */
module FenceContainers {
  import opened Common
  import opened Vk

  class FenceContainer {
    var fences: seq<Handle>
    const device: Device

    /** Every non-null entry names a fence the device knows. */
    ghost predicate Valid()
      reads this, device
    {
      device.Valid() &&
      forall i :: 0 <= i < |fences| ==> fences[i] == NULL_HANDLE || fences[i] in device.signalled
    }

    /** The sized constructor: `size` fresh fences, each created signalled;
        the device's other fences keep their state. */
    constructor Sized(device: Device, size: nat)
      requires device.Valid()
      modifies device
      ensures Valid() && this.device == device
      ensures fences == HandleRange(old(device.nextHandle), size)
      ensures device.nextHandle == old(device.nextHandle) + size
      ensures forall i :: 0 <= i < size ==> fences[i] in device.signalled && device.signalled[fences[i]]
      ensures forall h :: h in old(device.signalled) ==>
                h in device.signalled && device.signalled[h] == old(device.signalled)[h]
      ensures forall h :: h in device.signalled ==> h in old(device.signalled) || h in fences
    {
      var fs: seq<Handle> := [];
      var i := 0;
      while i < size
        invariant 0 <= i <= size && device.Valid()
        invariant device.nextHandle == old(device.nextHandle) + i
        invariant fs == HandleRange(old(device.nextHandle), i)
        invariant forall k :: 0 <= k < i ==> fs[k] in device.signalled && device.signalled[fs[k]]
        invariant forall h :: h in old(device.signalled) ==>
                    h in device.signalled && device.signalled[h] == old(device.signalled)[h]
        invariant forall h :: h in device.signalled ==> h in old(device.signalled) || h in fs
      {
        var f := device.CreateFence(true);
        fs := fs + [f];
        i := i + 1;
      }
      this.device := device;
      fences := fs;
    }

    /** The null-tag constructor: `size` entries, all VK_NULL_HANDLE. */
    constructor NullHandles(device: Device, size: nat)
      requires device.Valid()
      ensures Valid() && this.device == device
      ensures |fences| == size && forall i :: 0 <= i < size ==> fences[i] == NULL_HANDLE
    {
      this.device := device;
      fences := seq(size, _ => NULL_HANDLE);
    }

    /** `waitForFence`: blocks until entry `index` is signalled; a null entry
        returns at once. */
    method WaitForFence(index: nat)
      requires Valid() && index < |fences|
      modifies device`signalled
      ensures Valid() && fences == old(fences)
      ensures device.signalled ==
        if fences[index] == NULL_HANDLE then old(device.signalled)
        else old(device.signalled)[fences[index] := true]
    {
      if fences[index] == NULL_HANDLE {
        return;
      }
      device.WaitForFence(fences[index]);
    }

    /** `resetFence`: unsignals entry `index`; a null entry is left alone. */
    method ResetFence(index: nat)
      requires Valid() && index < |fences|
      modifies device`signalled
      ensures Valid() && fences == old(fences)
      ensures device.signalled ==
        if fences[index] == NULL_HANDLE then old(device.signalled)
        else old(device.signalled)[fences[index] := false]
    {
      if fences[index] != NULL_HANDLE {
        device.ResetFence(fences[index]);
      }
    }

    /** `operator[]` read through the returned reference. */
    function At(idx: nat): (f: Handle)
      reads this
      requires idx < |fences|
      ensures f == fences[idx] && f in fences
    {
      fences[idx]
    }

    /** `operator[]` written through the returned reference. */
    method Assign(idx: nat, f: Handle)
      requires Valid() && idx < |fences|
      requires f == NULL_HANDLE || f in device.signalled
      modifies this`fences
      ensures Valid() && fences == old(fences)[idx := f]
    {
      fences := fences[idx := f];
    }
  }
}
