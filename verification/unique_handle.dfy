/** `UniqueVkHandle<T>`: a Vulkan handle with move-only ownership. Moving
    leaves VK_NULL_HANDLE behind, so an "if (handle) destroy" check in a
    destructor can never fire for both the source and the target. Copy
    construction is deleted, so no member models it. */
module UniqueHandles {
  import opened Common

  class UniqueVkHandle {
    var data: Handle

    /** `UniqueVkHandle(T data)`. */
    constructor (data: Handle)
      ensures this.data == data
    {
      this.data := data;
    }

    /** `UniqueVkHandle(UniqueHandle&&)`: the value moves over and the source
        becomes null, so at most one of the two holds a non-null handle. */
    constructor Move(other: UniqueVkHandle)
      modifies other
      ensures data == old(other.data) && other.data == NULL_HANDLE
      ensures data == NULL_HANDLE || other.data == NULL_HANDLE
    {
      data := other.data;
      new;
      other.data := NULL_HANDLE;
    }

    /** `operator T()`. */
    function Value(): (h: Handle)
      reads this
      ensures h == data
    {
      data
    }
  }

  /** The handles that "destroy if non-null" destructors of the given holders
      would release. */
  function NonNull(hs: seq<Handle>): (r: seq<Handle>)
    ensures forall h :: h in r <==> h in hs && h != NULL_HANDLE
    ensures |r| <= |hs|
  {
    if |hs| == 0 then []
    else (if hs[0] != NULL_HANDLE then [hs[0]] else []) + NonNull(hs[1..])
  }

  /** After a move, destroying both the source and the target releases the
      original handle exactly once if it was non-null, and nothing otherwise. */
  lemma {:induction false} MoveThenDestroyBoth(original: Handle)
    ensures NonNull([original, NULL_HANDLE]) == (if original != NULL_HANDLE then [original] else [])
    ensures NonNull([NULL_HANDLE, original]) == (if original != NULL_HANDLE then [original] else [])
  {
    assert [original, NULL_HANDLE][1..] == [NULL_HANDLE];
    assert [NULL_HANDLE][1..] == [];
    assert [NULL_HANDLE, original][1..] == [original];
    assert [original][1..] == [];
  }
}
