/** `render::memory::VmaVulkanBuffer`: a VMA allocation seen as a fixed-length
    byte sequence, with a host mapping that is opened on demand and closed
    again by the copy routines when they opened it. `mapCount` is the number
    of vmaMapMemory calls not yet matched by vmaUnmapMemory, and `flushes`
    records every vmaFlushAllocation range in call order. */
module VmaBuffers {
  import opened Common

  /** A range handed to vmaFlushAllocation, relative to the allocation. */
  datatype FlushRange = FlushRange(offset: nat, size: nat)

  datatype BufferError = OutOfBounds

  /** `mem` with the bytes at [offset, offset + |chunk|) replaced by `chunk`. */
  function Overwrite(mem: seq<Byte>, offset: nat, chunk: seq<Byte>): (r: seq<Byte>)
    requires offset + |chunk| <= |mem|
    ensures |r| == |mem|
    ensures r[offset..offset + |chunk|] == chunk
    ensures forall j :: 0 <= j < |mem| && !(offset <= j < offset + |chunk|) ==> r[j] == mem[j]
  {
    mem[..offset] + chunk + mem[offset + |chunk|..]
  }

  /** Byte `j` of the allocation lies in the flushed range `r`. */
  predicate Covers(r: FlushRange, j: nat)
  {
    r.offset <= j < r.offset + r.size
  }

  /** The flush an offset write evidently means: exactly the bytes it wrote. */
  function WrittenRangeFlush(offset: nat, size: nat): (r: FlushRange)
    ensures forall j: nat :: Covers(r, j) <==> offset <= j < offset + size
  {
    FlushRange(offset, size)
  }

  /** The flush of an offset write as written is [0, size): a write that
      starts at or past `size` has none of its bytes flushed, while the
      intended range covers all of them. */
  lemma OffsetWriteNotFlushed(offset: nat, size: nat)
    requires 0 < size <= offset
    ensures forall j: nat :: offset <= j < offset + size ==> !Covers(FlushRange(0, size), j)
    ensures forall j: nat :: offset <= j < offset + size ==> Covers(WrittenRangeFlush(offset, size), j)
  {
  }

  /** `x` is a whole number of atoms. */
  predicate IsMultiple(x: nat, atom: nat)
    requires atom > 0
    decreases x
  {
    x == 0 || (x >= atom && IsMultiple(x - atom, atom))
  }

  /** The least multiple of `atom` that is at least `x`. */
  function RoundUp(x: nat, atom: nat): (r: nat)
    requires atom > 0
    ensures IsMultiple(r, atom) && x <= r < x + atom
    decreases x
  {
    if x == 0 then 0
    else if x <= atom then atom
    else atom + RoundUp(x - atom, atom)
  }

  /** The greatest multiple of `atom` that is at most `x`. */
  function RoundDown(x: nat, atom: nat): (r: nat)
    requires atom > 0
    ensures IsMultiple(r, atom) && r <= x < r + atom
    decreases x
  {
    if x < atom then 0 else atom + RoundDown(x - atom, atom)
  }

  /** The range vmaFlushAllocation hands to vkFlushMappedMemoryRanges for a
      requested range `r`: widened outward to multiples of the device's
      nonCoherentAtomSize `atom` (VMA aligns allocations in non-coherent
      memory to `atom`, so rounding relative to the allocation agrees). The
      clamp to the allocation's end only shrinks it and is not modelled. */
  function AtomAligned(r: FlushRange, atom: nat): (a: FlushRange)
    requires atom > 0
    ensures IsMultiple(a.offset, atom) && IsMultiple(a.offset + a.size, atom)
    ensures r.offset - atom < a.offset <= r.offset
    ensures r.offset + r.size <= a.offset + a.size < r.offset + r.size + atom
  {
    var lo := RoundDown(r.offset, atom);
    FlushRange(lo, RoundUp(r.offset + r.size, atom) - lo)
  }

  /** Even after the rounding to `atom`, the [0, size) flush as written misses
      every byte of a write that starts at or past `size` rounded up to
      `atom`, while the rounded intended range still covers them all. */
  lemma RoundedWriteNotFlushed(offset: nat, size: nat, atom: nat)
    requires 0 < size && 0 < atom && RoundUp(size, atom) <= offset
    ensures forall j: nat :: offset <= j < offset + size ==>
      && !Covers(AtomAligned(FlushRange(0, size), atom), j)
      && Covers(AtomAligned(WrittenRangeFlush(offset, size), atom), j)
  {
  }

  class VmaBuffer {
    var bytes: seq<Byte>
    var mapped: bool
    var mapCount: nat
    var flushes: seq<FlushRange>
    var descriptor: BufferInfo
    const buffer: Handle
    /** allocation_info.size and allocation_info.offset. */
    const allocationSize: nat
    const allocationOffset: nat
    /** The memory type has VK_MEMORY_PROPERTY_HOST_COHERENT_BIT. */
    const hostCoherent: bool

    /** The allocation's length never changes, and the object holds exactly
        one VMA mapping while its mapped pointer is set. */
    ghost predicate Valid()
      reads this
    {
      |bytes| == allocationSize && mapCount == (if mapped then 1 else 0)
    }

    /** The constructor: allocate (the allocation's buffer, size, offset,
        coherence and its unspecified first contents `initialBytes` are
        inputs), copy the initial data with `copyToBuffer(data, size)`, and
        fill the descriptor. */
    constructor (data: Option<seq<Byte>>, size: nat, buffer: Handle, allocationSize: nat,
                 allocationOffset: nat, hostCoherent: bool, initialBytes: seq<Byte>)
      requires data.Some? ==> size <= |data.value|
      requires |initialBytes| == allocationSize
      ensures Valid() && !mapped
      ensures this.buffer == buffer && this.allocationSize == allocationSize
      ensures this.allocationOffset == allocationOffset && this.hostCoherent == hostCoherent
      ensures descriptor == BufferInfo(buffer, allocationOffset, allocationSize)
      ensures if data.None? || size == 0 then bytes == initialBytes && flushes == []
        else
          var n := Min(size, allocationSize);
          bytes == Overwrite(initialBytes, 0, data.value[..n]) &&
          flushes == (if hostCoherent then [] else [FlushRange(0, n)])
    {
      this.buffer := buffer;
      this.allocationSize := allocationSize;
      this.allocationOffset := allocationOffset;
      this.hostCoherent := hostCoherent;
      bytes := initialBytes;
      mapped := false;
      mapCount := 0;
      flushes := [];
      descriptor := BufferInfo(NULL_HANDLE, 0, 0);
      new;
      CopyToBuffer(data, size);
      CreateBufferDescriptor();
    }

    /** `map`: maps once; a second call does nothing. */
    method Map()
      requires Valid()
      modifies this`mapped, this`mapCount
      ensures Valid() && mapped
    {
      if mapped {
        return;
      }
      mapCount := mapCount + 1;
      mapped := true;
    }

    /** `unmap`: unmaps and clears the pointer; a second call does nothing. */
    method Unmap()
      requires Valid()
      modifies this`mapped, this`mapCount
      ensures Valid() && !mapped
    {
      if !mapped {
        return;
      }
      mapCount := mapCount - 1;
      mapped := false;
    }

    /** `mem`: the mapped pointer, mapping on demand. */
    method Mem()
      requires Valid()
      modifies this`mapped, this`mapCount
      ensures Valid() && mapped
    {
      if !mapped {
        Map();
      }
    }

    /** `createBufferDescriptor`: the whole allocation. */
    method CreateBufferDescriptor()
      modifies this`descriptor
      ensures descriptor == BufferInfo(buffer, allocationOffset, allocationSize)
    {
      descriptor := BufferInfo(buffer, allocationOffset, allocationSize);
    }

    method FlushIfNotCoherent(size: nat)
      modifies this`flushes
      ensures flushes == old(flushes) + (if hostCoherent then [] else [FlushRange(0, size)])
    {
      if !hostCoherent {
        flushes := flushes + [FlushRange(0, size)];
      }
    }

    /** `copyToBuffer(data, size)`: a null pointer or a zero size does nothing;
        otherwise the first min(size, allocation size) bytes are written at the
        start of the allocation, flushed when the memory is not host-coherent,
        and the mapping is left as it was found. */
    method CopyToBuffer(data: Option<seq<Byte>>, size: nat)
      requires Valid() && (data.Some? ==> size <= |data.value|)
      modifies this`bytes, this`mapped, this`mapCount, this`flushes
      ensures Valid() && mapped == old(mapped)
      ensures if data.None? || size == 0 then bytes == old(bytes) && flushes == old(flushes)
        else
          var n := Min(size, allocationSize);
          bytes == Overwrite(old(bytes), 0, data.value[..n]) &&
          flushes == old(flushes) + (if hostCoherent then [] else [FlushRange(0, n)])
    {
      if data.None? || size == 0 {
        return;
      }
      var n := size;
      if n > allocationSize {
        n := allocationSize;
      }
      var wasMapped := mapped;
      Mem();
      bytes := Overwrite(bytes, 0, data.value[..n]);
      FlushIfNotCoherent(n);
      if !wasMapped {
        Unmap();
      }
    }

    /** `copyToBuffer(data, offset, size)`: a null pointer or a zero size does
        nothing; a range past the allocation throws (leaving the buffer
        mapped); otherwise exactly [offset, offset + size) is written, the
        flushed range is [0, size), and the mapping is left as it was found. */
    method CopyToBufferAt(data: Option<seq<Byte>>, offset: nat, size: nat) returns (r: Result<(), BufferError>)
      requires Valid() && (data.Some? ==> size <= |data.value|)
      modifies this`bytes, this`mapped, this`mapCount, this`flushes
      ensures Valid()
      ensures r.Err? <==> data.Some? && size > 0 && offset + size > allocationSize
      ensures data.None? || size == 0 ==> bytes == old(bytes) && flushes == old(flushes) && mapped == old(mapped)
      ensures r.Err? ==> bytes == old(bytes) && flushes == old(flushes) && mapped
      ensures r.Ok? && data.Some? && size > 0 ==>
        && offset + size <= allocationSize
        && bytes == Overwrite(old(bytes), offset, data.value[..size])
        && flushes == old(flushes) + (if hostCoherent then [] else [FlushRange(0, size)])
        && mapped == old(mapped)
    {
      if data.None? || size == 0 {
        return Ok(());
      }
      var wasMapped := mapped;
      Mem();
      if allocationSize < offset + size {
        return Err(OutOfBounds);
      }
      bytes := Overwrite(bytes, offset, data.value[..size]);
      FlushIfNotCoherent(size);
      if !wasMapped {
        Unmap();
      }
      return Ok(());
    }
  }
}
