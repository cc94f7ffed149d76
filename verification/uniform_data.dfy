/** `render::memory::UniformData<T, N>`: N copies of a uniform block T kept
    on the host (`uboArr`) and pushed into one permanently mapped buffer,
    copy i at byte offset `alignedSize * i`, where `alignedSize` is sizeof(T)
    rounded up to the device's minUniformBufferOffsetAlignment.

    T's memory image (what memcpy copies) is `encode`, sizeof(T) bytes long. */
module UniformBuffers {
  import opened Common
  import opened VmaBuffers

  /** `calcAlignedTypeSize<T>(alignment)`: sizeof(T) rounded up to a multiple
      of `alignment`. */
  function CalcAlignedTypeSize(sizeOfT: nat, alignment: nat): (r: nat)
    requires alignment > 0
    ensures r % alignment == 0 && sizeOfT <= r < sizeOfT + alignment
  {
    var wholes := sizeOfT / alignment;
    var mod := sizeOfT % alignment;
    RoundUpFacts(sizeOfT, alignment);
    if mod > 0 then wholes * alignment + alignment else sizeOfT
  }

  lemma RoundUpFacts(sizeOfT: nat, alignment: nat)
    requires alignment > 0
    ensures sizeOfT == (sizeOfT / alignment) * alignment + sizeOfT % alignment
    ensures ((sizeOfT / alignment) * alignment + alignment) % alignment == 0
  {
    var w := sizeOfT / alignment;
    assert w * alignment + alignment == (w + 1) * alignment;
    MultipleMod(w + 1, alignment);
  }

  lemma MultipleMod(q: nat, a: nat)
    requires a > 0
    ensures (q * a) % a == 0
  {
    DivModUnique(q * a, a, q, 0);
  }

  /** Euclidean quotient and remainder are unique. */
  lemma DivModUnique(x: int, a: int, k: int, rem: int)
    requires a > 0 && 0 <= rem < a && x == a * k + rem
    ensures x / a == k && x % a == rem
  {
    var q, r := x / a, x % a;
    assert x == a * q + r;
    if q > k {
      MulAtLeast(a, q - k);
    } else if q < k {
      MulAtLeast(a, k - q);
    }
  }

  lemma MulAtLeast(a: int, d: int)
    requires a > 0 && d >= 1
    ensures a * d >= a
  {
    assert a * d == a + a * (d - 1);
  }

  lemma MulLe(a: nat, x: nat, y: nat)
    requires x <= y
    ensures a * x <= a * y
  {
    assert a * y == a * x + a * (y - x);
  }

  /** The rounded size is the smallest multiple of the alignment that holds a T. */
  lemma {:induction false} AlignedSizeIsSmallestMultiple(sizeOfT: nat, alignment: nat, m: nat)
    requires alignment > 0 && m % alignment == 0 && m >= sizeOfT
    ensures CalcAlignedTypeSize(sizeOfT, alignment) <= m
  {
    var r := CalcAlignedTypeSize(sizeOfT, alignment);
    var p, q := r / alignment, m / alignment;
    RoundUpFacts(r, alignment);
    RoundUpFacts(m, alignment);
    if q < p {
      MulLe(alignment, q, p - 1);
    }
  }

  /** The worked examples for an alignment of 40 bytes. */
  lemma AlignedSizeExamples()
    ensures CalcAlignedTypeSize(64, 40) == 80
    ensures CalcAlignedTypeSize(120, 40) == 120
    ensures CalcAlignedTypeSize(12, 40) == 40
  {
  }

  /** Start of slot i; a named function so quantifiers can hang on it. */
  function SlotStart(alignedSize: nat, i: nat): nat
  {
    alignedSize * i
  }

  /** The `size` bytes of slot i. */
  function SlotBytes(mem: seq<Byte>, alignedSize: nat, size: nat, i: nat): seq<Byte>
    requires SlotStart(alignedSize, i) + size <= |mem|
  {
    mem[SlotStart(alignedSize, i)..SlotStart(alignedSize, i) + size]
  }

  /** Every one of n slots of `alignedSize` bytes lies inside `alignedSize * n`. */
  lemma SlotsInBounds(alignedSize: nat, size: nat, n: nat, len: nat)
    requires size <= alignedSize && alignedSize * n <= len
    ensures forall i :: 0 <= i < n ==> SlotStart(alignedSize, i) + size <= len
  {
    forall i | 0 <= i < n ensures SlotStart(alignedSize, i) + size <= len {
      MulLe(alignedSize, i + 1, n);
    }
  }

  /** The uniform-buffer descriptor covering slot i: exactly slot i of the buffer. */
  function SlotInfo(buffer: Handle, alignedSize: nat, sizeOfT: nat, i: nat): (b: BufferInfo)
    ensures b.buffer == buffer && b.offset == SlotStart(alignedSize, i) && b.range == sizeOfT
  {
    BufferInfo(buffer, SlotStart(alignedSize, i), sizeOfT)
  }

  /** Byte j lies in one of the first `count` slots. */
  ghost predicate InSomeSlot(j: nat, alignedSize: nat, size: nat, count: nat)
  {
    exists i :: 0 <= i < count && SlotStart(alignedSize, i) <= j < SlotStart(alignedSize, i) + size
  }

  /** The first `count` slots written in order: slot i gets `slots[i]` at
      `alignedSize * i`. */
  function WriteSlots(mem: seq<Byte>, slots: seq<seq<Byte>>, alignedSize: nat, size: nat, count: nat): (r: seq<Byte>)
    requires count <= |slots| && size <= alignedSize && alignedSize * count <= |mem|
    requires forall i :: 0 <= i < |slots| ==> |slots[i]| == size
    ensures |r| == |mem|
    decreases count
  {
    if count == 0 then mem
    else
      MulLe(alignedSize, count - 1, count);
      assert alignedSize * (count - 1) + alignedSize == alignedSize * count;
      Overwrite(WriteSlots(mem, slots, alignedSize, size, count - 1), SlotStart(alignedSize, count - 1), slots[count - 1])
  }

  /** Writing one more slot overwrites just that slot. */
  lemma WriteSlotsStep(mem: seq<Byte>, slots: seq<seq<Byte>>, alignedSize: nat, size: nat, count: nat)
    requires count < |slots| && size <= alignedSize && alignedSize * (count + 1) <= |mem|
    requires forall i :: 0 <= i < |slots| ==> |slots[i]| == size
    ensures alignedSize * count <= |mem| && SlotStart(alignedSize, count) + size <= |mem|
    ensures WriteSlots(mem, slots, alignedSize, size, count + 1)
            == Overwrite(WriteSlots(mem, slots, alignedSize, size, count), SlotStart(alignedSize, count), slots[count])
  {
    MulLe(alignedSize, count, count + 1);
  }

  /** After writing the first `count` slots, slot i holds `slots[i]`. */
  lemma {:induction false} WriteSlotsFillsSlots(mem: seq<Byte>, slots: seq<seq<Byte>>, alignedSize: nat, size: nat, count: nat)
    requires count <= |slots| && size <= alignedSize && alignedSize * count <= |mem|
    requires forall i :: 0 <= i < |slots| ==> |slots[i]| == size
    ensures var r := WriteSlots(mem, slots, alignedSize, size, count);
      forall i :: 0 <= i < count ==>
        SlotStart(alignedSize, i) + size <= |r| &&
        r[SlotStart(alignedSize, i)..SlotStart(alignedSize, i) + size] == slots[i]
    decreases count
  {
    if count > 0 {
      var prev := WriteSlots(mem, slots, alignedSize, size, count - 1);
      var r := WriteSlots(mem, slots, alignedSize, size, count);
      var last := SlotStart(alignedSize, count - 1);
      MulLe(alignedSize, count - 1, count);
      assert r == Overwrite(prev, last, slots[count - 1]);
      WriteSlotsFillsSlots(mem, slots, alignedSize, size, count - 1);
      forall i | 0 <= i < count
        ensures SlotStart(alignedSize, i) + size <= |r|
        ensures r[SlotStart(alignedSize, i)..SlotStart(alignedSize, i) + size] == slots[i]
      {
        if i < count - 1 {
          MulLe(alignedSize, i + 1, count - 1);
          assert SlotStart(alignedSize, i) + alignedSize == alignedSize * (i + 1);
          OverwriteKeepsRange(prev, last, slots[count - 1], SlotStart(alignedSize, i), SlotStart(alignedSize, i) + size);
        }
      }
    }
  }

  /** After writing the first `count` slots, every byte outside them (the
      padding between slots and the tail) is as before. */
  lemma {:induction false} WriteSlotsKeepsPadding(mem: seq<Byte>, slots: seq<seq<Byte>>, alignedSize: nat, size: nat, count: nat)
    requires count <= |slots| && size <= alignedSize && alignedSize * count <= |mem|
    requires forall i :: 0 <= i < |slots| ==> |slots[i]| == size
    ensures var r := WriteSlots(mem, slots, alignedSize, size, count);
      forall j :: 0 <= j < |mem| && !InSomeSlot(j, alignedSize, size, count) ==> r[j] == mem[j]
    decreases count
  {
    if count > 0 {
      var prev := WriteSlots(mem, slots, alignedSize, size, count - 1);
      var r := WriteSlots(mem, slots, alignedSize, size, count);
      var last := SlotStart(alignedSize, count - 1);
      MulLe(alignedSize, count - 1, count);
      assert r == Overwrite(prev, last, slots[count - 1]);
      WriteSlotsKeepsPadding(mem, slots, alignedSize, size, count - 1);
      forall j | 0 <= j < |mem| && !InSomeSlot(j, alignedSize, size, count)
        ensures r[j] == mem[j]
      {
        assert !(last <= j < last + size);
        assert !InSomeSlot(j, alignedSize, size, count - 1);
      }
    }
  }

  /** Overwriting one range leaves a range before it as it was. */
  lemma OverwriteKeepsRange(mem: seq<Byte>, offset: nat, chunk: seq<Byte>, lo: nat, hi: nat)
    requires offset + |chunk| <= |mem| && lo <= hi <= offset
    ensures Overwrite(mem, offset, chunk)[lo..hi] == mem[lo..hi]
  {
  }

  /** Writing one slot leaves every other slot as it was. */
  lemma OtherSlotsUnchanged(mem: seq<Byte>, alignedSize: nat, index: nat, chunk: seq<Byte>, other: nat)
    requires |chunk| <= alignedSize && SlotStart(alignedSize, index) + |chunk| <= |mem|
    requires other != index && SlotStart(alignedSize, other) + |chunk| <= |mem|
    ensures var r := Overwrite(mem, SlotStart(alignedSize, index), chunk);
      r[SlotStart(alignedSize, other)..SlotStart(alignedSize, other) + |chunk|] ==
      mem[SlotStart(alignedSize, other)..SlotStart(alignedSize, other) + |chunk|]
  {
    var r := Overwrite(mem, SlotStart(alignedSize, index), chunk);
    var so, si := SlotStart(alignedSize, other), SlotStart(alignedSize, index);
    if other < index {
      MulLe(alignedSize, other + 1, index);
      assert so + alignedSize <= si;
    } else {
      MulLe(alignedSize, index + 1, other);
      assert si + alignedSize <= so;
    }
    forall k | so <= k < so + |chunk| ensures r[k] == mem[k] {
      assert !(si <= k < si + |chunk|);
    }
  }

  /** The flush record `count` slot writes leave: on memory that is not
      host-coherent, one [0, sizeof T) range per write, whatever the slot. */
  function SlotFlushes(hostCoherent: bool, size: nat, count: nat): (r: seq<FlushRange>)
    ensures |r| == (if hostCoherent then 0 else count)
    ensures forall k :: 0 <= k < |r| ==> r[k] == FlushRange(0, size)
  {
    if hostCoherent then [] else seq(count, _ => FlushRange(0, size))
  }

  /** The writes of `update()` leave their flushes in loop order. */
  lemma SlotFlushesStep(hostCoherent: bool, size: nat, count: nat)
    ensures SlotFlushes(hostCoherent, size, count + 1) ==
      SlotFlushes(hostCoherent, size, count) + SlotFlushes(hostCoherent, size, 1)
  {
  }

  /** `update(index)` for any index from 1 on flushes none of the bytes it
      wrote: its only flushed range is [0, sizeof T), which ends before slot
      `index` starts. Slot 0, by contrast, is flushed whole. */
  lemma {:induction false} SlotWriteNotFlushed(hostCoherent: bool, alignedSize: nat, size: nat, index: nat)
    requires 0 < size <= alignedSize
    ensures var fl, lo := SlotFlushes(hostCoherent, size, 1), SlotStart(alignedSize, index);
      forall k, j: nat :: 0 <= k < |fl| && lo <= j < lo + size ==> (Covers(fl[k], j) <==> index == 0)
  {
    if index >= 1 {
      MulLe(alignedSize, 1, index);
      OffsetWriteNotFlushed(SlotStart(alignedSize, index), size);
    }
  }

  /** The same after vmaFlushAllocation widens the flushed range to whole
      atoms of `atom` bytes: `update(index)` still flushes none of its bytes
      when slot `index` starts at or past sizeof(T) rounded up to `atom`. */
  lemma RoundedSlotWriteNotFlushed(alignedSize: nat, size: nat, index: nat, atom: nat)
    requires 0 < size && 0 < atom && RoundUp(size, atom) <= SlotStart(alignedSize, index)
    ensures var fl, lo := SlotFlushes(false, size, 1), SlotStart(alignedSize, index);
      && |fl| == 1
      && forall j: nat :: lo <= j < lo + size ==> !Covers(AtomAligned(fl[0], atom), j)
  {
    RoundedWriteNotFlushed(SlotStart(alignedSize, index), size, atom);
  }

  class UniformData<T(!new)> {
    var uboArr: seq<T>
    const n: nat
    const sizeOfT: nat
    const alignedSize: nat
    const encode: T -> seq<Byte>
    const uboBuffer: VmaBuffer

    ghost predicate Valid()
      reads this, uboBuffer
    {
      && uboBuffer.Valid() && uboBuffer.mapped
      && |uboArr| == n && 0 < sizeOfT <= alignedSize
      && alignedSize * n <= uboBuffer.allocationSize
      && (forall t :: |encode(t)| == sizeOfT)
    }

    /** The memory images of the N host copies. */
    ghost function Encoded(): (s: seq<seq<Byte>>)
      reads this
      ensures |s| == |uboArr| && forall i :: 0 <= i < |s| ==> s[i] == encode(uboArr[i])
    {
      var arr := uboArr;
      seq(|arr|, i requires 0 <= i < |arr| => encode(arr[i]))
    }

    /** `UniformData(allocator)`: a buffer of `alignedSize * N` bytes, mapped
        for good. The alignment, the allocation VMA returns and its first
        contents are inputs; `blank` is a default-constructed T. */
    constructor (n: nat, sizeOfT: nat, encode: T -> seq<Byte>, blank: T, minUboAlignment: nat,
                 buffer: Handle, allocationSize: nat, allocationOffset: nat, hostCoherent: bool,
                 initialBytes: seq<Byte>)
      requires minUboAlignment > 0 && sizeOfT > 0 && forall t :: |encode(t)| == sizeOfT
      requires allocationSize >= CalcAlignedTypeSize(sizeOfT, minUboAlignment) * n
      requires |initialBytes| == allocationSize
      ensures Valid() && fresh(uboBuffer)
      ensures this.n == n && this.sizeOfT == sizeOfT && this.encode == encode
      ensures alignedSize == CalcAlignedTypeSize(sizeOfT, minUboAlignment)
      ensures uboArr == seq(n, _ => blank)
      ensures uboBuffer.bytes == initialBytes && uboBuffer.flushes == []
      ensures uboBuffer.descriptor == BufferInfo(buffer, allocationOffset, allocationSize)
    {
      this.n := n;
      this.sizeOfT := sizeOfT;
      this.encode := encode;
      var aligned := CalcAlignedTypeSize(sizeOfT, minUboAlignment);
      alignedSize := aligned;
      uboArr := seq(n, _ => blank);
      uboBuffer := new VmaBuffer(None, aligned * n, buffer, allocationSize, allocationOffset, hostCoherent,
                                 initialBytes);
      new;
      uboBuffer.Map();
    }

    /** `UniformData(allocator, data)`: as above, then every copy is pushed. */
    constructor WithData(n: nat, sizeOfT: nat, encode: T -> seq<Byte>, data: seq<T>, minUboAlignment: nat,
                         buffer: Handle, allocationSize: nat, allocationOffset: nat, hostCoherent: bool,
                         initialBytes: seq<Byte>)
      requires minUboAlignment > 0 && sizeOfT > 0 && forall t :: |encode(t)| == sizeOfT
      requires allocationSize >= CalcAlignedTypeSize(sizeOfT, minUboAlignment) * n
      requires |initialBytes| == allocationSize
      requires |data| == n
      ensures Valid() && fresh(uboBuffer)
      ensures this.n == n && this.sizeOfT == sizeOfT && this.encode == encode
      ensures alignedSize == CalcAlignedTypeSize(sizeOfT, minUboAlignment)
      ensures uboArr == data
      ensures uboBuffer.bytes ==
        WriteSlots(initialBytes, Encoded(), alignedSize, sizeOfT, n)
      ensures uboBuffer.flushes == SlotFlushes(hostCoherent, sizeOfT, n)
    {
      this.n := n;
      this.sizeOfT := sizeOfT;
      this.encode := encode;
      var aligned := CalcAlignedTypeSize(sizeOfT, minUboAlignment);
      alignedSize := aligned;
      uboArr := data;
      uboBuffer := new VmaBuffer(None, aligned * n, buffer, allocationSize, allocationOffset, hostCoherent,
                                 initialBytes);
      new;
      uboBuffer.Map();
      Update();
    }

    /** `update()`: copy i is written at `alignedSize * i`, for every i. */
    method Update()
      requires Valid()
      modifies uboBuffer`bytes, uboBuffer`flushes, uboBuffer`mapped, uboBuffer`mapCount
      ensures Valid()
      ensures uboBuffer.bytes == WriteSlots(old(uboBuffer.bytes), Encoded(), alignedSize, sizeOfT, n)
      ensures uboBuffer.flushes == old(uboBuffer.flushes) + SlotFlushes(uboBuffer.hostCoherent, sizeOfT, n)
    {
      ghost var mem, fl := uboBuffer.bytes, uboBuffer.flushes;
      var i := 0;
      while i < |uboArr|
        invariant 0 <= i <= n && Valid() && alignedSize * i <= |mem|
        invariant uboBuffer.bytes == WriteSlots(mem, Encoded(), alignedSize, sizeOfT, i)
        invariant uboBuffer.flushes == fl + SlotFlushes(uboBuffer.hostCoherent, sizeOfT, i)
      {
        CopyNextSlot(i, mem, fl);
        i := i + 1;
      }
    }

    /** `update()`'s loop from i to i + 1: the first i copies are in place
        and copy i is written next. */
    method CopyNextSlot(i: nat, ghost mem: seq<Byte>, ghost fl: seq<FlushRange>)
      requires Valid() && i < n && alignedSize * i <= |mem|
      requires uboBuffer.bytes == WriteSlots(mem, Encoded(), alignedSize, sizeOfT, i)
      requires uboBuffer.flushes == fl + SlotFlushes(uboBuffer.hostCoherent, sizeOfT, i)
      modifies uboBuffer`bytes, uboBuffer`flushes, uboBuffer`mapped, uboBuffer`mapCount
      ensures Valid() && alignedSize * (i + 1) <= |mem|
      ensures uboBuffer.bytes == WriteSlots(mem, Encoded(), alignedSize, sizeOfT, i + 1)
      ensures uboBuffer.flushes == fl + SlotFlushes(uboBuffer.hostCoherent, sizeOfT, i + 1)
    {
      CopySlot(i);
      WriteSlotsStep(mem, Encoded(), alignedSize, sizeOfT, i);
      SlotFlushesStep(uboBuffer.hostCoherent, sizeOfT, i);
    }

    /** One pass of `update()`'s loop: copy i lands at `alignedSize * i`. */
    method CopySlot(i: nat)
      requires Valid() && i < n
      modifies uboBuffer`bytes, uboBuffer`flushes, uboBuffer`mapped, uboBuffer`mapCount
      ensures Valid() && alignedSize * (i + 1) <= |uboBuffer.bytes|
      ensures uboBuffer.bytes == Overwrite(old(uboBuffer.bytes), SlotStart(alignedSize, i), Encoded()[i])
      ensures uboBuffer.flushes == old(uboBuffer.flushes) + SlotFlushes(uboBuffer.hostCoherent, sizeOfT, 1)
    {
      MulLe(alignedSize, i + 1, n);
      var offset := alignedSize * i;
      var r := uboBuffer.CopyToBufferAt(Some(encode(uboArr[i])), offset, sizeOfT);
      assert encode(uboArr[i])[..sizeOfT] == Encoded()[i];
    }

    /** `update(index)`: only bytes [alignedSize * index, alignedSize * index +
        sizeof(T)) change, and they receive copy `index`. */
    method UpdateAt(index: nat)
      requires Valid() && index < n
      modifies uboBuffer`bytes, uboBuffer`flushes, uboBuffer`mapped, uboBuffer`mapCount
      ensures Valid()
      ensures SlotStart(alignedSize, index) + sizeOfT <= |uboBuffer.bytes|
      ensures uboBuffer.bytes == Overwrite(old(uboBuffer.bytes), SlotStart(alignedSize, index), encode(uboArr[index]))
      ensures uboBuffer.flushes == old(uboBuffer.flushes) + SlotFlushes(uboBuffer.hostCoherent, sizeOfT, 1)
      ensures forall j :: 0 <= j < n ==> SlotStart(alignedSize, j) + sizeOfT <= |uboBuffer.bytes|
      ensures SlotBytes(uboBuffer.bytes, alignedSize, sizeOfT, index) == encode(uboArr[index])
      ensures forall j :: 0 <= j < n && j != index ==>
        SlotBytes(uboBuffer.bytes, alignedSize, sizeOfT, j) == SlotBytes(old(uboBuffer.bytes), alignedSize, sizeOfT, j)
    {
      SlotsInBounds(alignedSize, sizeOfT, n, uboBuffer.allocationSize);
      MulLe(alignedSize, index + 1, n);
      var offset := alignedSize * index;
      var r := uboBuffer.CopyToBufferAt(Some(encode(uboArr[index])), offset, sizeOfT);
      assert encode(uboArr[index])[..sizeOfT] == encode(uboArr[index]);
      forall j | 0 <= j < n && j != index
        ensures SlotBytes(uboBuffer.bytes, alignedSize, sizeOfT, j) == SlotBytes(old(uboBuffer.bytes), alignedSize, sizeOfT, j)
      {
        OtherSlotsUnchanged(old(uboBuffer.bytes), alignedSize, index, encode(uboArr[index]), j);
      }
    }

    /** `getDescriptorBufferInfos`: N descriptors over the buffer, descriptor i
        covering exactly copy i, so no two overlap. */
    method GetDescriptorBufferInfos() returns (infos: seq<BufferInfo>)
      requires Valid()
      ensures |infos| == n
      ensures forall i :: 0 <= i < n ==>
        infos[i] == BufferInfo(uboBuffer.descriptor.buffer, SlotStart(alignedSize, i), sizeOfT)
      ensures forall i, j :: 0 <= i < j < n ==> infos[i].offset + infos[i].range <= infos[j].offset
      ensures forall i :: 0 <= i < n ==> infos[i].offset + infos[i].range <= uboBuffer.allocationSize
    {
      var whole := uboBuffer.descriptor;
      var bufferDescriptor := whole.(range := sizeOfT);
      infos := [];
      var i := 0;
      while i < n
        invariant 0 <= i <= n && |infos| == i
        invariant bufferDescriptor.buffer == uboBuffer.descriptor.buffer && bufferDescriptor.range == sizeOfT
        invariant forall k :: 0 <= k < i ==>
          infos[k] == BufferInfo(uboBuffer.descriptor.buffer, SlotStart(alignedSize, k), sizeOfT)
      {
        bufferDescriptor := bufferDescriptor.(offset := alignedSize * i);
        infos := infos + [bufferDescriptor];
        i := i + 1;
      }
      forall i, j | 0 <= i < j < n ensures infos[i].offset + infos[i].range <= infos[j].offset {
        MulLe(alignedSize, i + 1, j);
      }
      forall i | 0 <= i < n ensures infos[i].offset + infos[i].range <= uboBuffer.allocationSize {
        MulLe(alignedSize, i + 1, n);
      }
    }

    /** `operator[]` written through: replaces host copy `index`. */
    method Set(index: nat, value: T)
      requires Valid() && index < n
      modifies this`uboArr
      ensures Valid() && uboArr == old(uboArr)[index := value]
    {
      uboArr := uboArr[index := value];
    }
  }
}
