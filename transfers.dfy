/** What the driver does with the linear transfer commands the queue issues.
    This is an assumed semantics of the OpenCL runtime, not code of the
    library: device memory of one buffer is a sequence with one entry per
    element, a byte range that starts and ends on element boundaries covers
    the elements it spans, and the host side of a read or write starts at the
    host pointer the command carries. */
module Transfers {
  import opened Common
  import opened HostStorage
  import opened Buffers
  import opened Queues

  /** The first element a byte offset designates. */
  function FirstElement(offset: nat, elemBytes: nat): (k: nat)
    requires elemBytes > 0
  {
    offset / elemBytes
  }

  /** How many elements a byte count spans. */
  function ElementCount(size: nat, elemBytes: nat): (n: nat)
    requires elemBytes > 0
  {
    size / elemBytes
  }

  /** The range [offset, offset + size) lies inside a memory of n elements. */
  predicate InRange(offset: nat, size: nat, elemBytes: nat, n: nat)
  {
    elemBytes > 0 && FirstElement(offset, elemBytes) + ElementCount(size, elemBytes) <= n
  }

  /** enqueueFillBuffer: the spanned elements take the value, the others keep theirs. */
  function ApplyFill(mem: seq<int>, c: Command, elemBytes: nat): (m: seq<int>)
    requires c.EnqueueFillBuffer? && InRange(c.offset, c.size, elemBytes, |mem|)
    ensures |m| == |mem|
    ensures forall k :: 0 <= k < |mem| ==>
              m[k] == if FirstElement(c.offset, elemBytes) <= k < FirstElement(c.offset, elemBytes) + ElementCount(c.size, elemBytes)
                      then c.value else mem[k]
  {
    var lo := FirstElement(c.offset, elemBytes);
    var n := ElementCount(c.size, elemBytes);
    mem[..lo] + seq(n, _ => c.value) + mem[lo + n..]
  }

  /** enqueueWriteBuffer: the spanned device elements take the first host
      elements, in order. */
  function ApplyWrite(mem: seq<int>, host: seq<int>, c: Command, elemBytes: nat): (m: seq<int>)
    requires c.EnqueueWriteBuffer? && InRange(c.offset, c.size, elemBytes, |mem|)
    requires ElementCount(c.size, elemBytes) <= |host|
    ensures |m| == |mem|
    ensures forall k :: 0 <= k < |mem| ==>
              m[k] == if FirstElement(c.offset, elemBytes) <= k < FirstElement(c.offset, elemBytes) + ElementCount(c.size, elemBytes)
                      then host[k - FirstElement(c.offset, elemBytes)] else mem[k]
  {
    var lo := FirstElement(c.offset, elemBytes);
    var n := ElementCount(c.size, elemBytes);
    mem[..lo] + host[..n] + mem[lo + n..]
  }

  /** enqueueReadBuffer: the first host elements take the spanned device
      elements, in order; later host elements keep theirs. */
  function ApplyRead(host: seq<int>, mem: seq<int>, c: Command, elemBytes: nat): (h: seq<int>)
    requires c.EnqueueReadBuffer? && InRange(c.offset, c.size, elemBytes, |mem|)
    requires ElementCount(c.size, elemBytes) <= |host|
    ensures |h| == |host|
    ensures forall k :: 0 <= k < |host| ==>
              h[k] == if k < ElementCount(c.size, elemBytes) then mem[FirstElement(c.offset, elemBytes) + k] else host[k]
  {
    var lo := FirstElement(c.offset, elemBytes);
    var n := ElementCount(c.size, elemBytes);
    mem[lo..lo + n] + host[n..]
  }

  /** enqueueCopyBuffer: the spanned destination elements take the spanned
      source elements, in order. */
  function ApplyCopy(srcMem: seq<int>, dstMem: seq<int>, c: Command, elemBytes: nat): (m: seq<int>)
    requires c.EnqueueCopyBuffer?
    requires InRange(c.srcOffset, c.size, elemBytes, |srcMem|) && InRange(c.dstOffset, c.size, elemBytes, |dstMem|)
    ensures |m| == |dstMem|
    ensures forall k :: 0 <= k < |dstMem| ==>
              m[k] == if FirstElement(c.dstOffset, elemBytes) <= k < FirstElement(c.dstOffset, elemBytes) + ElementCount(c.size, elemBytes)
                      then srcMem[FirstElement(c.srcOffset, elemBytes) + k - FirstElement(c.dstOffset, elemBytes)]
                      else dstMem[k]
  {
    var lo := FirstElement(c.dstOffset, elemBytes);
    var from := FirstElement(c.srcOffset, elemBytes);
    var n := ElementCount(c.size, elemBytes);
    dstMem[..lo] + srcMem[from..from + n] + dstMem[lo + n..]
  }

  lemma MulDiv(x: nat, e: nat)
    requires e > 0
    ensures (x * e) / e == x
  {
    var q, r := (x * e) / e, (x * e) % e;
    assert x * e == q * e + r && 0 <= r < e;
    if q < x {
      MulMonotone(q + 1, x, e);
      assert false;
    } else if x < q {
      MulMonotone(x + 1, q, e);
      assert false;
    }
  }

  /** An element offset within the base size: its byte offset and the bytes
      that remain after it, in whole elements. */
  lemma {:induction false} ElementSpan(size: nat, offset: nat, e: nat)
    requires e > 0 && offset <= size && size * e < SizeTModulus
    ensures FirstElement(offset * e, e) == offset
    ensures ElementCount(SizeTSub(size * e, offset * e), e) == size - offset
  {
    MulMonotone(offset, size, e);
    assert SizeTSub(size * e, offset * e) == size * e - offset * e == (size - offset) * e;
    MulDiv(offset, e);
    MulDiv(size - offset, e);
  }

  /** The elements a buffer's device offset and remaining size span. */
  lemma DeviceSpan(b: BufferCL)
    requires b.impl.elemBytes > 0 && b.deviceOffset <= b.impl.size && b.Size() < SizeTModulus
    ensures FirstElement(b.DeviceBytesOffset(), b.impl.elemBytes) == b.deviceOffset
    ensures ElementCount(b.DeviceSizeFromOffset(), b.impl.elemBytes) == b.impl.size - b.deviceOffset
  {
    ElementSpan(b.impl.size, b.deviceOffset, b.impl.elemBytes);
  }

  /** The elements a buffer's host offset and remaining size span. */
  lemma HostSpan(b: BufferCL)
    requires b.impl.elemBytes > 0 && b.hostOffset <= b.impl.size && b.Size() < SizeTModulus
    ensures FirstElement(b.HostBytesOffset(), b.impl.elemBytes) == b.hostOffset
    ensures ElementCount(b.HostSizeFromOffset(), b.impl.elemBytes) == b.impl.size - b.hostOffset
  {
    ElementSpan(b.impl.size, b.hostOffset, b.impl.elemBytes);
  }

  /** FillBuffer(b, v) then ReadBuffer(b): the host elements the read
      receives, one per element from the device offset to the end of the
      buffer, all equal v; later host elements are unchanged. On a fresh
      buffer (offset 0) over any storage but a Vector, that is every element. */
  lemma FillThenRead(b: BufferCL, v: int, ev: Option<EventCL>, mem: seq<int>, host: seq<int>)
    requires b.impl.Valid() && b.impl.DataDefined()
    requires b.deviceOffset <= b.impl.size && b.Size() < SizeTModulus
    requires |mem| == b.impl.size && b.impl.size - b.deviceOffset <= |host|
    ensures InRange(FillCommand(b, v).offset, FillCommand(b, v).size, b.impl.elemBytes, |mem|)
    ensures InRange(ReadCommand(b, ev).offset, ReadCommand(b, ev).size, b.impl.elemBytes, |mem|)
    ensures ElementCount(ReadCommand(b, ev).size, b.impl.elemBytes) <= |host|
    ensures var after := ApplyRead(host, ApplyFill(mem, FillCommand(b, v), b.impl.elemBytes), ReadCommand(b, ev), b.impl.elemBytes);
            && (forall k :: 0 <= k < b.impl.size - b.deviceOffset ==> after[k] == v)
            && (forall k :: b.impl.size - b.deviceOffset <= k < |host| ==> after[k] == host[k])
  {
    DeviceSpan(b);
  }

  /** WriteBuffer(b) then ReadBuffer(b) with equal host and device offsets:
      the host elements come back unchanged. The write targets the device
      at the HOST offset and the read reads it at the DEVICE offset, so the
      round trip needs the two to agree, as they do on every BufferCL (both
      are 0). */
  lemma WriteThenRead(b: BufferCL, ev: Option<EventCL>, ev': Option<EventCL>, mem: seq<int>, host: seq<int>, into: seq<int>)
    requires b.impl.Valid() && b.impl.DataDefined()
    requires b.hostOffset == b.deviceOffset <= b.impl.size && b.Size() < SizeTModulus
    requires |mem| == b.impl.size
    requires b.impl.size - b.hostOffset <= |host| && b.impl.size - b.deviceOffset <= |into|
    ensures InRange(WriteCommand(b, ev).offset, WriteCommand(b, ev).size, b.impl.elemBytes, |mem|)
    ensures ElementCount(WriteCommand(b, ev).size, b.impl.elemBytes) <= |host|
    ensures InRange(ReadCommand(b, ev').offset, ReadCommand(b, ev').size, b.impl.elemBytes, |mem|)
    ensures ElementCount(ReadCommand(b, ev').size, b.impl.elemBytes) <= |into|
    ensures var after := ApplyRead(into, ApplyWrite(mem, host, WriteCommand(b, ev), b.impl.elemBytes), ReadCommand(b, ev'), b.impl.elemBytes);
            after[..b.impl.size - b.deviceOffset] == host[..b.impl.size - b.deviceOffset]
  {
    DeviceSpan(b);
    HostSpan(b);
    var es := b.impl.elemBytes;
    var n := b.impl.size - b.deviceOffset;
    var after := ApplyRead(into, ApplyWrite(mem, host, WriteCommand(b, ev), es), ReadCommand(b, ev'), es);
    assert forall k :: 0 <= k < n ==> after[k] == host[k];
  }

  /** CopyBuffer(src, dst) with the default size: the destination elements
      from its device offset on take the source's elements from its device
      offset to its end; every other destination element is untouched. */
  lemma CopyDefaultSize(src: BufferCL, dst: BufferCL, srcMem: seq<int>, dstMem: seq<int>)
    requires src.impl.elemBytes > 0 && src.impl.elemBytes == dst.impl.elemBytes
    requires src.deviceOffset <= src.impl.size && src.Size() < SizeTModulus
    requires dst.deviceOffset <= dst.impl.size && dst.Size() < SizeTModulus
    requires |srcMem| == src.impl.size && |dstMem| == dst.impl.size
    requires dst.deviceOffset + (src.impl.size - src.deviceOffset) <= |dstMem|
    ensures InRange(CopyCommand(src, dst, 0).srcOffset, CopyCommand(src, dst, 0).size, src.impl.elemBytes, |srcMem|)
    ensures InRange(CopyCommand(src, dst, 0).dstOffset, CopyCommand(src, dst, 0).size, src.impl.elemBytes, |dstMem|)
    ensures var after := ApplyCopy(srcMem, dstMem, CopyCommand(src, dst, 0), src.impl.elemBytes);
            && (forall k :: dst.deviceOffset <= k < dst.deviceOffset + (src.impl.size - src.deviceOffset) ==>
                  after[k] == srcMem[src.deviceOffset + (k - dst.deviceOffset)])
            && (forall k :: 0 <= k < |dstMem| && !(dst.deviceOffset <= k < dst.deviceOffset + (src.impl.size - src.deviceOffset)) ==>
                  after[k] == dstMem[k])
  {
    DeviceSpan(src);
    DeviceSpan(dst);
  }
}
