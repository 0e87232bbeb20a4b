/** The device buffer of CL/BufferCL.h: a Storage bound to a device allocation,
    with element offsets turned into byte offsets, and the rectangular-region
    descriptor whose element coordinates become the byte triples handed to the
    rectangular transfers. */
module Buffers {
  import opened Common
  import opened HostStorage

  /** The creation flags. U_COPY_READ_WRITE, U_COPY_READ and U_WRITE are
      macros of CL/CommonCL.h, which is not part of this model, so they are
      kept as distinct symbolic values; Bits is any other cl_mem_flags value. */
  datatype MemFlags = CopyReadWrite | CopyRead | WriteOnly | Bits(bits: nat)

  /** What the wrapper asked the driver for when it created the cl::Buffer:
      the context, the flags, the size in bytes and the host pointer. */
  datatype Allocation = Allocation(context: nat, flags: MemFlags, bytes: nat, host: HostPtr)

  class BufferCL {
    /** _impl: the shared storage. */
    const impl: Storage
    /** _flags. */
    const flags: MemFlags
    /** _buffer: the driver's cl::Buffer, as an opaque handle. */
    const handle: nat
    /** The request that created _buffer. */
    const allocation: Allocation
    /** _deviceOffset and _hostOffset, in elements. The class has no setter for
        them, so they keep the value the constructor gives them. */
    const deviceOffset: nat
    const hostOffset: nat

    /** BufferCL(c, i, f): both offsets start at 0 and the device allocation
        is i->RawSize() bytes seeded from i->Data(). */
    constructor(context: nat, i: Storage, f: MemFlags, handle: nat)
      requires i.Valid() && i.DataDefined()
      ensures impl == i && flags == f && this.handle == handle
      ensures deviceOffset == 0 && hostOffset == 0
      ensures allocation == Allocation(context, f, i.RawSize(), i.Data())
      ensures DeviceBytesOffset() == 0 && HostBytesOffset() == 0
    {
      impl, flags, this.handle := i, f, handle;
      deviceOffset, hostOffset := 0, 0;
      allocation := Allocation(context, f, i.RawSize(), i.Data());
    }

    /** Get(): the device handle. */
    function Get(): (h: nat)
      ensures h == handle
    {
      handle
    }

    /** Size(): the storage's RawSize(), in bytes. */
    function Size(): (n: nat)
      reads impl
      ensures n == impl.size * impl.elemBytes
      ensures impl.kind != Growable ==> n == Count() * impl.elemBytes
    {
      impl.RawSize()
    }

    /** Count(): the storage's Size(), in elements. */
    function Count(): (n: nat)
      reads impl
      ensures impl.Valid() ==> n == |impl.elems|
    {
      impl.Size()
    }

    /** Flags(): the flags given at construction. */
    function Flags(): (f: MemFlags)
      ensures f == flags
    {
      flags
    }

    /** Data(): the storage's Data(). */
    function Data(): (p: HostPtr)
      reads impl
      requires impl.Valid() && impl.DataDefined()
      ensures impl.kind == InlineArray || impl.kind == Growable ==> p == Inner(impl)
    {
      impl.Data()
    }

    function DeviceBytesOffset(): (n: nat)
      ensures n == deviceOffset * impl.elemBytes
    {
      deviceOffset * impl.elemBytes
    }

    /** DeviceSizeFromOffset(): the bytes from the device offset to the end of
        RawSize(), as a size_t difference. */
    function DeviceSizeFromOffset(): (n: nat)
      reads impl
      ensures n < SizeTModulus
      ensures DeviceBytesOffset() <= Size() < SizeTModulus ==> DeviceBytesOffset() + n == Size()
      ensures impl.elemBytes > 0 && deviceOffset <= impl.size < SizeTModulus / impl.elemBytes ==>
                DeviceBytesOffset() + n == Size()
    {
      RemainingBytes(impl.size, impl.elemBytes, deviceOffset);
      SizeTSub(impl.RawSize(), DeviceBytesOffset())
    }

    function HostBytesOffset(): (n: nat)
      ensures n == hostOffset * impl.elemBytes
    {
      hostOffset * impl.elemBytes
    }

    /** HostSizeFromOffset(): as DeviceSizeFromOffset, from the host offset. */
    function HostSizeFromOffset(): (n: nat)
      reads impl
      ensures n < SizeTModulus
      ensures HostBytesOffset() <= Size() < SizeTModulus ==> HostBytesOffset() + n == Size()
      ensures impl.elemBytes > 0 && hostOffset <= impl.size < SizeTModulus / impl.elemBytes ==>
                HostBytesOffset() + n == Size()
    {
      RemainingBytes(impl.size, impl.elemBytes, hostOffset);
      SizeTSub(impl.RawSize(), HostBytesOffset())
    }
  }

  /** An element offset within the base size is a byte offset within RawSize,
      and RawSize stays below 2^64 when the size does not exceed 2^64 / sizeof(T). */
  lemma RemainingBytes(size: nat, elemBytes: nat, offset: nat)
    ensures elemBytes > 0 && offset <= size < SizeTModulus / elemBytes ==>
              offset * elemBytes <= size * elemBytes < SizeTModulus
  {
    if elemBytes > 0 && offset <= size < SizeTModulus / elemBytes {
      MulMonotone(offset, size, elemBytes);
      MulMonotone(size + 1, SizeTModulus / elemBytes, elemBytes);
    }
  }

  lemma MulMonotone(a: nat, b: nat, c: nat)
    requires a <= b
    ensures a * c <= b * c
  {
  }

  /** An origin or an extent: cl::size_t<3>. */
  datatype Triple = Triple(x: nat, y: nat, z: nat)

  function Scale(t: Triple, k: nat): (r: Triple)
    ensures r.x == t.x * k && r.y == t.y * k && r.z == t.z * k
  {
    Triple(t.x * k, t.y * k, t.z * k)
  }

  /** The linear byte offset of an origin, in the comment above BufferRectCL and in
      section 5.2.2 of the OpenCL 1.2 specification: origin[2] * slice_pitch
      + origin[1] * row_pitch + origin[0]. */
  function LinearOffset(origin: Triple, rowPitch: nat, slicePitch: nat): (n: nat)
    ensures origin.y == 0 && origin.z == 0 ==> n == origin.x
    ensures n >= origin.x
  {
    origin.z * slicePitch + origin.y * rowPitch + origin.x
  }

  /** A row pitch of 0 stands for region[0] (section 5.2.2 of OpenCL 1.2). */
  function EffectiveRowPitch(rowPitch: nat, region: Triple): (n: nat)
    ensures rowPitch != 0 ==> n == rowPitch
    ensures rowPitch == 0 ==> n == region.x
  {
    if rowPitch == 0 then region.x else rowPitch
  }

  /** A slice pitch of 0 stands for region[1] * row pitch (section 5.2.2 of OpenCL 1.2). */
  function EffectiveSlicePitch(slicePitch: nat, rowPitch: nat, region: Triple): (n: nat)
    ensures slicePitch != 0 ==> n == slicePitch
    ensures slicePitch == 0 ==> n == region.y * EffectiveRowPitch(rowPitch, region)
  {
    if slicePitch == 0 then region.y * EffectiveRowPitch(rowPitch, region) else slicePitch
  }

  class BufferRectCL {
    /** sizeof(T). */
    const elemBytes: nat
    var hostRow: nat
    var hostSlice: nat
    var deviceRow: nat
    var deviceSlice: nat
    var region: Triple
    /** _HostOrigin and _DeviceOrigin, already in bytes. */
    var hostOrigin: Triple
    var deviceOrigin: Triple

    /** BufferRectCL(w, h): region (w, h) scaled to bytes with depth 1,
        both origins at 0 and every pitch 0. */
    constructor(elemBytes: nat, regionW: nat, regionH: nat)
      ensures this.elemBytes == elemBytes
      ensures region == Triple(regionW * elemBytes, regionH * elemBytes, 1)
      ensures hostOrigin == Triple(0, 0, 0) && deviceOrigin == Triple(0, 0, 0)
      ensures hostRow == 0 && hostSlice == 0 && deviceRow == 0 && deviceSlice == 0
    {
      this.elemBytes := elemBytes;
      hostRow, hostSlice, deviceRow, deviceSlice := 0, 0, 0, 0;
      region := Triple(regionW * elemBytes, regionH * elemBytes, 1);
      hostOrigin, deviceOrigin := Triple(0, 0, 0), Triple(0, 0, 0);
    }

    /** HostOrigin(x, y, z): all three coordinates scaled by sizeof(T); the
        device side, the region and the pitches are untouched. */
    method HostOrigin(x: nat, y: nat := 0, z: nat := 0)
      modifies this
      ensures hostOrigin == Scale(Triple(x, y, z), elemBytes)
      ensures deviceOrigin == old(deviceOrigin) && region == old(region)
      ensures hostRow == old(hostRow) && hostSlice == old(hostSlice)
      ensures deviceRow == old(deviceRow) && deviceSlice == old(deviceSlice)
    {
      hostOrigin := Triple(x * elemBytes, y * elemBytes, z * elemBytes);
    }

    /** DeviceOrigin(x, y, z): as HostOrigin, on the device side. */
    method DeviceOrigin(x: nat, y: nat := 0, z: nat := 0)
      modifies this
      ensures deviceOrigin == Scale(Triple(x, y, z), elemBytes)
      ensures hostOrigin == old(hostOrigin) && region == old(region)
      ensures hostRow == old(hostRow) && hostSlice == old(hostSlice)
      ensures deviceRow == old(deviceRow) && deviceSlice == old(deviceSlice)
    {
      deviceOrigin := Triple(x * elemBytes, y * elemBytes, z * elemBytes);
    }

    /** HostPitch(row, slice): both scaled by sizeof(T); only the host pitches change. */
    method HostPitch(row: nat, slice: nat := 0)
      modifies this
      ensures hostRow == row * elemBytes && hostSlice == slice * elemBytes
      ensures deviceRow == old(deviceRow) && deviceSlice == old(deviceSlice)
      ensures hostOrigin == old(hostOrigin) && deviceOrigin == old(deviceOrigin)
      ensures region == old(region)
    {
      hostRow, hostSlice := row * elemBytes, slice * elemBytes;
    }

    /** DevicePitch(row, slice): as HostPitch, on the device side. */
    method DevicePitch(row: nat, slice: nat := 0)
      modifies this
      ensures deviceRow == row * elemBytes && deviceSlice == slice * elemBytes
      ensures hostRow == old(hostRow) && hostSlice == old(hostSlice)
      ensures hostOrigin == old(hostOrigin) && deviceOrigin == old(deviceOrigin)
      ensures region == old(region)
    {
      deviceRow, deviceSlice := row * elemBytes, slice * elemBytes;
    }

    /** Where the transfer starts in the device buffer, in bytes. */
    function DeviceStart(): (n: nat)
      reads this
      ensures n >= deviceOrigin.x
      ensures deviceOrigin.y == 0 && deviceOrigin.z == 0 ==> n == deviceOrigin.x
    {
      var row := EffectiveRowPitch(deviceRow, region);
      LinearOffset(deviceOrigin, row, EffectiveSlicePitch(deviceSlice, deviceRow, region))
    }

    /** Where the transfer starts in host memory, in bytes. */
    function HostStart(): (n: nat)
      reads this
      ensures n >= hostOrigin.x
      ensures hostOrigin.y == 0 && hostOrigin.z == 0 ==> n == hostOrigin.x
    {
      var row := EffectiveRowPitch(hostRow, region);
      LinearOffset(hostOrigin, row, EffectiveSlicePitch(hostSlice, hostRow, region))
    }
  }

  /** Origins set by element: the y coordinate is scaled by sizeof(T) like x,
      so with a row pitch of p elements an origin (x, y) starts at byte
      sizeof(T) * (sizeof(T) * y * p + x), i.e. at row sizeof(T) * y. */
  lemma {:induction false} ScaledOriginOffset(x: nat, y: nat, p: nat, e: nat)
    ensures LinearOffset(Scale(Triple(x, y, 0), e), p * e, 0) == e * (e * y * p + x)
  {
    calc {
      LinearOffset(Scale(Triple(x, y, 0), e), p * e, 0);
      0 * 0 + (y * e) * (p * e) + x * e;
      { assert (y * e) * (p * e) == e * (e * y * p); }
      e * (e * y * p) + x * e;
      e * (e * y * p + x);
    }
  }

  /** The row pitch in bytes that a descriptor built from a region width of
      w elements and a row pitch of p elements ends up using: p elements, or
      w elements when p is 0. */
  lemma {:induction false} ElementRowPitch(w: nat, h: nat, p: nat, e: nat)
    ensures EffectiveRowPitch(p * e, Triple(w * e, h * e, 1)) == (if p == 0 then w else p) * e
  {
    if p != 0 && e == 0 {
      assert p * e == 0 && w * e == 0;
    }
  }

  /** The device side of a descriptor made by BufferRectCL(w, h),
      DeviceOrigin(x, y) and DevicePitch(p): the transfer starts at byte
      sizeof(T) * (sizeof(T) * y * P + x), where P is p, or w when p is 0. So
      it starts at row sizeof(T) * y, not row y. */
  lemma DeviceStartOfElements(r: BufferRectCL, w: nat, h: nat, x: nat, y: nat, p: nat)
    requires r.region == Triple(w * r.elemBytes, h * r.elemBytes, 1)
    requires r.deviceOrigin == Scale(Triple(x, y, 0), r.elemBytes)
    requires r.deviceRow == p * r.elemBytes && r.deviceSlice == 0
    ensures r.DeviceStart() == r.elemBytes * (r.elemBytes * y * (if p == 0 then w else p) + x)
  {
    ElementRowPitch(w, h, p, r.elemBytes);
    ScaledOriginOffset(x, y, if p == 0 then w else p, r.elemBytes);
  }

  /** The host side of a descriptor made by BufferRectCL(w, h),
      HostOrigin(x, y) and HostPitch(p), as DeviceStartOfElements. */
  lemma HostStartOfElements(r: BufferRectCL, w: nat, h: nat, x: nat, y: nat, p: nat)
    requires r.region == Triple(w * r.elemBytes, h * r.elemBytes, 1)
    requires r.hostOrigin == Scale(Triple(x, y, 0), r.elemBytes)
    requires r.hostRow == p * r.elemBytes && r.hostSlice == 0
    ensures r.HostStart() == r.elemBytes * (r.elemBytes * y * (if p == 0 then w else p) + x)
  {
    ElementRowPitch(w, h, p, r.elemBytes);
    ScaledOriginOffset(x, y, if p == 0 then w else p, r.elemBytes);
  }

  /** BufferRectCL(w, h), then DeviceOrigin(dx, dy), HostOrigin(hx, hy),
      DevicePitch(dp) and HostPitch(hp), on elements of e bytes: where each
      side of the transfer starts, in bytes. */
  method RectStarts(e: nat, w: nat, h: nat, dx: nat, dy: nat, dp: nat, hx: nat, hy: nat, hp: nat)
    returns (deviceStart: nat, hostStart: nat)
    ensures deviceStart == e * (e * dy * (if dp == 0 then w else dp) + dx)
    ensures hostStart == e * (e * hy * (if hp == 0 then w else hp) + hx)
  {
    var rect := new BufferRectCL(e, w, h);
    rect.DeviceOrigin(dx, dy);
    rect.HostOrigin(hx, hy);
    rect.DevicePitch(dp);
    rect.HostPitch(hp);
    DeviceStartOfElements(rect, w, h, dx, dy, dp);
    HostStartOfElements(rect, w, h, hx, hy, hp);
    deviceStart := rect.DeviceStart();
    hostStart := rect.HostStart();
  }

  /** test/cl.cpp:230-238 on floats: rect(4, 4), DeviceOrigin(4, 4),
      HostOrigin(4, 0), DevicePitch(1024), host pitch left at 0. The device
      side starts at float 4 * (4 * 1024 + 1) and the host side at float 4. */
  method ReadRectScenario() returns (deviceElem: nat, hostElem: nat)
    ensures deviceElem == 4 * (4 * 1024 + 1) && hostElem == 4
  {
    var deviceStart, hostStart := RectStarts(4, 4, 4, 4, 4, 1024, 4, 0, 0);
    deviceElem := deviceStart / 4;
    hostElem := hostStart / 4;
  }
}
