/** The compute context of CL/ContextCL.h: one device wrapper per device of the
    context, in order; filters and first-match lookups by device type; and the
    factories that bind a Storage into a BufferCL with fixed creation flags. */
module Contexts {
  import opened Common
  import opened HostStorage
  import opened Buffers
  import opened Queues

  /** cl_device_type values of the OpenCL headers. */
  const CL_DEVICE_TYPE_CPU: nat := 2
  const CL_DEVICE_TYPE_GPU: nat := 4

  const NoDevice: string := "No device"
  /** The message of both GPU() and CPU() when nothing matches. */
  const NoGpus: string := "0 gpus"

  /** A driver device: an opaque identity and the type its info reports. */
  datatype ClDevice = ClDevice(id: nat, deviceType: nat)

  /** The parts of DeviceCL this model needs: the device and the queue it
      creates for it. */
  class DeviceCL {
    const device: ClDevice
    const queue: QueueCL

    constructor(context: nat, d: ClDevice)
      ensures device == d && fresh(queue)
      ensures queue.context == context && queue.device == d.id && queue.log == []
    {
      device := d;
      queue := new QueueCL(context, d.id);
    }

    /** GetInfo().Type. */
    function Type(): (t: nat)
      ensures t == device.deviceType
    {
      device.deviceType
    }
  }

  /** The devices of type t, in their original order. */
  function OfType(ds: seq<DeviceCL>, t: nat): (r: seq<DeviceCL>)
  {
    if ds == [] then []
    else (if ds[0].Type() == t then [ds[0]] else []) + OfType(ds[1..], t)
  }

  /** OfType keeps exactly the devices of type t. */
  lemma {:induction false} OfTypeMembers(ds: seq<DeviceCL>, t: nat)
    ensures forall d :: d in OfType(ds, t) <==> d in ds && d.Type() == t
  {
    if ds != [] {
      OfTypeMembers(ds[1..], t);
      assert ds == [ds[0]] + ds[1..];
    }
  }

  /** OfType distributes over concatenation, so it preserves relative order. */
  lemma {:induction false} OfTypeAppend(a: seq<DeviceCL>, b: seq<DeviceCL>, t: nat)
    ensures OfType(a + b, t) == OfType(a, t) + OfType(b, t)
  {
    if a == [] {
      assert a + b == b;
    } else {
      OfTypeAppend(a[1..], b, t);
      assert (a + b)[1..] == a[1..] + b;
    }
  }

  /** OfType is empty exactly when no device has type t. */
  lemma OfTypeEmpty(ds: seq<DeviceCL>, t: nat)
    ensures OfType(ds, t) == [] <==> forall k :: 0 <= k < |ds| ==> ds[k].Type() != t
  {
    OfTypeMembers(ds, t);
    if OfType(ds, t) != [] {
      assert OfType(ds, t)[0] in OfType(ds, t);
    }
  }

  /** When ds[i] is the first device of type t, it heads OfType(ds, t). */
  lemma FirstOfType(ds: seq<DeviceCL>, t: nat, i: nat)
    requires i < |ds| && ds[i].Type() == t
    requires forall k :: 0 <= k < i ==> ds[k].Type() != t
    ensures OfType(ds, t) != [] && OfType(ds, t)[0] == ds[i]
  {
    assert ds == ds[..i] + ds[i..];
    OfTypeAppend(ds[..i], ds[i..], t);
    OfTypeEmpty(ds[..i], t);
  }

  class ContextCL {
    /** _context: the driver's cl::Context, as an opaque handle. */
    const context: nat
    /** _device. */
    var devices: seq<DeviceCL>

    /** ContextCL(): a context over the default device, with one wrapper for it. */
    constructor Default(context: nat, defaultDevice: ClDevice)
      ensures this.context == context
      ensures |devices| == 1 && devices[0].device == defaultDevice
      ensures devices[0].queue.context == context && devices[0].queue.device == defaultDevice.id
    {
      this.context := context;
      var wrapper := new DeviceCL(context, defaultDevice);
      devices := [wrapper];
    }

    /** The body of ContextCL(d) once the emptiness check has passed: one
        wrapper per device, in input order. */
    constructor WithDevices(context: nat, d: seq<ClDevice>)
      requires d != []
      ensures this.context == context && |devices| == |d|
      ensures forall k :: 0 <= k < |d| ==> devices[k].device == d[k]
      ensures forall k :: 0 <= k < |d| ==> devices[k].queue.context == context && devices[k].queue.device == d[k].id
    {
      this.context := context;
      var ds: seq<DeviceCL> := [];
      for k := 0 to |d|
        invariant |ds| == k
        invariant forall j :: 0 <= j < k ==> ds[j].device == d[j]
        invariant forall j :: 0 <= j < k ==> ds[j].queue.context == context && ds[j].queue.device == d[j].id
      {
        var wrapper := new DeviceCL(context, d[k]);
        ds := ds + [wrapper];
      }
      devices := ds;
    }

    /** ContextCL(d): fails with "No device" on an empty list. */
    static method FromDevices(context: nat, d: seq<ClDevice>) returns (r: Result<ContextCL>)
      ensures r.Err? <==> d == []
      ensures r.Err? ==> r.message == NoDevice
      ensures r.Ok? ==> r.value.context == context && |r.value.devices| == |d|
      ensures r.Ok? ==> forall k :: 0 <= k < |d| ==> r.value.devices[k].device == d[k]
    {
      if d == [] {
        return Err(NoDevice);
      }
      var c := new ContextCL.WithDevices(context, d);
      r := Ok(c);
    }

    /** Device(): _device.at(0), the first wrapper. */
    function Device(): (r: Result<DeviceCL>)
      reads this
      ensures r.Ok? <==> devices != []
      ensures r.Ok? ==> r.value == devices[0]
    {
      if devices == [] then Err(OutOfRange) else Ok(devices[0])
    }

    /** The filter loop of GPUs() and CPUs(). */
    method DevicesOfType(t: nat) returns (r: seq<DeviceCL>)
      ensures r == OfType(devices, t)
    {
      r := [];
      for k := 0 to |devices|
        invariant r == OfType(devices[..k], t)
      {
        assert devices[..k + 1] == devices[..k] + [devices[k]];
        OfTypeAppend(devices[..k], [devices[k]], t);
        if devices[k].Type() == t {
          r := r + [devices[k]];
        }
      }
      assert devices[..|devices|] == devices;
    }

    /** The early-return search of GPU() and CPU(). */
    method FirstDeviceOfType(t: nat) returns (r: Result<DeviceCL>)
      ensures r.Ok? <==> OfType(devices, t) != []
      ensures r.Ok? ==> OfType(devices, t) != [] && r.value == OfType(devices, t)[0]
      ensures r.Err? ==> r.message == NoGpus
    {
      for k := 0 to |devices|
        invariant forall j :: 0 <= j < k ==> devices[j].Type() != t
      {
        if devices[k].Type() == t {
          FirstOfType(devices, t, k);
          return Ok(devices[k]);
        }
      }
      OfTypeEmpty(devices, t);
      r := Err(NoGpus);
    }

    /** GPUs(): the GPU devices, in order. */
    method GPUs() returns (r: seq<DeviceCL>)
      ensures forall d :: d in r <==> d in devices && d.Type() == CL_DEVICE_TYPE_GPU
      ensures r == OfType(devices, CL_DEVICE_TYPE_GPU)
    {
      r := DevicesOfType(CL_DEVICE_TYPE_GPU);
      OfTypeMembers(devices, CL_DEVICE_TYPE_GPU);
    }

    /** GPU(): the first GPU device, or "0 gpus". */
    method GPU() returns (r: Result<DeviceCL>)
      ensures r.Ok? <==> exists k :: 0 <= k < |devices| && devices[k].Type() == CL_DEVICE_TYPE_GPU
      ensures r.Ok? ==> OfType(devices, CL_DEVICE_TYPE_GPU) != [] && r.value == OfType(devices, CL_DEVICE_TYPE_GPU)[0]
      ensures r.Err? ==> r.message == NoGpus
    {
      r := FirstDeviceOfType(CL_DEVICE_TYPE_GPU);
      OfTypeEmpty(devices, CL_DEVICE_TYPE_GPU);
    }

    /** CPUs(): the CPU devices, in order. */
    method CPUs() returns (r: seq<DeviceCL>)
      ensures forall d :: d in r <==> d in devices && d.Type() == CL_DEVICE_TYPE_CPU
      ensures r == OfType(devices, CL_DEVICE_TYPE_CPU)
    {
      r := DevicesOfType(CL_DEVICE_TYPE_CPU);
      OfTypeMembers(devices, CL_DEVICE_TYPE_CPU);
    }

    /** CPU(): the first CPU device, or the same "0 gpus" message as GPU(). */
    method CPU() returns (r: Result<DeviceCL>)
      ensures r.Ok? <==> exists k :: 0 <= k < |devices| && devices[k].Type() == CL_DEVICE_TYPE_CPU
      ensures r.Ok? ==> OfType(devices, CL_DEVICE_TYPE_CPU) != [] && r.value == OfType(devices, CL_DEVICE_TYPE_CPU)[0]
      ensures r.Err? ==> r.message == NoGpus
    {
      r := FirstDeviceOfType(CL_DEVICE_TYPE_CPU);
      OfTypeEmpty(devices, CL_DEVICE_TYPE_CPU);
    }

    /** NewBuffer(buf, f = U_COPY_READ_WRITE): a BufferCL over buf in this
        context. handle stands for the cl::Buffer the driver returns. */
    method NewBuffer(handle: nat, buf: Storage, f: MemFlags := CopyReadWrite) returns (b: BufferCL)
      requires buf.Valid() && buf.DataDefined()
      ensures b.impl == buf && b.Flags() == f && b.Get() == handle
      ensures b.allocation == Allocation(context, f, buf.RawSize(), buf.Data())
      ensures b.DeviceBytesOffset() == 0 && b.HostBytesOffset() == 0
    {
      b := new BufferCL(context, buf, f, handle);
    }

    /** NewReadOnlyBuffer(buf): flags U_COPY_READ. */
    method NewReadOnlyBuffer(handle: nat, buf: Storage) returns (b: BufferCL)
      requires buf.Valid() && buf.DataDefined()
      ensures b.impl == buf && b.Flags() == CopyRead && b.Get() == handle
      ensures b.allocation == Allocation(context, CopyRead, buf.RawSize(), buf.Data())
      ensures b.DeviceBytesOffset() == 0 && b.HostBytesOffset() == 0
    {
      b := new BufferCL(context, buf, CopyRead, handle);
    }

    /** NewWriteOnlyBuffer(buf): flags U_WRITE. */
    method NewWriteOnlyBuffer(handle: nat, buf: Storage) returns (b: BufferCL)
      requires buf.Valid() && buf.DataDefined()
      ensures b.impl == buf && b.Flags() == WriteOnly && b.Get() == handle
      ensures b.allocation == Allocation(context, WriteOnly, buf.RawSize(), buf.Data())
      ensures b.DeviceBytesOffset() == 0 && b.HostBytesOffset() == 0
    {
      b := new BufferCL(context, buf, WriteOnly, handle);
    }
  }

  /** ContextCL(): exactly one device, and Device() is it. */
  method DefaultContextScenario(context: nat, defaultDevice: ClDevice) returns (count: nat, first: Result<DeviceCL>)
    ensures count == 1 && first.Ok? && first.value.device == defaultDevice
  {
    var c := new ContextCL.Default(context, defaultDevice);
    count := |c.devices|;
    first := c.Device();
  }
}
