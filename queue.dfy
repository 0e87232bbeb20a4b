/** The command queue and completion event of CL/QueueCL.h. Every queue
    method issues exactly one driver command, whose parameters it derives from
    the buffer or the region descriptor; the queue keeps those commands, in
    order, in its log. The forms that take an event pass it to the command and
    then register the event's completion callback once. */
module Queues {
  import opened Common
  import opened HostStorage
  import opened Buffers
  import opened Kernels

  /** CL_COMPLETE, the execution status the callback is registered for. */
  const CL_COMPLETE: int := 0

  /** The C callback _c: the trampoline the std::function constructor installs,
      or a function the caller supplied. */
  datatype CallbackFn = Trampoline | Function(fn: nat)

  /** _ptr, the user data the callback receives: the EventCL itself, or a
      pointer the caller supplied. */
  datatype UserData = ThisEvent | Pointer(addr: nat)

  /** One setCallback call on the underlying cl::Event. */
  datatype Registration = Registration(status: int, callback: CallbackFn, userData: UserData)

  class EventCL {
    /** Callback: the std::function the trampoline forwards to, if any. */
    const callback: Option<nat>
    const fn: CallbackFn
    const userData: UserData
    /** The setCallback calls made on _ev so far. */
    var registrations: seq<Registration>

    /** EventCL(f): stores f, and routes the driver's call through the
        trampoline with this event as user data. */
    constructor FromFunction(f: nat)
      ensures callback == Some(f) && fn == Trampoline && userData == ThisEvent
      ensures registrations == [] && !Armed()
    {
      callback, fn, userData := Some(f), Trampoline, ThisEvent;
      registrations := [];
    }

    /** EventCL(c, ptr): the caller's C callback and user data, used as given. */
    constructor FromCallback(c: nat, ptr: nat)
      ensures callback == None && fn == Function(c) && userData == Pointer(ptr)
      ensures registrations == [] && !Armed()
    {
      callback, fn, userData := None, Function(c), Pointer(ptr);
      registrations := [];
    }

    /** The registration _Set() makes. */
    function Completion(): (r: Registration)
      ensures r.status == CL_COMPLETE && r.callback == fn && r.userData == userData
    {
      Registration(CL_COMPLETE, fn, userData)
    }

    predicate Armed()
      reads this
    {
      registrations != []
    }

    /** _Set(): registers the callback for CL_COMPLETE. */
    method Arm()
      modifies this
      ensures registrations == old(registrations) + [Completion()]
      ensures Armed()
    {
      registrations := registrations + [Completion()];
    }
  }

  /** One driver command, with the parameters the wrapper passes. Sizes and
      offsets are in bytes; origins, regions and pitches are the byte triples
      of a BufferRectCL. */
  datatype Command =
    | EnqueueTask(kernel: nat, event: Option<EventCL>)
    | EnqueueNDRangeKernel(kernel: nat, workOffset: NDRange, globalSize: NDRange, localSize: NDRange, event: Option<EventCL>)
    | EnqueueFillBuffer(buffer: nat, value: int, offset: nat, size: nat)
    | EnqueueWriteBuffer(buffer: nat, blocking: bool, offset: nat, size: nat, host: HostPtr, event: Option<EventCL>)
    | EnqueueReadBuffer(buffer: nat, blocking: bool, offset: nat, size: nat, host: HostPtr, event: Option<EventCL>)
    | EnqueueWriteBufferRect(buffer: nat, blocking: bool, bufferOrigin: Triple, hostOrigin: Triple, region: Triple,
                             bufferRow: nat, bufferSlice: nat, hostRow: nat, hostSlice: nat, host: HostPtr)
    | EnqueueReadBufferRect(buffer: nat, blocking: bool, bufferOrigin: Triple, hostOrigin: Triple, region: Triple,
                            bufferRow: nat, bufferSlice: nat, hostRow: nat, hostSlice: nat, host: HostPtr)
    | EnqueueCopyBuffer(src: nat, dst: nat, srcOffset: nat, dstOffset: nat, size: nat)
    | EnqueueCopyBufferRect(src: nat, dst: nat, srcOrigin: Triple, dstOrigin: Triple, region: Triple,
                            srcRow: nat, srcSlice: nat, dstRow: nat, dstSlice: nat)
    | FlushQueue
    | FinishQueue

  /** FillBuffer(b, v): v over the bytes from the device offset to the end of
      the buffer. */
  function FillCommand(b: BufferCL, v: int): (c: Command)
    reads b.impl
    ensures c.EnqueueFillBuffer? && c.buffer == b.Get() && c.value == v
    ensures c.offset == b.DeviceBytesOffset() && c.size == b.DeviceSizeFromOffset()
    ensures b.DeviceBytesOffset() <= b.Size() < SizeTModulus ==> c.offset + c.size == b.Size()
  {
    EnqueueFillBuffer(b.Get(), v, b.DeviceBytesOffset(), b.DeviceSizeFromOffset())
  }

  /** WriteBuffer(b[, ev]): from b.Data(), into the bytes from the HOST offset
      to the end; blocking exactly when there is no event. */
  function WriteCommand(b: BufferCL, ev: Option<EventCL>): (c: Command)
    reads b.impl
    requires b.impl.Valid() && b.impl.DataDefined()
    ensures c.EnqueueWriteBuffer? && c.buffer == b.Get() && c.host == b.Data() && c.event == ev
    ensures c.blocking <==> ev.None?
    ensures c.offset == b.HostBytesOffset() && c.size == b.HostSizeFromOffset()
    ensures b.HostBytesOffset() <= b.Size() < SizeTModulus ==> c.offset + c.size == b.Size()
  {
    EnqueueWriteBuffer(b.Get(), ev.None?, b.HostBytesOffset(), b.HostSizeFromOffset(), b.Data(), ev)
  }

  /** ReadBuffer(b[, ev]): the bytes from the DEVICE offset to the end, into
      b.Data(); blocking exactly when there is no event. */
  function ReadCommand(b: BufferCL, ev: Option<EventCL>): (c: Command)
    reads b.impl
    requires b.impl.Valid() && b.impl.DataDefined()
    ensures c.EnqueueReadBuffer? && c.buffer == b.Get() && c.host == b.Data() && c.event == ev
    ensures c.blocking <==> ev.None?
    ensures c.offset == b.DeviceBytesOffset() && c.size == b.DeviceSizeFromOffset()
    ensures b.DeviceBytesOffset() <= b.Size() < SizeTModulus ==> c.offset + c.size == b.Size()
  {
    EnqueueReadBuffer(b.Get(), ev.None?, b.DeviceBytesOffset(), b.DeviceSizeFromOffset(), b.Data(), ev)
  }

  /** CopyBuffer(src, dst, s): s bytes, or when s is 0 everything from the
      source's device offset to its end; each side starts at its own device offset. */
  function CopyCommand(src: BufferCL, dst: BufferCL, s: nat): (c: Command)
    reads src.impl
    ensures c.EnqueueCopyBuffer? && c.src == src.Get() && c.dst == dst.Get()
    ensures c.srcOffset == src.DeviceBytesOffset() && c.dstOffset == dst.DeviceBytesOffset()
    ensures s != 0 ==> c.size == s
    ensures s == 0 ==> c.size == src.DeviceSizeFromOffset()
    ensures s == 0 && src.DeviceBytesOffset() <= src.Size() < SizeTModulus ==>
              c.srcOffset + c.size == src.Size()
  {
    EnqueueCopyBuffer(src.Get(), dst.Get(), src.DeviceBytesOffset(), dst.DeviceBytesOffset(),
                      if s != 0 then s else src.DeviceSizeFromOffset())
  }

  /** A rectangular read or write: the device origin and pitches describe the
      buffer side, the host origin and pitches the host side, the region is
      passed unchanged, and the call blocks. */
  predicate RectFromDescriptor(c: Command, b: BufferCL, r: BufferRectCL)
    reads r
    requires c.EnqueueWriteBufferRect? || c.EnqueueReadBufferRect?
  {
    && c.buffer == b.Get() && c.blocking
    && c.bufferOrigin == r.deviceOrigin && c.hostOrigin == r.hostOrigin && c.region == r.region
    && c.bufferRow == r.deviceRow && c.bufferSlice == r.deviceSlice
    && c.hostRow == r.hostRow && c.hostSlice == r.hostSlice
  }

  /** WriteBufferRect(b, r): blocking, from b.Data(). */
  function WriteRectCommand(b: BufferCL, r: BufferRectCL): (c: Command)
    reads b.impl, r
    requires b.impl.Valid() && b.impl.DataDefined()
    ensures c.EnqueueWriteBufferRect? && c.host == b.Data() && RectFromDescriptor(c, b, r)
  {
    EnqueueWriteBufferRect(b.Get(), true, r.deviceOrigin, r.hostOrigin, r.region,
                           r.deviceRow, r.deviceSlice, r.hostRow, r.hostSlice, b.Data())
  }

  /** ReadBufferRect(b, r): blocking, into b.Data(). */
  function ReadRectCommand(b: BufferCL, r: BufferRectCL): (c: Command)
    reads b.impl, r
    requires b.impl.Valid() && b.impl.DataDefined()
    ensures c.EnqueueReadBufferRect? && c.host == b.Data() && RectFromDescriptor(c, b, r)
  {
    EnqueueReadBufferRect(b.Get(), true, r.deviceOrigin, r.hostOrigin, r.region,
                          r.deviceRow, r.deviceSlice, r.hostRow, r.hostSlice, b.Data())
  }

  /** CopyBufferRect(src, dst, r): the device origin and pitches go to the
      source side, the host origin and pitches to the destination side. */
  function CopyRectCommand(src: BufferCL, dst: BufferCL, r: BufferRectCL): (c: Command)
    reads r
    ensures c.EnqueueCopyBufferRect? && c.src == src.Get() && c.dst == dst.Get() && c.region == r.region
    ensures c.srcOrigin == r.deviceOrigin && c.srcRow == r.deviceRow && c.srcSlice == r.deviceSlice
    ensures c.dstOrigin == r.hostOrigin && c.dstRow == r.hostRow && c.dstSlice == r.hostSlice
  {
    EnqueueCopyBufferRect(src.Get(), dst.Get(), r.deviceOrigin, r.hostOrigin, r.region,
                          r.deviceRow, r.deviceSlice, r.hostRow, r.hostSlice)
  }

  class QueueCL {
    /** The context and device the queue was created for; it cannot be rebound. */
    const context: nat
    const device: nat
    /** The commands issued so far, oldest first. */
    var log: seq<Command>

    /** QueueCL(c, dev): a fresh queue with nothing issued. */
    constructor(context: nat, device: nat)
      ensures this.context == context && this.device == device && log == []
    {
      this.context, this.device := context, device;
      log := [];
    }

    /** Enqueue(k): a single task. */
    method Enqueue(k: KernelCL)
      modifies this
      ensures log == old(log) + [EnqueueTask(k.Get(), None)]
    {
      log := log + [EnqueueTask(k.Get(), None)];
    }

    /** Enqueue(k, ev): a single task carrying ev, then ev._Set(). */
    method EnqueueWithEvent(k: KernelCL, ev: EventCL)
      modifies this, ev
      ensures log == old(log) + [EnqueueTask(k.Get(), Some(ev))]
      ensures ev.registrations == old(ev.registrations) + [ev.Completion()]
    {
      log := log + [EnqueueTask(k.Get(), Some(ev))];
      ev.Arm();
    }

    /** Enqueue(k, r): an ND-range launch with r's offset, global and local sizes. */
    method EnqueueRange(k: KernelCL, r: Range)
      modifies this
      ensures log == old(log) + [EnqueueNDRangeKernel(k.Get(), r.offset, r.globalSize, r.localSize, None)]
    {
      log := log + [EnqueueNDRangeKernel(k.Get(), r.offset, r.globalSize, r.localSize, None)];
    }

    /** Enqueue(k, r, ev): as EnqueueRange, carrying ev, then ev._Set(). */
    method EnqueueRangeWithEvent(k: KernelCL, r: Range, ev: EventCL)
      modifies this, ev
      ensures log == old(log) + [EnqueueNDRangeKernel(k.Get(), r.offset, r.globalSize, r.localSize, Some(ev))]
      ensures ev.registrations == old(ev.registrations) + [ev.Completion()]
    {
      log := log + [EnqueueNDRangeKernel(k.Get(), r.offset, r.globalSize, r.localSize, Some(ev))];
      ev.Arm();
    }

    method FillBuffer(b: BufferCL, v: int)
      modifies this
      ensures log == old(log) + [FillCommand(b, v)]
    {
      log := log + [FillCommand(b, v)];
    }

    method Flush()
      modifies this
      ensures log == old(log) + [FlushQueue]
    {
      log := log + [FlushQueue];
    }

    method Finish()
      modifies this
      ensures log == old(log) + [FinishQueue]
    {
      log := log + [FinishQueue];
    }

    method WriteBuffer(b: BufferCL)
      requires b.impl.Valid() && b.impl.DataDefined()
      modifies this
      ensures log == old(log) + [WriteCommand(b, None)]
    {
      log := log + [WriteCommand(b, None)];
    }

    method WriteBufferWithEvent(b: BufferCL, ev: EventCL)
      requires b.impl.Valid() && b.impl.DataDefined()
      modifies this, ev
      ensures log == old(log) + [WriteCommand(b, Some(ev))]
      ensures ev.registrations == old(ev.registrations) + [ev.Completion()]
    {
      log := log + [WriteCommand(b, Some(ev))];
      ev.Arm();
    }

    method WriteBufferRect(b: BufferCL, r: BufferRectCL)
      requires b.impl.Valid() && b.impl.DataDefined()
      modifies this
      ensures log == old(log) + [WriteRectCommand(b, r)]
    {
      log := log + [WriteRectCommand(b, r)];
    }

    method ReadBuffer(b: BufferCL)
      requires b.impl.Valid() && b.impl.DataDefined()
      modifies this
      ensures log == old(log) + [ReadCommand(b, None)]
    {
      log := log + [ReadCommand(b, None)];
    }

    method ReadBufferWithEvent(b: BufferCL, ev: EventCL)
      requires b.impl.Valid() && b.impl.DataDefined()
      modifies this, ev
      ensures log == old(log) + [ReadCommand(b, Some(ev))]
      ensures ev.registrations == old(ev.registrations) + [ev.Completion()]
    {
      log := log + [ReadCommand(b, Some(ev))];
      ev.Arm();
    }

    method ReadBufferRect(b: BufferCL, r: BufferRectCL)
      requires b.impl.Valid() && b.impl.DataDefined()
      modifies this
      ensures log == old(log) + [ReadRectCommand(b, r)]
    {
      log := log + [ReadRectCommand(b, r)];
    }

    method CopyBuffer(src: BufferCL, dst: BufferCL, s: nat := 0)
      modifies this
      ensures log == old(log) + [CopyCommand(src, dst, s)]
    {
      log := log + [CopyCommand(src, dst, s)];
    }

    method CopyBufferRect(src: BufferCL, dst: BufferCL, r: BufferRectCL)
      modifies this
      ensures log == old(log) + [CopyRectCommand(src, dst, r)]
    {
      log := log + [CopyRectCommand(src, dst, r)];
    }
  }
}
