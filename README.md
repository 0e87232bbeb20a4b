# gpu: a verified model of the OpenCL host wrapper

The library is a thin C++ layer over the OpenCL C++ bindings. Every device
effect is a driver call. The logic worth verifying is the bookkeeping the
wrapper does around those calls. This model covers five headers:

- `CL/Storage.h` (module `HostStorage`). Host memory behind a buffer: one
  `Storage` class whose `kind` tag selects the override that applies.
  - `ManagedBuffer` owns its memory.
  - `RawPointer` borrows its memory.
  - `Array<T, s>` is a fixed inline array.
  - `Vector` is growable.

  Each variant has its own `Size`, `Data`, `At`, `PushBack` and `Release`.
  The model keeps the base class's `_size` as its own field. Because of that,
  `Vector`'s non-virtual `RawSize()` visibly disagrees with its `Size()`.
- `CL/BufferCL.h` (module `Buffers`).
  - A `BufferCL` turns element offsets into byte offsets, and into remaining
    byte counts computed with size_t (mod 2^64) subtraction.
  - A `BufferRectCL` holds the byte triples and pitches of a rectangular
    transfer. Its setters scale each coordinate by `sizeof(T)`.
  - Linear start offsets follow the origin/pitch formula of section 5.2.2 of
    the OpenCL 1.2 specification.
- `CL/KernelCL.h` (module `Kernels`). Positional argument binding is a map
  from position to `Scalar(v)` or `BufferHandle(id)`. `Args` recurses through
  `_Args` exactly as the variadic template does.
- `CL/QueueCL.h` (module `Queues`). A `QueueCL` appends one `Command`, with
  the parameters the wrapper derives, to its `log` per call. An `EventCL`
  records each `setCallback` its `_Set()` makes; it is armed once that list
  is non-empty.
- `CL/ContextCL.h` (module `Contexts`).
  - The two constructors build the device list; an empty list is an error.
  - The `GPUs`/`CPUs` filter loops are proved equal to an order-preserving
    filter, `OfType`.
  - The `GPU`/`CPU` early-return searches are proved to return that filter's
    head.
  - The `New*Buffer` factories each fix one creation flag.

Module `Transfers` is an assumed semantics of the OpenCL runtime, not code of
the library. It lets the queue's commands be composed:
- device memory of one buffer is a sequence with one entry per element;
- a fill, write, read or copy acts on the elements its byte range spans.

With it, the model proves three compositions:
- fill then read gives the value to the first `_size - deviceOffset` host
  elements, which is every element at offset 0 over any storage but a
  `Vector`;
- write then read returns the host data;
- a copy with the default size moves exactly the source's remaining elements.

Elements are `int`, and `sizeof(T)` is the per-object constant `elemBytes`.
Driver objects (`cl::Context`, `cl::Buffer`, `cl::Kernel`, devices) are
opaque `nat` handles. Host addresses are the `HostPtr` values `Null`,
`Address(n)`, or `Inner(o)` for the block an `Array` or `Vector` allocates
itself.

Two behaviours of the code are modelled as written:
- `BufferRectCL` scales the y and z origins and the region height by
  `sizeof(T)`, like x. Section 5.2.2 of the OpenCL 1.2 specification counts
  `origin[1]` and `region[1]` in rows. So after `BufferRectCL(w, h)`,
  `DeviceOrigin(x, y)` and `DevicePitch(p)`, the transfer starts at byte
  `sizeof(T) * (sizeof(T) * y * P + x)`, where P is p, or w when p is 0. That
  is row `sizeof(T) * y`, not row y (`Buffers.DeviceStartOfElements`,
  `Buffers.HostStartOfElements`, `Buffers.RectStarts`).
- `CPU()` fails with the same "0 gpus" message as `GPU()`.

## Model

| member | source | states |
|---|---|---|
| Common.SizeTSub | CL/BufferCL.h:19 | the size_t difference is below 2^64, is the plain difference when it does not underflow, and wraps to 2^64 - (b - a) when it does |
| HostStorage.Storage.ManagedBuffer | CL/Storage.h:45-53 | an owning storage over the given block: Size() is the element count, RawSize() is count * sizeof(T), and Data() is the pointer it was given |
| HostStorage.Storage.RawPointer | CL/Storage.h:74-82 | a borrowing storage: Size() is the count, RawSize() is count * sizeof(T), and Data() is the caller's pointer |
| HostStorage.Storage.Array | CL/Storage.h:100-110 | s value-initialised elements held in the array's own block; Size() == s and RawSize() == s * sizeof(T) |
| HostStorage.Storage.Vector | CL/Storage.h:131-134 | a new Vector(s) holds no element (Size() == 0) while RawSize() already reports s * sizeof(T) |
| HostStorage.Storage.Size | CL/Storage.h:27 | the base _size, except on a Vector, where it is the vector's length; on a valid storage, the number of designated elements |
| HostStorage.Storage.RawSize | CL/Storage.h:31 | always the base _size times sizeof(T); equal to Size() * sizeof(T) on every variant except Vector |
| HostStorage.Storage.Data | CL/Storage.h:20-21 | the stored pointer; the storage's own block for Array and Vector; a null Data() designates no element |
| HostStorage.Storage.At | CL/Storage.h:24-25 | succeeds exactly for an index inside the elements and then yields that element; only Array and Vector report out_of_range; unchecked variants require the index to be in bounds |
| HostStorage.Storage.SetAt | CL/Storage.h:121-122 | a write through At changes exactly element i and is seen by later reads; an index past the end fails with out_of_range on the checked variants and changes nothing |
| HostStorage.Storage.PushBack | CL/Storage.h:29 | succeeds exactly on a Vector, appending v: Size() grows by one and earlier elements stay. Every other variant fails with "PushBack, invalid operation." and keeps its elements, size and pointer |
| HostStorage.Storage.Release | CL/Storage.h:55-58 | ManagedBuffer and Array: null pointer, Size() == RawSize() == 0. RawPointer: nothing changes. Vector: no element is left, but the base _size and so RawSize() stay |
| HostStorage.RawPointerScenario | test/cl.cpp:100-106 | writing 1 at index 0 of a RawPointer over {2, 1} reads back 1, and Data() is the caller's address |
| HostStorage.ArrayScenario | test/cl.cpp:118-124 | an Array of 10 takes a write at 0 and keeps Size() == 10; At(10) is out_of_range and PushBack is refused |
| HostStorage.VectorScenario | test/cl.cpp:135-141 | Vector(10) then PushBack(1): At(0) == 1 and Size() == 1, while RawSize() is 40 bytes, so Size() * sizeof(T) != RawSize() |
| HostStorage.ManagedScenario | test/cl.cpp:152-153 | a ManagedBuffer of 10 reports Size() == 10; after Release it reports Size() == RawSize() == 0 and a null Data() |
| Buffers.BufferCL.constructor | CL/BufferCL.h:28-31 | both offsets start at 0, so both byte offsets are 0; the device allocation asks for RawSize() bytes from Data() with the given flags |
| Buffers.BufferCL.Get | CL/BufferCL.h:14 | the device handle made at construction, which nothing rebinds |
| Buffers.BufferCL.Size | CL/BufferCL.h:16 | the storage's RawSize() in bytes, which is Count() * sizeof(T) except over a Vector |
| Buffers.BufferCL.Count | CL/BufferCL.h:24 | the storage's Size(): the number of elements it designates |
| Buffers.BufferCL.Flags | CL/BufferCL.h:25 | the flags given at construction, fixed for the buffer's lifetime |
| Buffers.BufferCL.Data | CL/BufferCL.h:26 | the storage's Data(): the storage's own block for Array and Vector |
| Buffers.BufferCL.DeviceBytesOffset | CL/BufferCL.h:18 | the element offset times sizeof(T) |
| Buffers.BufferCL.DeviceSizeFromOffset | CL/BufferCL.h:19 | below 2^64; byte offset plus remaining size is exactly Size() whenever the offset lies within the buffer, in bytes or in elements |
| Buffers.BufferCL.HostBytesOffset | CL/BufferCL.h:21 | the host element offset times sizeof(T) |
| Buffers.BufferCL.HostSizeFromOffset | CL/BufferCL.h:22 | as DeviceSizeFromOffset, from the host offset |
| Buffers.RemainingBytes | CL/BufferCL.h:19 | an element offset within _size is a byte offset within RawSize(), and RawSize() fits size_t when _size <= 2^64 / sizeof(T) |
| Buffers.Scale | CL/BufferCL.h:50-54 | every coordinate of a triple multiplied by sizeof(T) |
| Buffers.LinearOffset | CL/BufferCL.h:42-45 | the start offset of an origin is never below its x coordinate, and is exactly x when y and z are 0 |
| Buffers.EffectiveRowPitch | CL/QueueCL.h:88 | (runtime assumption) a row pitch of 0 means region[0]; any other row pitch is used as given (OpenCL 1.2, section 5.2.2) |
| Buffers.EffectiveSlicePitch | CL/QueueCL.h:88 | (runtime assumption) a slice pitch of 0 means region[1] times the effective row pitch; any other slice pitch is used as given (OpenCL 1.2, section 5.2.2) |
| Buffers.BufferRectCL.constructor | CL/BufferCL.h:84-91 | region is (w * sizeof(T), h * sizeof(T), 1); both origins are (0, 0, 0); all four pitches are 0 |
| Buffers.BufferRectCL.HostOrigin | CL/BufferCL.h:50-54 | the host origin becomes (x, y, z) * sizeof(T); the device origin, region and pitches are unchanged |
| Buffers.BufferRectCL.DeviceOrigin | CL/BufferCL.h:58-62 | the device origin becomes (x, y, z) * sizeof(T); the host origin, region and pitches are unchanged |
| Buffers.BufferRectCL.HostPitch | CL/BufferCL.h:66-69 | host row and slice pitch become row * sizeof(T) and slice * sizeof(T); the device pitches, origins and region are unchanged |
| Buffers.BufferRectCL.DevicePitch | CL/BufferCL.h:71-74 | device row and slice pitch become row * sizeof(T) and slice * sizeof(T); the host pitches, origins and region are unchanged |
| Buffers.BufferRectCL.DeviceStart | CL/BufferCL.h:43 | the device-side start byte is at least origin[0], and is exactly origin[0] for an origin with y = z = 0 |
| Buffers.BufferRectCL.HostStart | CL/BufferCL.h:44 | the host-side start byte is at least origin[0], and is exactly origin[0] for an origin with y = z = 0 |
| Buffers.ScaledOriginOffset | CL/BufferCL.h:58-62 | for an origin (x, y) set by element and a row pitch of p * sizeof(T) bytes taken as given, the linear offset is sizeof(T) * (sizeof(T) * y * p + x) |
| Buffers.ElementRowPitch | CL/BufferCL.h:88 | (runtime assumption) a descriptor built with a width of w elements and a row pitch of p elements uses a row pitch of p elements, or w elements when p is 0 |
| Buffers.DeviceStartOfElements | CL/BufferCL.h:58-62 | after BufferRectCL(w, h), DeviceOrigin(x, y) and DevicePitch(p), the device side starts at byte sizeof(T) * (sizeof(T) * y * P + x), with P = p, or w when p is 0: row sizeof(T) * y, not row y |
| Buffers.HostStartOfElements | CL/BufferCL.h:50-54 | after BufferRectCL(w, h), HostOrigin(x, y) and HostPitch(p), the host side starts at byte sizeof(T) * (sizeof(T) * y * P + x), with P = p, or w when p is 0 |
| Buffers.RectStarts | CL/BufferCL.h:50-74 | running the constructor, both origin setters and both pitch setters puts the start of each side at that formula |
| Buffers.ReadRectScenario | test/cl.cpp:230-238 | derived from RectStarts: rect(4, 4) with DeviceOrigin(4, 4), HostOrigin(4, 0) and DevicePitch(1024) on floats starts at device float 4 * (4 * 1024 + 1) and host float 4 |
| Kernels.DefaultRange | CL/KernelCL.h:22-28 | a default Range has offset, global size and local size all the null range |
| Kernels.Bound | CL/KernelCL.h:46-54 | a buffer argument binds its device handle b.Get() and is the only thing that binds a handle; a scalar binds its own value |
| Kernels.BindFromInside | CL/KernelCL.h:57-63 | after _Args(i, ps...), every position i + k with k < \|ps\| holds the binding of ps[k] |
| Kernels.BindFromOutside | CL/KernelCL.h:65-68 | after _Args(i, ps...), every position outside [i, i + \|ps\|) is bound exactly when it was before, to the same value |
| Kernels.ArgsBinding | CL/KernelCL.h:43-44 | Args(a0, ..., an-1) binds position k to ak for every k < n and leaves every position >= n as it was |
| Kernels.KernelCL.constructor | CL/KernelCL.h:30-32 | the kernel keeps the name it was built with, and no argument is bound yet |
| Kernels.KernelCL.Get | CL/KernelCL.h:41 | the kernel handle made at construction |
| Kernels.KernelCL.Arg | CL/KernelCL.h:46-54 | binding position i replaces what i held, with the scalar or the buffer's handle; every other position keeps its binding |
| Kernels.KernelCL.Args | CL/KernelCL.h:43-44 | the argument table becomes the recursive binding from position 0 (see ArgsBinding) |
| Kernels.KernelCL.BindArgs | CL/KernelCL.h:57-68 | binds ps[0] at i, then the rest from i + 1, which together yield the binding from i |
| Kernels.ArgsScenario | test/cl.cpp:202 | the test's Args(buf, 1, 1.0f), with 1.0f taken as 1, extended by an Arg(1, 5) the test does not make, leaves exactly {0: buf's handle, 1: 5, 2: 1} |
| Queues.EventCL.FromFunction | CL/QueueCL.h:16-21 | stores the function, routes the driver's call through the trampoline with the event itself as user data, and is not armed |
| Queues.EventCL.FromCallback | CL/QueueCL.h:23-25 | uses the caller's callback and user data as given, and is not armed |
| Queues.EventCL.Completion | CL/QueueCL.h:36 | the registration is for CL_COMPLETE with the event's own callback and user data |
| Queues.EventCL.Arm | CL/QueueCL.h:36 | _Set() adds exactly one CL_COMPLETE registration, and the event is armed afterwards |
| Queues.FillCommand | CL/QueueCL.h:61-64 | fills v from the device byte offset over DeviceSizeFromOffset(), so through the end of the buffer |
| Queues.WriteCommand | CL/QueueCL.h:71-80 | writes from Data() at the HOST byte offset over HostSizeFromOffset(), through the end of the buffer; blocking exactly when no event is given |
| Queues.ReadCommand | CL/QueueCL.h:96-105 | reads into Data() from the DEVICE byte offset over DeviceSizeFromOffset(), through the end of the buffer; blocking exactly when no event is given |
| Queues.CopyCommand | CL/QueueCL.h:121-130 | copies s bytes if s != 0, otherwise the source's remaining bytes; each side starts at its own device byte offset |
| Queues.WriteRectCommand | CL/QueueCL.h:82-92 | blocking, from Data(); the device origin and pitches describe the buffer side, the host origin and pitches the host side, the region as is |
| Queues.ReadRectCommand | CL/QueueCL.h:107-117 | blocking, into Data(); the same assignment of origins, pitches and region as the write |
| Queues.CopyRectCommand | CL/QueueCL.h:132-142 | the device origin and pitches go to the source, the host origin and pitches to the destination, the region as is |
| Queues.QueueCL.constructor | CL/QueueCL.h:145-147 | a queue bound to its context and device with nothing issued |
| Queues.QueueCL.Enqueue | CL/QueueCL.h:47 | issues exactly one task command, without an event |
| Queues.QueueCL.EnqueueWithEvent | CL/QueueCL.h:48 | issues one task command carrying the event, then arms the event exactly once |
| Queues.QueueCL.EnqueueRange | CL/QueueCL.h:50-52 | issues one ND-range command with the range's offset, global and local sizes unchanged |
| Queues.QueueCL.EnqueueRangeWithEvent | CL/QueueCL.h:54-57 | as EnqueueRange, carrying the event, which is then armed exactly once |
| Queues.QueueCL.FillBuffer | CL/QueueCL.h:61-64 | issues exactly the fill FillCommand describes |
| Queues.QueueCL.Flush | CL/QueueCL.h:66 | issues one flush |
| Queues.QueueCL.Finish | CL/QueueCL.h:67 | issues one finish |
| Queues.QueueCL.WriteBuffer | CL/QueueCL.h:71-74 | issues the blocking write WriteCommand describes; no event is touched |
| Queues.QueueCL.WriteBufferWithEvent | CL/QueueCL.h:76-80 | issues the non-blocking write carrying the event, then arms the event exactly once |
| Queues.QueueCL.WriteBufferRect | CL/QueueCL.h:82-92 | issues the rectangular write WriteRectCommand describes |
| Queues.QueueCL.ReadBuffer | CL/QueueCL.h:96-99 | issues the blocking read ReadCommand describes; no event is touched |
| Queues.QueueCL.ReadBufferWithEvent | CL/QueueCL.h:101-105 | issues the non-blocking read carrying the event, then arms the event exactly once |
| Queues.QueueCL.ReadBufferRect | CL/QueueCL.h:107-117 | issues the rectangular read ReadRectCommand describes |
| Queues.QueueCL.CopyBuffer | CL/QueueCL.h:121-130 | issues the copy CopyCommand describes, with a default size of 0 |
| Queues.QueueCL.CopyBufferRect | CL/QueueCL.h:132-142 | issues the rectangular copy CopyRectCommand describes |
| Transfers.ApplyFill | CL/QueueCL.h:63 | (runtime assumption) the spanned elements take the value and every other element keeps its own |
| Transfers.ApplyWrite | CL/QueueCL.h:73 | (runtime assumption) the spanned device elements take the first host elements in order and every other element keeps its own |
| Transfers.ApplyRead | CL/QueueCL.h:98 | (runtime assumption) the first host elements take the spanned device elements in order and later host elements keep theirs |
| Transfers.ApplyCopy | CL/QueueCL.h:123-129 | (runtime assumption) the spanned destination elements take the spanned source elements in order and every other element keeps its own |
| Transfers.DeviceSpan | CL/BufferCL.h:18-19 | the device byte offset designates element deviceOffset, and the remaining size spans exactly the elements from there to _size |
| Transfers.HostSpan | CL/BufferCL.h:21-22 | the host byte offset designates element hostOffset, and the remaining size spans exactly the elements from there to _size |
| Transfers.FillThenRead | test/cl.cpp:214-217 | FillBuffer(b, v) then ReadBuffer(b): the first _size - deviceOffset host elements take v, because the read lands at Data(); later host elements keep theirs |
| Transfers.WriteThenRead | CL/QueueCL.h:71-99 | WriteBuffer(b) then ReadBuffer(b) returns the host data unchanged when host and device offsets agree, as they do on every BufferCL |
| Transfers.CopyDefaultSize | CL/QueueCL.h:121-130 | CopyBuffer(src, dst) moves exactly the source's elements from its device offset to its end onto the destination's from its device offset, and touches no other destination element |
| Contexts.DeviceCL.constructor | CL/DeviceCL.h:25-28 | the wrapper keeps its device and creates a fresh, empty queue for that context and device |
| Contexts.DeviceCL.Type | CL/DeviceCL.h:31 | the type the device's info reports |
| Contexts.OfTypeMembers | CL/ContextCL.h:108-116 | the filter keeps a device exactly when it is in the list and has the type |
| Contexts.OfTypeAppend | CL/ContextCL.h:127-135 | the filter distributes over concatenation, so it keeps the devices in their original order |
| Contexts.OfTypeEmpty | CL/ContextCL.h:118-125 | the filter is empty exactly when no device has the type |
| Contexts.FirstOfType | CL/ContextCL.h:137-144 | the first device of the type is the head of the filter |
| Contexts.ContextCL.Default | CL/ContextCL.h:16-22 | the default context has exactly one device, the default one, with its queue on this context |
| Contexts.ContextCL.WithDevices | CL/ContextCL.h:29-33 | one wrapper per input device, in input order, each with a queue for this context and its device |
| Contexts.ContextCL.FromDevices | CL/ContextCL.h:24-27 | fails with "No device" exactly when the list is empty; otherwise one wrapper per device, in order |
| Contexts.ContextCL.Device | CL/ContextCL.h:38-39 | the first wrapper, or out_of_range when the list is empty |
| Contexts.ContextCL.DevicesOfType | CL/ContextCL.h:108-116 | the filter loop returns exactly OfType of the device list |
| Contexts.ContextCL.FirstDeviceOfType | CL/ContextCL.h:118-125 | the search succeeds exactly when a device has the type, returns the first one, and otherwise fails with "0 gpus" |
| Contexts.ContextCL.GPUs | CL/ContextCL.h:108-116 | exactly the GPU devices, in their original order |
| Contexts.ContextCL.GPU | CL/ContextCL.h:118-125 | succeeds exactly when some device is a GPU and returns the first one; otherwise fails with "0 gpus" |
| Contexts.ContextCL.CPUs | CL/ContextCL.h:127-135 | exactly the CPU devices, in their original order |
| Contexts.ContextCL.CPU | CL/ContextCL.h:137-144 | succeeds exactly when some device is a CPU and returns the first one; otherwise fails with the same "0 gpus" message |
| Contexts.ContextCL.NewBuffer | CL/ContextCL.h:49-52 | a buffer over the given storage in this context with the given flags, U_COPY_READ_WRITE by default, at offset 0 |
| Contexts.ContextCL.NewReadOnlyBuffer | CL/ContextCL.h:54-57 | a buffer over the given storage with U_COPY_READ, at offset 0 |
| Contexts.ContextCL.NewWriteOnlyBuffer | CL/ContextCL.h:59-62 | a buffer over the given storage with U_WRITE, at offset 0 |
| Contexts.DefaultContextScenario | CL/ContextCL.h:16-22 | a default context lists one device, and Device() returns it |

## Left out

- The OpenCL runtime is not modelled. This covers buffer allocation, the `enqueue*` calls, `setArg`, `getInfo`, `getWorkGroupInfo`, and context and command-queue creation. Driver objects are opaque handles, and issued commands are a log. Module `Transfers` gives only an assumed element-level effect for linear fills, reads, writes and copies.
- Rectangular transfers are modelled only up to the byte triples they pass and their linear start offsets. What a rectangular transfer does to memory is not modelled.
- Program loading and building (`ContextCL::NewProgramFromFiles`, `NewProgramFromFile`, `NewProgramFromSource`, `CL/ProgramCL.h`): file I/O and the kernel compiler.
- `PlatformCL` and the context factories after `CL/ContextCL.h:146`: driver enumeration.
- `ContextCL::Get`, `Devices` and `DeviceList` only return fields; the model reads `context` and `devices` directly. What callers do through the mutable `DeviceList()` is not modelled.
- `CL/DeviceCL.h` beyond the device, its type and its queue: the metadata reads and `IsDefault`, which compares vendor ids fetched from the driver.
- The `KernelCL(dev, p, n)` constructor: it only queries work-group metadata from the driver.
- `CL/Image.h`: an empty interface.
- Asynchronous delivery of event callbacks on the driver's thread, and the waiting in `Flush` and `Finish`. That is concurrency; only the registration `_Set()` makes is modelled.
- Floating-point element values and kernel results: elements are integers, and no kernel body is modelled.
- `shared_ptr` reference counting and lifetimes, and `ManagedBuffer`'s `delete` (not `delete[]`) deleter.
- Two cases of undefined behaviour are preconditions rather than models: `Data()` on an empty `Vector` (`&_vec[0]`), and `Data()` or `At` after `Array::Release()` (a null dereference).
- HostStorage.Storage.ManagedBuffer: a null pointer with a non-zero count is excluded, although the code accepts it (Size() would report the count and Data() would be null). No caller in the library or its tests does this, and such a storage designates no readable element. The same holds for `HostStorage.Storage.RawPointer`.
- Unchecked `At` on `ManagedBuffer` and `RawPointer` requires an index inside the block. Reading memory outside the block is not modelled.
- `std::vector` capacity and reallocation: `Vector(s)`'s `reserve` is not modelled. Aliasing between several `RawPointer`s over one caller array is also not modelled.
- Buffers.BufferCL.Size: does not model size_t wrap-around of `_size * sizeof(T)`. The products `RawSize()`, `DeviceBytesOffset()` and `HostBytesOffset()` are unbounded; only the subtraction in `DeviceSizeFromOffset()` and `HostSizeFromOffset()` wraps.
- Buffers.BufferRectCL.HostOrigin: does not model size_t wrap-around of the scaled coordinates. The same holds for `DeviceOrigin`, `HostPitch`, `DevicePitch` and the region.
- `U_COPY_READ_WRITE`, `U_COPY_READ` and `U_WRITE` come from `CL/CommonCL.h`, which is not part of this model. They are distinct symbolic flag values, not their bit patterns.
- `CL_DEVICE_TYPE_GPU` and `CL_DEVICE_TYPE_CPU` take the values of the OpenCL headers (4 and 2). Devices whose type combines several bits match neither, as with the `==` test in the code.
- Buffer offsets other than 0: `BufferCL` has no setter, so both offsets stay 0. The accessors are nevertheless modelled and proved for any offset.
- The fill-then-read test over a whole `ManagedBuffer` is covered by `Transfers.FillThenRead` at offset 0. The model does not cover a `Vector` whose `RawSize()` exceeds its contents, because the host side would then be read past the vector's end.
