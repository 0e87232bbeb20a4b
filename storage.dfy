/** The host-memory storage hierarchy of CL/Storage.h: one abstract capability
    set {Data, At, Size, RawSize, Release, PushBack} with four variants. The
    variants are one class with a kind tag; each operation dispatches on it
    the way the virtual overrides do. */
module HostStorage {
  import opened Common

  /** A host address as Data() reports it: null, an address the caller owns,
      or the block an Array or a Vector allocated for itself. */
  datatype HostPtr = Null | Address(addr: nat) | Inner(owner: object)

  /** Owning is ManagedBuffer, Borrowed is RawPointer, InlineArray is
      Array<T, s>, Growable is Vector. */
  datatype Kind = Owning | Borrowed | InlineArray | Growable

  /** The message of the base class's PushBack. */
  const PushBackInvalid: string := "PushBack, invalid operation."

  /** What std::array::at and std::vector::at throw for an index past the end. */
  const OutOfRange: string := "out of range"

  class Storage {
    /** Which override of the virtual members applies. */
    const kind: Kind
    /** sizeof(T). */
    const elemBytes: nat
    /** The base class's _size. */
    var size: nat
    /** _pointer for ManagedBuffer, RawPointer and Array; the vector's buffer for Vector. */
    var pointer: HostPtr
    /** The elements the storage designates; for a Vector, the contents of _vec. */
    var elems: seq<int>

    ghost predicate Valid()
      reads this
    {
      && elemBytes > 0
      && (kind != Growable ==> |elems| == size)
      && (kind == Owning || kind == Borrowed ==> pointer == Null ==> elems == [])
      && (kind == InlineArray ==> pointer == Inner(this) || (pointer == Null && elems == []))
      && (kind == Growable ==> pointer == Inner(this))
    }

    /** ManagedBuffer(t, s): takes ownership of the s elements t points to;
        block is their contents. A null pointer designates no elements. */
    constructor ManagedBuffer(elemBytes: nat, t: HostPtr, block: seq<int>)
      requires elemBytes > 0
      requires t == Null ==> block == []
      ensures Valid() && kind == Owning && this.elemBytes == elemBytes
      ensures Size() == |block| && RawSize() == |block| * elemBytes
      ensures Data() == t && elems == block
    {
      kind, this.elemBytes := Owning, elemBytes;
      size, pointer, elems := |block|, t, block;
    }

    /** RawPointer(t, s): borrows the s elements t points to; the caller keeps
        ownership. */
    constructor RawPointer(elemBytes: nat, t: HostPtr, block: seq<int>)
      requires elemBytes > 0
      requires t == Null ==> block == []
      ensures Valid() && kind == Borrowed && this.elemBytes == elemBytes
      ensures Size() == |block| && RawSize() == |block| * elemBytes
      ensures Data() == t && elems == block
    {
      kind, this.elemBytes := Borrowed, elemBytes;
      size, pointer, elems := |block|, t, block;
    }

    /** Array<T, s>(): allocates a value-initialised block of s elements. */
    constructor Array(elemBytes: nat, s: nat)
      requires elemBytes > 0
      ensures Valid() && kind == InlineArray && this.elemBytes == elemBytes
      ensures Size() == s && RawSize() == s * elemBytes
      ensures pointer == Inner(this) && Data() == Inner(this)
      ensures elems == seq(s, _ => 0)
    {
      kind, this.elemBytes := InlineArray, elemBytes;
      size, elems := s, seq(s, _ => 0);
      new;
      pointer := Inner(this);
    }

    /** Vector(s): reserves room for s elements but holds none; the base
        _size is set to s all the same. Vector() is Vector(0). */
    constructor Vector(elemBytes: nat, s: nat := 0)
      requires elemBytes > 0
      ensures Valid() && kind == Growable && this.elemBytes == elemBytes
      ensures Size() == 0 && elems == []
      ensures RawSize() == s * elemBytes
    {
      kind, this.elemBytes := Growable, elemBytes;
      size, elems := s, [];
      new;
      pointer := Inner(this);
    }

    /** Size(): the base _size, except that Vector overrides it with the
        vector's own length. */
    function Size(): (n: nat)
      reads this
      ensures kind == Growable ==> n == |elems|
      ensures kind != Growable ==> n == size
      ensures Valid() ==> n == |elems|
    {
      if kind == Growable then |elems| else size
    }

    /** RawSize(): not virtual, so it always reads the base _size, even for a
        Vector whose Size() says otherwise. */
    function RawSize(): (n: nat)
      reads this
      ensures n == size * elemBytes
      ensures kind != Growable ==> n == Size() * elemBytes
    {
      size * elemBytes
    }

    /** Data() is defined except on a released Array (a null dereference) and
        on an empty Vector (&_vec[0]). */
    predicate DataDefined()
      reads this
    {
      && (kind == InlineArray ==> pointer != Null)
      && (kind == Growable ==> elems != [])
    }

    /** Data(): the address of the first element. */
    function Data(): (p: HostPtr)
      reads this
      requires Valid() && DataDefined()
      ensures kind == InlineArray || kind == Growable ==> p == Inner(this)
      ensures p == Null ==> elems == []
    {
      pointer
    }

    /** At(i) is defined for every index on Array and Vector, which check it,
        except on a released Array (a null dereference); on ManagedBuffer and
        RawPointer it is unchecked, so only indices inside the block are
        defined. */
    predicate AtDefined(i: nat)
      reads this
    {
      && (kind == Owning || kind == Borrowed ==> i < |elems|)
      && (kind == InlineArray ==> pointer != Null)
    }

    /** At(i), read: element i, or out_of_range from the checked variants. */
    function At(i: nat): (r: Result<int>)
      reads this
      requires Valid() && AtDefined(i)
      ensures r.Ok? <==> i < |elems|
      ensures r.Ok? ==> r.value == elems[i]
      ensures r.Err? ==> (kind == InlineArray || kind == Growable) && r.message == OutOfRange
    {
      if i < |elems| then Ok(elems[i]) else Err(OutOfRange)
    }

    /** At(i) = v: a write through the reference At returns. */
    method SetAt(i: nat, v: int) returns (r: Outcome)
      requires Valid() && AtDefined(i)
      modifies this
      ensures Valid()
      ensures r.Pass? <==> i < old(|elems|)
      ensures r.Fail? ==> r.message == OutOfRange && elems == old(elems)
      ensures r.Pass? ==> elems == old(elems)[i := v]
      ensures size == old(size) && pointer == old(pointer)
    {
      if i < |elems| {
        elems := elems[i := v];
        r := Pass;
      } else {
        r := Fail(OutOfRange);
      }
    }

    /** PushBack(v): appends on a Vector; every other variant inherits the
        base class's throwing default and changes nothing. */
    method PushBack(v: int) returns (r: Outcome)
      requires Valid()
      modifies this
      ensures Valid()
      ensures r.Pass? <==> kind == Growable
      ensures r.Fail? ==> r.message == PushBackInvalid
      ensures r.Fail? ==> elems == old(elems)
      ensures r.Pass? ==> elems == old(elems) + [v]
      ensures r.Pass? ==> Size() == old(Size()) + 1
      ensures size == old(size) && pointer == old(pointer)
    {
      if kind == Growable {
        elems := elems + [v];
        r := Pass;
      } else {
        r := Fail(PushBackInvalid);
      }
    }

    /** Release(): ManagedBuffer and Array drop their block and set _size to 0;
        RawPointer does nothing; Vector empties _vec but leaves _size alone. */
    method Release()
      requires Valid()
      modifies this
      ensures Valid()
      ensures kind == Owning || kind == InlineArray ==>
                pointer == Null && Size() == 0 && RawSize() == 0 && elems == []
      ensures kind == Borrowed ==> pointer == old(pointer) && size == old(size) && elems == old(elems)
      ensures kind == Growable ==>
                elems == [] && Size() == 0 && size == old(size) && RawSize() == old(RawSize())
                && pointer == old(pointer)
    {
      match kind
      case Owning =>
        pointer, size, elems := Null, 0, [];
      case InlineArray =>
        pointer, size, elems := Null, 0, [];
      case Borrowed =>
      case Growable =>
        elems := [];
    }
  }

  /** test/cl.cpp:100-106: a RawPointer over the caller's {2, 1} at address b;
      writing 1 through At(0) is read back, and Data() is b itself. */
  method RawPointerScenario(b: nat) returns (first: int, second: int, data: HostPtr)
    ensures first == 1 && second == 1 && data == Address(b)
  {
    var buf := new Storage.RawPointer(4, Address(b), [2, 1]);
    var _ := buf.SetAt(0, 1);
    first := buf.At(0).value;
    second := buf.At(1).value;
    data := buf.Data();
  }

  /** test/cl.cpp:118-124: an Array<float, 10> takes a write at index 0 and
      keeps its size; At(10) is out of range and PushBack is refused. */
  method ArrayScenario() returns (first: int, count: nat, past: Result<int>, push: Outcome)
    ensures first == 1 && count == 10
    ensures past == Err(OutOfRange) && push == Fail(PushBackInvalid)
  {
    var buf := new Storage.Array(4, 10);
    var _ := buf.SetAt(0, 1);
    first := buf.At(0).value;
    count := buf.Size();
    past := buf.At(10);
    push := buf.PushBack(7);
  }

  /** test/cl.cpp:135-141: Vector<float>(10) then PushBack(1): At(0) is 1 and
      Size() is 1, while RawSize() still reports the 10 reserved floats, so
      Size() * sizeof(T) != RawSize(). */
  method VectorScenario() returns (first: int, count: nat, raw: nat)
    ensures first == 1 && count == 1 && raw == 40
    ensures count * 4 != raw
  {
    var buf := new Storage.Vector(4, 10);
    var _ := buf.PushBack(1);
    first := buf.At(0).value;
    count := buf.Size();
    raw := buf.RawSize();
  }

  /** test/cl.cpp:152-153, with Release: a ManagedBuffer of 10 elements
      reports Size() == 10; once released it reports 0 and a null Data(). */
  method ManagedScenario(p: nat, block: seq<int>) returns (before: nat, after: nat, rawAfter: nat, data: HostPtr)
    requires |block| == 10
    ensures before == 10 && after == 0 && rawAfter == 0 && data == Null
  {
    var buf := new Storage.ManagedBuffer(4, Address(p), block);
    before := buf.Size();
    buf.Release();
    after := buf.Size();
    rawAfter := buf.RawSize();
    data := buf.Data();
  }
}
