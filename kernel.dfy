/** Kernel argument binding of CL/KernelCL.h: arguments are bound by position,
    a scalar by value and a buffer by its device handle. */
module Kernels {
  import opened Buffers

  /** What setArg receives: a scalar's value or a cl::Buffer handle. */
  datatype ArgValue = Scalar(v: int) | BufferHandle(id: nat)

  /** An argument as the caller passes it: a scalar or a BufferCL. */
  datatype KernelArg = ScalarArg(v: int) | BufferArg(buffer: BufferCL)

  /** cl::NDRange: the sizes of each dimension; cl::NullRange has none. */
  type NDRange = seq<nat>

  const NullRange: NDRange := []

  datatype Range = Range(offset: NDRange, globalSize: NDRange, localSize: NDRange)

  /** Range(): no offset, no global size, no local size. */
  function DefaultRange(): (r: Range)
    ensures r.offset == NullRange && r.globalSize == NullRange && r.localSize == NullRange
  {
    Range(NullRange, NullRange, NullRange)
  }

  /** The overload Arg picks: a BufferCL binds b.Get(), anything else itself. */
  function Bound(a: KernelArg): (v: ArgValue)
    ensures a.BufferArg? <==> v.BufferHandle?
    ensures a.BufferArg? ==> v.id == a.buffer.Get()
    ensures a.ScalarArg? ==> v.v == a.v
  {
    match a
    case ScalarArg(x) => Scalar(x)
    case BufferArg(b) => BufferHandle(b.Get())
  }

  /** The argument table after _Args(i, ps...): position i + k takes ps[k]. */
  function BindFrom(table: map<nat, ArgValue>, i: nat, ps: seq<KernelArg>): (r: map<nat, ArgValue>)
    decreases |ps|
  {
    if ps == [] then table else BindFrom(table[i := Bound(ps[0])], i + 1, ps[1..])
  }

  /** Every position in [i, i + |ps|) holds the binding of its own argument. */
  lemma {:induction false} BindFromInside(table: map<nat, ArgValue>, i: nat, ps: seq<KernelArg>, k: nat)
    requires i <= k < i + |ps|
    ensures k in BindFrom(table, i, ps) && BindFrom(table, i, ps)[k] == Bound(ps[k - i])
    decreases |ps|
  {
    if k == i {
      BindFromOutside(table[i := Bound(ps[0])], i + 1, ps[1..], k);
    } else {
      BindFromInside(table[i := Bound(ps[0])], i + 1, ps[1..], k);
    }
  }

  /** Every position outside [i, i + |ps|) keeps what it had. */
  lemma {:induction false} BindFromOutside(table: map<nat, ArgValue>, i: nat, ps: seq<KernelArg>, k: nat)
    requires k < i || i + |ps| <= k
    ensures k in BindFrom(table, i, ps) <==> k in table
    ensures k in table ==> BindFrom(table, i, ps)[k] == table[k]
    decreases |ps|
  {
    if ps != [] {
      BindFromOutside(table[i := Bound(ps[0])], i + 1, ps[1..], k);
    }
  }

  /** The table Args(ps...) leaves: positions 0 .. |ps| - 1 bound to ps in
      order, every other position as before. */
  lemma ArgsBinding(table: map<nat, ArgValue>, ps: seq<KernelArg>)
    ensures forall k: nat :: k < |ps| ==> k in BindFrom(table, 0, ps) && BindFrom(table, 0, ps)[k] == Bound(ps[k])
    ensures forall k: nat :: |ps| <= k ==> (k in BindFrom(table, 0, ps) <==> k in table)
    ensures forall k: nat :: |ps| <= k && k in table ==> BindFrom(table, 0, ps)[k] == table[k]
  {
    forall k: nat | k < |ps|
      ensures k in BindFrom(table, 0, ps) && BindFrom(table, 0, ps)[k] == Bound(ps[k])
    {
      BindFromInside(table, 0, ps, k);
    }
    forall k: nat | |ps| <= k
      ensures (k in BindFrom(table, 0, ps) <==> k in table)
      ensures k in table ==> BindFrom(table, 0, ps)[k] == table[k]
    {
      BindFromOutside(table, 0, ps, k);
    }
  }

  class KernelCL {
    /** _name: the entry point, fixed at construction. */
    const name: string
    /** _kernel: the driver's cl::Kernel, as an opaque handle. */
    const handle: nat
    /** What setArg has bound so far, by position. */
    var args: map<nat, ArgValue>

    /** KernelCL(p, n): the driver creates the kernel for entry point n of
        program p; no argument is bound yet. */
    constructor(program: nat, name: string, handle: nat)
      ensures this.name == name && this.handle == handle
      ensures args == map[]
    {
      this.name, this.handle := name, handle;
      args := map[];
    }

    function Get(): (h: nat)
      ensures h == handle
    {
      handle
    }

    /** Arg(i, t): rebinds position i alone. */
    method Arg(i: nat, t: KernelArg)
      modifies this
      ensures args == old(args)[i := Bound(t)]
      ensures i in args && args[i] == Bound(t)
      ensures forall k :: k != i ==> (k in args <==> k in old(args))
      ensures forall k :: k != i && k in args ==> args[k] == old(args)[k]
    {
      args := args[i := Bound(t)];
    }

    /** Args(a0, ..., an-1): binds from position 0. A variadic call has at
        least one argument. */
    method Args(ps: seq<KernelArg>)
      requires |ps| >= 1
      modifies this
      ensures args == BindFrom(old(args), 0, ps)
    {
      BindArgs(0, ps);
    }

    /** _Args(i, t, rest...): binds t at i, then the rest from i + 1. */
    method BindArgs(i: nat, ps: seq<KernelArg>)
      requires |ps| >= 1
      modifies this
      ensures args == BindFrom(old(args), i, ps)
      decreases |ps|
    {
      Arg(i, ps[0]);
      if |ps| > 1 {
        BindArgs(i + 1, ps[1..]);
      } else {
        assert ps[1..] == [];
      }
    }
  }

  /** The call of test/cl.cpp:202, Args(*buf, 1, 1.0f), with the float 1.0f
      taken as the integer 1, extended by a rebinding the test does not make:
      the buffer's handle goes to 0 and the scalars to 1 and 2, and binding 5
      at position 1 afterwards replaces only that position. */
  method ArgsScenario(buf: BufferCL) returns (table: map<nat, ArgValue>)
    ensures table == map[0 := BufferHandle(buf.handle), 1 := Scalar(5), 2 := Scalar(1)]
  {
    var k := new KernelCL(0, "matrix", 0);
    k.Args([BufferArg(buf), ScalarArg(1), ScalarArg(1)]);
    ArgsBinding(map[], [BufferArg(buf), ScalarArg(1), ScalarArg(1)]);
    k.Arg(1, ScalarArg(5));
    table := k.args;
  }
}
