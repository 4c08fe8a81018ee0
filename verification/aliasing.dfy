/**
 * The elementwise kernels are called in place (`add(g, g, bias, n)`,
 * `sigmoid_act_vec(g, g, n)`). This module runs their loops over one flat
 * memory, each region given by its start offset, and shows when the result is
 * what the value-semantics kernels in `Kernels` compute: when no input region
 * starts strictly before `out` and reaches into it, each input cell is read
 * before the loop overwrites it.
 */
module Aliasing {
  import opened Status
  import opened Tensor

  /** Region `src` of `n` cells is never overwritten before it is read when `out` is not strictly inside it. */
  predicate NoForwardOverlap(out: nat, src: nat, n: int)
  {
    !(src < out < src + n)
  }

  /**
   * The loop of `add` / `mul` on shared memory: cell out+i receives
   * f(cell a+i, cell b+i), reading the memory as it stands at step i.
   */
  method InPlaceBinary(f: (real, real) -> real, mem: seq<real>, out: nat, a: nat, b: nat, size: int)
    returns (st: MathStatus, m: seq<real>)
    requires size <= MAX_DIM ==> out + Clamp(size) <= |mem| && a + Clamp(size) <= |mem| && b + Clamp(size) <= |mem|
    ensures size > MAX_DIM ==> st == InvalidDim && m == mem
    ensures size <= MAX_DIM ==> st == Success && |m| == |mem|
    ensures size <= MAX_DIM ==> forall q :: 0 <= q < |mem| && !(out <= q < out + size) ==> m[q] == mem[q]
    ensures size <= MAX_DIM && NoForwardOverlap(out, a, size) && NoForwardOverlap(out, b, size) ==>
              forall q :: out <= q < out + size ==> m[q] == f(mem[a + (q - out)], mem[b + (q - out)])
  {
    if size > MAX_DIM {
      return InvalidDim, mem;
    }
    m := mem;
    var i := 0;
    ghost var clean := NoForwardOverlap(out, a, size) && NoForwardOverlap(out, b, size);
    while i < size
      invariant 0 <= i <= Clamp(size) && |m| == |mem|
      invariant forall q :: 0 <= q < |mem| && !(out <= q < out + i) ==> m[q] == mem[q]
      invariant clean ==> forall q :: out <= q < out + i ==> m[q] == f(mem[a + (q - out)], mem[b + (q - out)])
    {
      if clean {
        // a + i and b + i are not among the cells out .. out + i - 1 written so far
        assert m[a + i] == mem[a + i];
        assert m[b + i] == mem[b + i];
      }
      m := m[out + i := f(m[a + i], m[b + i])];
      i := i + 1;
    }
    return Success, m;
  }

  /** The loop of `sigmoid_act_vec` / `tanh_act_vec` on shared memory: cell out+i receives g(cell x+i). */
  method InPlaceUnary(g: real -> real, mem: seq<real>, out: nat, x: nat, size: int)
    returns (st: MathStatus, m: seq<real>)
    requires size <= MAX_DIM ==> out + Clamp(size) <= |mem| && x + Clamp(size) <= |mem|
    ensures size > MAX_DIM ==> st == InvalidDim && m == mem
    ensures size <= MAX_DIM ==> st == Success && |m| == |mem|
    ensures size <= MAX_DIM ==> forall q :: 0 <= q < |mem| && !(out <= q < out + size) ==> m[q] == mem[q]
    ensures size <= MAX_DIM && NoForwardOverlap(out, x, size) ==>
              forall q :: out <= q < out + size ==> m[q] == g(mem[x + (q - out)])
  {
    if size > MAX_DIM {
      return InvalidDim, mem;
    }
    m := mem;
    var i := 0;
    ghost var clean := NoForwardOverlap(out, x, size);
    while i < size
      invariant 0 <= i <= Clamp(size) && |m| == |mem|
      invariant forall q :: 0 <= q < |mem| && !(out <= q < out + i) ==> m[q] == mem[q]
      invariant clean ==> forall q :: out <= q < out + i ==> m[q] == g(mem[x + (q - out)])
    {
      if clean {
        assert m[x + i] == mem[x + i];
      }
      m := m[out + i := g(m[x + i])];
      i := i + 1;
    }
    return Success, m;
  }
}
