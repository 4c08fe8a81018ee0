/** `standard_scaler` of lib/util.c: z-score normalisation of a buffer with a given mean and deviation. */
module Scaler {
  import opened Status
  import opened Tensor

  /** One standardised value; multiplying back by `std` and adding `mean` recovers the input. */
  function Standardize(x: real, mean: real, std: real): (z: real)
    requires std != 0.0
    ensures z * std + mean == x
    ensures x == mean <==> z == 0.0
  {
    (x - mean) / std
  }

  /** The inverse transform: a standardised value back on the original scale. */
  function Restore(z: real, mean: real, std: real): (x: real)
    ensures std != 0.0 ==> Standardize(x, mean, std) == z
  {
    z * std + mean
  }

  /** The first `n` inputs, standardised. */
  function StandardizeAll(xs: seq<real>, n: nat, mean: real, std: real): (zs: seq<real>)
    requires n <= |xs| && std != 0.0
    ensures |zs| == n
    ensures forall i :: 0 <= i < n ==> Restore(zs[i], mean, std) == xs[i]
  {
    seq(n, i requires 0 <= i < n => Standardize(xs[i], mean, std))
  }

  /**
   * `standard_scaler(out, in, size, mean, std)`.  The checks run in order: a null pointer,
   * then size <= 0 (InvalidDim), then size > MAX_DIM (ExceedsMaxDim), then std == 0
   * (OverflowRisk, guarding the division); on any of them nothing is written.
   */
  method StandardScaler(out: Ptr, input: Ptr, size: int, mean: real, std: real) returns (st: MathStatus, r: Ptr)
    requires out.Buf? && input.Buf? && 0 < size <= MAX_DIM ==> size <= |out.data| && size <= |input.data|
    ensures st != Success ==> r == out
    ensures out.Null? || input.Null? ==> st == NullPointer
    ensures out.Buf? && input.Buf? && size <= 0 ==> st == InvalidDim
    ensures out.Buf? && input.Buf? && size > MAX_DIM ==> st == ExceedsMaxDim
    ensures out.Buf? && input.Buf? && 0 < size <= MAX_DIM && std == 0.0 ==> st == OverflowRisk
    ensures st == Success <==> out.Buf? && input.Buf? && 0 < size <= MAX_DIM && std != 0.0
    ensures st == Success ==>
              && r.Buf? && |r.data| == |out.data|
              && r.data == StandardizeAll(input.data, size, mean, std) + out.data[size ..]
  {
    if out.Null? || input.Null? {
      return NullPointer, out;
    }
    if size <= 0 {
      return InvalidDim, out;
    }
    if size > MAX_DIM {
      return ExceedsMaxDim, out;
    }
    if std == 0.0 {
      return OverflowRisk, out;
    }
    var o := out.data;
    var i := 0;
    while i < size
      invariant 0 <= i <= size && |o| == |out.data|
      invariant forall t :: 0 <= t < i ==> o[t] == Standardize(input.data[t], mean, std)
      invariant forall t :: i <= t < |o| ==> o[t] == out.data[t]
    {
      o := o[i := (input.data[i] - mean) / std];
      i := i + 1;
    }
    forall t | 0 <= t < |o|
      ensures o[t] == (StandardizeAll(input.data, size, mean, std) + out.data[size ..])[t]
    {
    }
    assert o == StandardizeAll(input.data, size, mean, std) + out.data[size ..];
    return Success, Buf(o);
  }
}
