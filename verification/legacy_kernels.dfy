/**
 * The unchecked kernels of the top-level math_nn.c, which gru.c and GRU_rewrite.c link
 * against: plain loops with no null, dimension or overflow checks.  A non-positive size
 * makes a loop run zero times.  The elementwise loops are the same loops the checked
 * kernels of `Kernels` run after their guard.
 */
module LegacyKernels {
  import opened Tensor
  import opened Activation

  /** The inner loop of `matmul` for one cell: zero, then add u[k] * v[k] for k = 0 .. |u| - 1. */
  method DotCell(u: seq<real>, v: seq<real>) returns (acc: real)
    requires |u| == |v|
    ensures acc == Dot(u, v, |u|)
  {
    acc := 0.0;
    var k := 0;
    while k < |u|
      invariant 0 <= k <= |u|
      invariant acc == Dot(u, v, k)
    {
      acc := acc + u[k] * v[k];
      k := k + 1;
    }
  }

  /** The middle loop of `matmul` for row `i`: the values cells (i, 0) .. (i, p - 1) receive. */
  method MatMulRow(a: seq<real>, b: seq<real>, i: nat, n: nat, p: nat) returns (cells: seq<real>)
    requires i * n + n <= |a| && n * p <= |b|
    ensures cells == RowTimes(a, b, i, n, p)
  {
    var row := Row(a, i, n);
    ghost var full := RowTimes(a, b, i, n, p);
    cells := [];
    var j := 0;
    while j < p
      invariant 0 <= j <= p
      invariant cells == full[..j]
    {
      var acc := DotCell(row, Col(b, j, n, p));
      assert full[..j + 1] == full[..j] + [acc];
      cells := cells + [acc];
      j := j + 1;
    }
    assert full[..p] == full;
  }

  /** The outer loop of `matmul`: rows 0 .. m - 1 in order. */
  method MatMulRows(out: seq<real>, a: seq<real>, b: seq<real>, m: nat, n: nat, p: nat) returns (r: seq<real>)
    requires m * p <= |out| && m * n <= |a| && n * p <= |b|
    ensures r == Product(a, b, m, n, p) + out[m * p ..]
  {
    r := out;
    var i := 0;
    while i < m
      invariant 0 <= i <= m
      invariant i * p <= m * p && i * n <= m * n
      invariant r == Product(a, b, i, n, p) + out[i * p ..]
    {
      MulMono(i + 1, m, n);
      MulMono(i + 1, m, p);
      var cells := MatMulRow(a, b, i, n, p);
      // store the row's cells at offset i * p
      var r' := r[..i * p] + cells + r[i * p + |cells| ..];
      assert r[..i * p] == Product(a, b, i, n, p);
      assert r[i * p + |cells| ..] == out[i * p + |cells| ..];
      assert i * p + p == (i + 1) * p;
      r := r';
      i := i + 1;
    }
  }

  /**
   * `matmul(out, a, b, m, n, p)`: out[m, p] = a[m, n] * b[n, p], every cell computed; a
   * non-positive dimension makes its loop run zero times (n <= 0 zeroes the m * p cells).
   */
  method MatMul(out: seq<real>, a: seq<real>, b: seq<real>, m: int, n: int, p: int) returns (r: seq<real>)
    requires Clamp(m) * Clamp(p) <= |out| && Clamp(m) * Clamp(n) <= |a| && Clamp(n) * Clamp(p) <= |b|
    ensures r == Product(a, b, Clamp(m), Clamp(n), Clamp(p)) + out[Clamp(m) * Clamp(p) ..]
  {
    r := MatMulRows(out, a, b, Clamp(m), Clamp(n), Clamp(p));
  }

  /** `matmul(out, x, W, m, k, p)` followed by `add(out, out, b, m * p)`, unchecked. */
  method AffineInto(out: seq<real>, x: seq<real>, w: seq<real>, b: seq<real>, m: nat, k: nat, p: nat)
    returns (r: seq<real>)
    requires m * p <= |out| && m * k <= |x| && k * p <= |w| && m * p <= |b|
    ensures r == Affine(x, w, b, m, k, p) + out[m * p ..]
  {
    var r1 := MatMul(out, x, w, m, k, p);
    r := Add(r1, r1, b, m * p);
    var prod := Product(x, w, m, k, p);
    assert Sum(r1, b, m * p) == Sum(prod, b, m * p);
    assert r1[m * p ..] == out[m * p ..];
  }

  /** `add(out, a, b, size)`: out[i] = a[i] + b[i] for i < size. */
  method Add(out: seq<real>, a: seq<real>, b: seq<real>, size: int) returns (r: seq<real>)
    requires Clamp(size) <= |out| && Clamp(size) <= |a| && Clamp(size) <= |b|
    ensures r == Sum(a, b, Clamp(size)) + out[Clamp(size) ..]
  {
    r := out;
    var i := 0;
    while i < size
      invariant 0 <= i <= Clamp(size) && |r| == |out|
      invariant forall t :: 0 <= t < i ==> r[t] == a[t] + b[t]
      invariant forall t :: i <= t < |r| ==> r[t] == out[t]
    {
      r := r[i := a[i] + b[i]];
      i := i + 1;
    }
    forall t | 0 <= t < |r|
      ensures r[t] == (Sum(a, b, Clamp(size)) + out[Clamp(size) ..])[t]
    {
    }
    assert r == Sum(a, b, Clamp(size)) + out[Clamp(size) ..];
  }

  /** `mul(out, a, b, size)`: out[i] = a[i] * b[i] for i < size. */
  method Mul(out: seq<real>, a: seq<real>, b: seq<real>, size: int) returns (r: seq<real>)
    requires Clamp(size) <= |out| && Clamp(size) <= |a| && Clamp(size) <= |b|
    ensures r == Hadamard(a, b, Clamp(size)) + out[Clamp(size) ..]
  {
    r := out;
    var i := 0;
    while i < size
      invariant 0 <= i <= Clamp(size) && |r| == |out|
      invariant forall t :: 0 <= t < i ==> r[t] == a[t] * b[t]
      invariant forall t :: i <= t < |r| ==> r[t] == out[t]
    {
      r := r[i := a[i] * b[i]];
      i := i + 1;
    }
    forall t | 0 <= t < |r|
      ensures r[t] == (Hadamard(a, b, Clamp(size)) + out[Clamp(size) ..])[t]
    {
    }
    assert r == Hadamard(a, b, Clamp(size)) + out[Clamp(size) ..];
  }

  /** `sigmoid_act_vec(out, x, size)`: out[i] = sigmoid(x[i]) for i < size. */
  method SigmoidVec(act: Activations, out: seq<real>, x: seq<real>, size: int) returns (r: seq<real>)
    requires Clamp(size) <= |out| && Clamp(size) <= |x|
    ensures r == Sigmoids(act, x, Clamp(size)) + out[Clamp(size) ..]
  {
    r := out;
    var i := 0;
    while i < size
      invariant 0 <= i <= Clamp(size) && |r| == |out|
      invariant forall t :: 0 <= t < i ==> r[t] == Sigmoid(act, x[t])
      invariant forall t :: i <= t < |r| ==> r[t] == out[t]
    {
      r := r[i := Sigmoid(act, x[i])];
      i := i + 1;
    }
    forall t | 0 <= t < |r|
      ensures r[t] == (Sigmoids(act, x, Clamp(size)) + out[Clamp(size) ..])[t]
    {
    }
    assert r == Sigmoids(act, x, Clamp(size)) + out[Clamp(size) ..];
  }

  /** `tanh_act_vec(out, x, size)`: out[i] = tanh(x[i]) for i < size. */
  method TanhVec(act: Activations, out: seq<real>, x: seq<real>, size: int) returns (r: seq<real>)
    requires Clamp(size) <= |out| && Clamp(size) <= |x|
    ensures r == Tanhs(act, x, Clamp(size)) + out[Clamp(size) ..]
  {
    r := out;
    var i := 0;
    while i < size
      invariant 0 <= i <= Clamp(size) && |r| == |out|
      invariant forall t :: 0 <= t < i ==> r[t] == Tanh(act, x[t])
      invariant forall t :: i <= t < |r| ==> r[t] == out[t]
    {
      r := r[i := Tanh(act, x[i])];
      i := i + 1;
    }
    forall t | 0 <= t < |r|
      ensures r[t] == (Tanhs(act, x, Clamp(size)) + out[Clamp(size) ..])[t]
    {
    }
    assert r == Tanhs(act, x, Clamp(size)) + out[Clamp(size) ..];
  }
}
