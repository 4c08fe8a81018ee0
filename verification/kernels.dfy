/**
 * The checked kernels of lib/math_nn.c.  Each takes the prior contents of its output
 * buffer and returns the status together with the buffer's contents afterwards; the
 * caller's buffers are values, so `out` is never aliased with `a` or `b` here (see
 * `Aliasing` for why the in-place calls of the cells compute the same thing).
 */
module Kernels {
  import opened Status
  import opened Tensor
  import opened Activation
  import LegacyKernels

  // ---------------------------------------------------------------------------
  // matmul

  predicate DimsOk(m: int, n: int, p: int) {
    0 < m <= MAX_DIM && 0 < n <= MAX_DIM && 0 < p <= MAX_DIM
  }

  /** Adding the k-th product to the running sum of `Dot(u, v, k)` trips the FLT_MAX guard. */
  predicate StepOverflows(u: seq<real>, v: seq<real>, k: nat)
    requires k < |u| && k < |v|
  {
    u[k] * v[k] > FLT_MAX - Dot(u, v, k)
  }

  /** None of the first `k` accumulation steps trips the guard. */
  predicate SafeDot(u: seq<real>, v: seq<real>, k: nat)
    requires k <= |u| && k <= |v|
  {
    forall t :: 0 <= t < k ==> !StepOverflows(u, v, t)
  }

  /** Cell (i, j) of the product accumulates all `n` products without tripping the guard. */
  predicate SafeCell(a: seq<real>, b: seq<real>, i: int, j: int, n: int, p: int)
    requires 0 <= i && 0 <= n && 0 <= j < p && i * n + n <= |a| && n * p <= |b|
  {
    SafeDot(Row(a, i, n), Col(b, j, n, p), n)
  }

  /** The first `j` cells of row `i` of the product accumulate without tripping the guard. */
  predicate SafeRow(a: seq<real>, b: seq<real>, i: int, n: int, p: int, j: int)
    requires 0 <= i && 0 <= n && 0 <= j <= p && i * n + n <= |a| && n * p <= |b|
  {
    forall j' :: 0 <= j' < j ==> SafeCell(a, b, i, j', n, p)
  }

  /** The first `i` rows of the product accumulate without tripping the guard. */
  predicate SafeRows(a: seq<real>, b: seq<real>, i: int, n: int, p: int)
    requires 0 <= i && 0 <= n && 0 <= p && i * n <= |a| && n * p <= |b|
  {
    forall i' :: 0 <= i' < i ==> (MulMono(i' + 1, i, n); SafeRow(a, b, i', n, p, p))
  }

  /** No step of the whole [m, n] x [n, p] product trips the guard. */
  predicate NoOverflow(a: seq<real>, b: seq<real>, m: int, n: int, p: int)
    requires 0 <= m && 0 <= n && 0 <= p && m * n <= |a| && n * p <= |b|
  {
    SafeRows(a, b, m, n, p)
  }

  /**
   * The state `matmul` leaves when it returns OverflowRisk at step k of cell (i, j): every
   * earlier cell accumulated safely and holds its entry of the product, cell (i, j) holds
   * the partial sum of its first k products, and every later cell keeps its old value.
   */
  predicate OverflowStop(out: seq<real>, a: seq<real>, b: seq<real>, m: int, n: int, p: int,
                         i: int, j: int, k: int, r: seq<real>)
    requires 0 < n && 0 < p && m * p <= |out| && m * n <= |a| && n * p <= |b|
  {
    && 0 <= i < m && 0 <= j < p && 0 <= k < n
    && (MulMono(i + 1, m, n); RowMajorBound(i, j, m, p); MulMono(i, m, n);
        && SafeRows(a, b, i, n, p)
        && SafeRow(a, b, i, n, p, j)
        && SafeDot(Row(a, i, n), Col(b, j, n, p), k)
        && StepOverflows(Row(a, i, n), Col(b, j, n, p), k)
        && r == Product(a, b, i, n, p) + RowTimes(a, b, i, n, p)[..j]
                + [Dot(Row(a, i, n), Col(b, j, n, p), k)] + out[i * p + j + 1 ..])
  }

  /**
   * The innermost loop of `matmul` for one output cell: the cell is zeroed and the products
   * u[k] * v[k] are added in order of k, stopping at the first step where the product exceeds
   * FLT_MAX minus the running sum.  The running sum lives in the output cell in C; here it is
   * kept in `acc` and stored by the caller, which leaves the buffer in the same final state.
   */
  method AccumulateCell(u: seq<real>, v: seq<real>) returns (overflow: bool, k: nat, acc: real)
    requires |u| == |v|
    ensures k <= |u| && acc == Dot(u, v, k) && SafeDot(u, v, k)
    ensures overflow <==> k < |u|
    ensures overflow ==> StepOverflows(u, v, k)
  {
    acc := 0.0;
    k := 0;
    while k < |u|
      invariant 0 <= k <= |u|
      invariant acc == Dot(u, v, k)
      invariant SafeDot(u, v, k)
    {
      var product := u[k] * v[k];
      if product > FLT_MAX - acc {
        return true, k, acc;
      }
      acc := acc + product;
      k := k + 1;
    }
    return false, k, acc;
  }

  /**
   * The middle loop of `matmul` for row `i`: cells (i, 0), (i, 1), ... in order, stopping at
   * the first cell whose accumulation trips the guard, at step `k` of cell `j`.  `cells` are
   * the values the row's cells hold afterwards (the caller stores them at offset i * p):
   * the whole row of the product, or its first `j` entries followed by the partial sum.
   */
  method MultiplyRow(a: seq<real>, b: seq<real>, i: nat, n: nat, p: nat)
    returns (ok: bool, cells: seq<real>, j: nat, k: nat)
    requires i * n + n <= |a| && n * p <= |b|
    ensures ok ==> SafeRow(a, b, i, n, p, p) && cells == RowTimes(a, b, i, n, p)
    ensures !ok ==>
              && j < p && k < n
              && SafeRow(a, b, i, n, p, j)
              && SafeDot(Row(a, i, n), Col(b, j, n, p), k)
              && StepOverflows(Row(a, i, n), Col(b, j, n, p), k)
              && cells == RowTimes(a, b, i, n, p)[..j] + [Dot(Row(a, i, n), Col(b, j, n, p), k)]
  {
    var row := Row(a, i, n);
    ghost var full := RowTimes(a, b, i, n, p);
    cells := [];
    j := 0;
    while j < p
      invariant 0 <= j <= p
      invariant cells == full[..j]
      invariant SafeRow(a, b, i, n, p, j)
    {
      var col := Col(b, j, n, p);
      var overflow, kk, acc := AccumulateCell(row, col);
      if overflow {
        return false, cells + [acc], j, kk;
      }
      assert full[..j + 1] == full[..j] + [acc];
      cells := cells + [acc];
      j := j + 1;
    }
    assert full[..p] == full;
    return true, cells, j, 0;
  }

  /** The outer loop of `matmul`: rows 0, 1, ..., m - 1 in order, stopping at the first overflow. */
  method MultiplyRows(out: seq<real>, a: seq<real>, b: seq<real>, m: nat, n: nat, p: nat)
    returns (ok: bool, r: seq<real>)
    requires 0 < n && 0 < p && m * p <= |out| && m * n <= |a| && n * p <= |b|
    ensures |r| == |out|
    ensures ok <==> NoOverflow(a, b, m, n, p)
    ensures ok ==> r == Product(a, b, m, n, p) + out[m * p ..]
    ensures !ok ==> exists i, j, k :: OverflowStop(out, a, b, m, n, p, i, j, k, r)
  {
    r := out;
    var i := 0;
    while i < m
      invariant 0 <= i <= m
      invariant i * p <= m * p && i * n <= m * n
      invariant r == Product(a, b, i, n, p) + out[i * p ..]
      invariant SafeRows(a, b, i, n, p)
    {
      MulMono(i + 1, m, n);
      MulMono(i + 1, m, p);
      var rowOk, cells, j, k := MultiplyRow(a, b, i, n, p);
      // store the row's cells at offset i * p
      var r' := r[..i * p] + cells + r[i * p + |cells| ..];
      assert r[..i * p] == Product(a, b, i, n, p);
      assert r[i * p + |cells| ..] == out[i * p + |cells| ..];
      if !rowOk {
        RowMajorBound(i, j, m, p);
        assert OverflowStop(out, a, b, m, n, p, i, j, k, r');
        assert !SafeCell(a, b, i, j, n, p);
        assert !SafeRow(a, b, i, n, p, p);
        return false, r';
      }
      assert i * p + p == (i + 1) * p;
      r := r';
      i := i + 1;
    }
    return true, r;
  }

  /**
   * A `matmul` whose operands hold at least the floats its dimensions say returns
   * MATH_SUCCESS: the dimensions pass and no step trips the FLT_MAX guard.
   */
  predicate Multiplies(a: seq<real>, b: seq<real>, m: int, n: int, p: int) {
    DimsOk(m, n, p) && m * n <= |a| && n * p <= |b| && NoOverflow(a, b, m, n, p)
  }

  /** With every product zero the running sum stays 0, and 0 never trips the guard. */
  lemma {:induction false} ZeroTermsSafe(u: seq<real>, v: seq<real>, k: nat)
    requires k <= |u| && k <= |v|
    requires forall t :: 0 <= t < k ==> u[t] * v[t] == 0.0
    ensures Dot(u, v, k) == 0.0 && SafeDot(u, v, k)
    decreases k
  {
    if k > 0 {
      ZeroTermsSafe(u, v, k - 1);
      assert !StepOverflows(u, v, k - 1);
    }
  }

  /** A cell with a zero operand, left or right, never trips the guard. */
  lemma ZeroCellSafe(a: seq<real>, b: seq<real>, i: nat, j: nat, n: nat, p: nat)
    requires i * n + n <= |a| && j < p && n * p <= |b| && (AllZero(a) || AllZero(b))
    ensures SafeCell(a, b, i, j, n, p)
  {
    var u, v := Row(a, i, n), Col(b, j, n, p);
    forall t | 0 <= t < n
      ensures u[t] * v[t] == 0.0
    {
      ColAt(b, j, n, p, t);
    }
    ZeroTermsSafe(u, v, n);
  }

  /** A zero operand, left or right, never trips the guard. */
  lemma ZeroOperandNoOverflow(a: seq<real>, b: seq<real>, m: nat, n: nat, p: nat)
    requires m * n <= |a| && n * p <= |b| && (AllZero(a) || AllZero(b))
    ensures NoOverflow(a, b, m, n, p)
  {
    forall i | 0 <= i < m
      ensures (MulMono(i + 1, m, n); SafeRow(a, b, i, n, p, p))
    {
      MulMono(i + 1, m, n);
      ZeroRowSafe(a, b, i, n, p);
    }
    assert SafeRows(a, b, m, n, p);
  }

  lemma ZeroRowSafe(a: seq<real>, b: seq<real>, i: nat, n: nat, p: nat)
    requires i * n + n <= |a| && n * p <= |b| && (AllZero(a) || AllZero(b))
    ensures SafeRow(a, b, i, n, p, p)
  {
    forall j | 0 <= j < p
      ensures SafeCell(a, b, i, j, n, p)
    {
      ZeroCellSafe(a, b, i, j, n, p);
    }
  }

  /** Row i < m of the left operand lies in its first m * n floats. */
  lemma RowOfPrefix(x: seq<real>, a: seq<real>, m: nat, n: nat, i: nat)
    requires m * n <= |x| && m * n <= |a| && x[..m * n] == a[..m * n] && i < m
    ensures i * n + n <= |x| && i * n + n <= |a| && Row(x, i, n) == Row(a, i, n)
  {
    MulMono(i + 1, m, n);
    assert Row(x, i, n) == x[..m * n][i * n .. i * n + n];
    assert Row(a, i, n) == a[..m * n][i * n .. i * n + n];
  }

  /** The guard sees only the first m * n floats of the left operand. */
  lemma NoOverflowOfPrefix(x: seq<real>, a: seq<real>, b: seq<real>, m: nat, n: nat, p: nat)
    requires m * n <= |x| && m * n <= |a| && x[..m * n] == a[..m * n] && n * p <= |b|
    ensures NoOverflow(x, b, m, n, p) <==> NoOverflow(a, b, m, n, p)
  {
    forall i | 0 <= i < m
      ensures (MulMono(i + 1, m, n); SafeRow(x, b, i, n, p, p) == SafeRow(a, b, i, n, p, p))
    {
      RowOfPrefix(x, a, m, n, i);
      forall j | 0 <= j < p
        ensures SafeCell(x, b, i, j, n, p) == SafeCell(a, b, i, j, n, p)
      {
      }
    }
    if NoOverflow(x, b, m, n, p) {
      assert SafeRows(a, b, m, n, p);
    }
    if NoOverflow(a, b, m, n, p) {
      assert SafeRows(x, b, m, n, p);
    }
  }

  /** `matmul(out, a, b, m, n, p)`: out[m, p] = a[m, n] * b[n, p] with the checks of lib/math_nn.c. */
  method MatMul(out: Ptr, a: Ptr, b: Ptr, m: int, n: int, p: int) returns (st: MathStatus, r: Ptr)
    requires out.Buf? && a.Buf? && b.Buf? && DimsOk(m, n, p) ==>
               m * p <= |out.data| && m * n <= |a.data| && n * p <= |b.data|
    ensures out.Null? || a.Null? || b.Null? ==> st == NullPointer && r == out
    ensures out.Buf? ==> r.Buf? && |r.data| == |out.data|
    ensures out.Buf? && a.Buf? && b.Buf? && !DimsOk(m, n, p) ==> st == InvalidDim && r == out
    ensures st in {Success, NullPointer, InvalidDim, OverflowRisk}
    ensures st == Success <==>
              out.Buf? && a.Buf? && b.Buf? && DimsOk(m, n, p) && NoOverflow(a.data, b.data, m, n, p)
    ensures st == Success ==> r == Buf(Product(a.data, b.data, m, n, p) + out.data[m * p ..])
    ensures out.Buf? && a.Buf? && b.Buf? && DimsOk(m, n, p) && !NoOverflow(a.data, b.data, m, n, p) ==>
              st == OverflowRisk
    ensures st == OverflowRisk ==>
              && out.Buf? && a.Buf? && b.Buf? && DimsOk(m, n, p) && r.Buf?
              && exists i, j, k :: OverflowStop(out.data, a.data, b.data, m, n, p, i, j, k, r.data)
  {
    if out.Null? || a.Null? || b.Null? {
      return NullPointer, out;
    }
    if m <= 0 || n <= 0 || p <= 0 || m > MAX_DIM || n > MAX_DIM || p > MAX_DIM {
      return InvalidDim, out;
    }
    var ok, o := MultiplyRows(out.data, a.data, b.data, m, n, p);
    if ok {
      return Success, Buf(o);
    }
    return OverflowRisk, Buf(o);
  }

  // ---------------------------------------------------------------------------
  // matmul on operands that may hold fewer floats than its dimensions say.  Step k of cell
  // (i, j) reads a[i * n + k] and b[k * p + j]; the scan visits the steps in row-major order
  // of the cells and in order of k within a cell, and stops at the first step whose product
  // trips the FLT_MAX guard.  It reads past the end of an operand exactly when it reaches a
  // step with an out-of-range read before any step trips the guard.

  /** Both reads of step k of cell (i, j) fall inside the operands. */
  predicate StepInRange(a: seq<real>, b: seq<real>, n: nat, p: nat, i: nat, j: nat, k: nat) {
    i * n + k < |a| && k * p + j < |b|
  }

  /** The first k steps of cell (i, j) read in range. */
  ghost predicate CellInRange(a: seq<real>, b: seq<real>, n: nat, p: nat, i: nat, j: nat, k: nat) {
    forall t: nat :: t < k ==> StepInRange(a, b, n, p, i, j, t)
  }

  /** A step that reads in range makes every earlier step of its cell read in range. */
  lemma EarlierStepsInRange(a: seq<real>, b: seq<real>, n: nat, p: nat, i: nat, j: nat, k: nat)
    requires StepInRange(a, b, n, p, i, j, k)
    ensures CellInRange(a, b, n, p, i, j, k)
  {
    forall t: nat | t < k
      ensures StepInRange(a, b, n, p, i, j, t)
    {
      MulMono(t, k, p);
    }
  }

  /** The running sum cell (i, j) holds after its first k steps. */
  function CellSum(a: seq<real>, b: seq<real>, n: nat, p: nat, i: nat, j: nat, k: nat): real
    requires CellInRange(a, b, n, p, i, j, k)
    decreases k
  {
    if k == 0 then 0.0
    else
      assert StepInRange(a, b, n, p, i, j, k - 1);
      CellSum(a, b, n, p, i, j, k - 1) + a[i * n + k - 1] * b[(k - 1) * p + j]
  }

  /** Step k of cell (i, j) reads in range and its product trips the guard. */
  predicate StepTrips(a: seq<real>, b: seq<real>, n: nat, p: nat, i: nat, j: nat, k: nat) {
    && StepInRange(a, b, n, p, i, j, k)
    && (EarlierStepsInRange(a, b, n, p, i, j, k);
        a[i * n + k] * b[k * p + j] > FLT_MAX - CellSum(a, b, n, p, i, j, k))
  }

  /** Step k of cell (i, j) reads in range and its product passes the guard. */
  predicate StepPasses(a: seq<real>, b: seq<real>, n: nat, p: nat, i: nat, j: nat, k: nat) {
    StepInRange(a, b, n, p, i, j, k) && !StepTrips(a, b, n, p, i, j, k)
  }

  /** Step (i', j', k') comes before step (i, j, k) in the scan. */
  predicate ScanBefore(i': nat, j': nat, k': nat, i: nat, j: nat, k: nat) {
    i' < i || (i' == i && (j' < j || (j' == j && k' < k)))
  }

  /** Every step before step k of cell (i, j) reads in range and passes, so the scan gets there. */
  ghost predicate Reaches(a: seq<real>, b: seq<real>, n: nat, p: nat, i: nat, j: nat, k: nat) {
    forall i': nat, j': nat, k': nat :: j' < p && k' < n && ScanBefore(i', j', k', i, j, k) ==>
      StepPasses(a, b, n, p, i', j', k')
  }

  /** The scan of the [m, n] x [n, p] product reaches a read past the end of `a` or `b`. */
  ghost predicate ReadsPast(a: seq<real>, b: seq<real>, m: nat, n: nat, p: nat) {
    exists i: nat, j: nat, k: nat :: i < m && j < p && k < n &&
      !StepInRange(a, b, n, p, i, j, k) && Reaches(a, b, n, p, i, j, k)
  }

  /** Some step of the product reads in range and trips the guard. */
  ghost predicate SomeStepTrips(a: seq<real>, b: seq<real>, m: nat, n: nat, p: nat) {
    exists i: nat, j: nat, k: nat :: i < m && j < p && k < n && StepTrips(a, b, n, p, i, j, k)
  }

  /** Every step of the product reads in range and passes. */
  ghost predicate EveryStepPasses(a: seq<real>, b: seq<real>, m: nat, n: nat, p: nat) {
    forall i: nat, j: nat, k: nat :: i < m && j < p && k < n ==> StepPasses(a, b, n, p, i, j, k)
  }

  /** The steps before step k of cell (i, j), cell by cell. */
  ghost predicate RowsPass(a: seq<real>, b: seq<real>, n: nat, p: nat, i: nat) {
    forall i': nat, j': nat, k': nat :: i' < i && j' < p && k' < n ==> StepPasses(a, b, n, p, i', j', k')
  }

  ghost predicate CellsPass(a: seq<real>, b: seq<real>, n: nat, p: nat, i: nat, j: nat) {
    forall j': nat, k': nat :: j' < j && k' < n ==> StepPasses(a, b, n, p, i, j', k')
  }

  ghost predicate StepsPass(a: seq<real>, b: seq<real>, n: nat, p: nat, i: nat, j: nat, k: nat) {
    forall k': nat :: k' < k ==> StepPasses(a, b, n, p, i, j, k')
  }

  /** The scan reaches step k of cell (i, j) once every earlier row, cell and step has passed. */
  lemma ReachesAfter(a: seq<real>, b: seq<real>, n: nat, p: nat, i: nat, j: nat, k: nat)
    requires RowsPass(a, b, n, p, i) && CellsPass(a, b, n, p, i, j) && StepsPass(a, b, n, p, i, j, k)
    ensures Reaches(a, b, n, p, i, j, k)
  {
  }

  /** A step the scan reaches and that trips the guard stops it before any read past the end. */
  lemma TripStopsScan(a: seq<real>, b: seq<real>, m: nat, n: nat, p: nat, i: nat, j: nat, k: nat)
    requires i < m && j < p && k < n
    requires Reaches(a, b, n, p, i, j, k) && StepTrips(a, b, n, p, i, j, k)
    ensures !ReadsPast(a, b, m, n, p)
  {
    forall i2: nat, j2: nat, k2: nat | i2 < m && j2 < p && k2 < n
      ensures Reaches(a, b, n, p, i2, j2, k2) ==> StepInRange(a, b, n, p, i2, j2, k2)
    {
      if ScanBefore(i, j, k, i2, j2, k2) {
        assert Reaches(a, b, n, p, i2, j2, k2) ==> StepPasses(a, b, n, p, i, j, k);
      } else if ScanBefore(i2, j2, k2, i, j, k) {
        assert StepPasses(a, b, n, p, i2, j2, k2);
      }
    }
  }

  /** A scan whose every step passes never reads past the end. */
  lemma PassingScanStaysInside(a: seq<real>, b: seq<real>, m: nat, n: nat, p: nat)
    requires EveryStepPasses(a, b, m, n, p)
    ensures !ReadsPast(a, b, m, n, p)
  {
    forall i: nat, j: nat, k: nat | i < m && j < p && k < n
      ensures StepInRange(a, b, n, p, i, j, k)
    {
      assert StepPasses(a, b, n, p, i, j, k);
    }
  }

  /** With operands holding m * n and n * p floats, every read of the scan is in range. */
  lemma SizedInRange(a: seq<real>, b: seq<real>, m: nat, n: nat, p: nat, i: nat, j: nat, k: nat)
    requires m * n <= |a| && n * p <= |b| && i < m && j < p && k < n
    ensures StepInRange(a, b, n, p, i, j, k)
  {
    MulMono(i + 1, m, n);
    RowMajorBound(k, j, n, p);
  }

  /** Operands of the sizes the dimensions say are never read past. */
  lemma SizedNeverPast(a: seq<real>, b: seq<real>, m: nat, n: nat, p: nat)
    requires m * n <= |a| && n * p <= |b|
    ensures !ReadsPast(a, b, m, n, p)
  {
    forall i: nat, j: nat, k: nat | i < m && j < p && k < n
      ensures StepInRange(a, b, n, p, i, j, k)
    {
      SizedInRange(a, b, m, n, p, i, j, k);
    }
  }

  /** A shorter operand leaves the last step of the first row or of the last row out of range. */
  lemma ShortHasStepOutside(a: seq<real>, b: seq<real>, m: nat, n: nat, p: nat)
    requires 0 < m && 0 < n && 0 < p && !(m * n <= |a| && n * p <= |b|)
    ensures !EveryStepPasses(a, b, m, n, p)
  {
    if m * n > |a| {
      assert (m - 1) * n + (n - 1) == m * n - 1;
      assert !StepPasses(a, b, n, p, m - 1, 0, n - 1);
    } else {
      assert (n - 1) * p + (p - 1) == n * p - 1;
      assert !StepPasses(a, b, n, p, 0, p - 1, n - 1);
    }
  }

  /** A zero cell sum: with `a` zero wherever it is read, every product of the cell is zero. */
  lemma {:induction false} CellSumOfZero(a: seq<real>, b: seq<real>, n: nat, p: nat, i: nat, j: nat, k: nat)
    requires AllZero(a) && CellInRange(a, b, n, p, i, j, k)
    ensures CellSum(a, b, n, p, i, j, k) == 0.0
    decreases k
  {
    if k > 0 {
      assert StepInRange(a, b, n, p, i, j, k - 1);
      CellSumOfZero(a, b, n, p, i, j, k - 1);
      assert a[i * n + k - 1] == 0.0;
    }
  }

  /** A zero left operand never trips the guard: every product is 0, and 0 <= FLT_MAX. */
  lemma ZeroNeverTrips(a: seq<real>, b: seq<real>, m: nat, n: nat, p: nat)
    requires AllZero(a)
    ensures !SomeStepTrips(a, b, m, n, p)
  {
    forall i: nat, j: nat, k: nat | i < m && j < p && k < n && StepInRange(a, b, n, p, i, j, k)
      ensures !StepTrips(a, b, n, p, i, j, k)
    {
      EarlierStepsInRange(a, b, n, p, i, j, k);
      CellSumOfZero(a, b, n, p, i, j, k);
      assert a[i * n + k] == 0.0;
    }
  }

  /**
   * A short operand need not be read past: with a = [1e20, 0, 0, 0] and b = [1e20, 0, 0], the
   * 1 x 2 by 2 x 2 product would read b[3] in its last step, but its first product 1e40
   * already trips the guard.
   */
  lemma OverflowBeforeShortRead()
    ensures var a, b := [1.0e20, 0.0, 0.0, 0.0], [1.0e20, 0.0, 0.0];
            && !StepInRange(a, b, 2, 2, 0, 1, 1)
            && SomeStepTrips(a, b, 1, 2, 2)
            && !ReadsPast(a, b, 1, 2, 2)
  {
    var a, b := [1.0e20, 0.0, 0.0, 0.0], [1.0e20, 0.0, 0.0];
    assert CellSum(a, b, 2, 2, 0, 0, 0) == 0.0;
    assert StepTrips(a, b, 2, 2, 0, 0, 0);
    TripStopsScan(a, b, 1, 2, 2, 0, 0, 0);
  }

  /** How a scan of one cell, one row or the whole product ends. */
  datatype ScanEnd = Finished | Tripped | ReadPast

  /** A passing step k extends the passed prefix of cell (i, j) and adds its product to the sum. */
  lemma PassExtends(a: seq<real>, b: seq<real>, n: nat, p: nat, i: nat, j: nat, k: nat)
    requires StepsPass(a, b, n, p, i, j, k) && CellInRange(a, b, n, p, i, j, k)
    requires StepInRange(a, b, n, p, i, j, k)
    requires a[i * n + k] * b[k * p + j] <= FLT_MAX - CellSum(a, b, n, p, i, j, k)
    ensures StepsPass(a, b, n, p, i, j, k + 1) && CellInRange(a, b, n, p, i, j, k + 1)
    ensures CellSum(a, b, n, p, i, j, k + 1) == CellSum(a, b, n, p, i, j, k) + a[i * n + k] * b[k * p + j]
  {
    assert StepPasses(a, b, n, p, i, j, k);
  }

  /**
   * The innermost loop of `matmul` on cell (i, j), reading `a` and `b` directly: it stops at
   * the first step that reads out of range or trips the guard.  `acc` is the cell's running
   * sum, which the caller stores.
   */
  method ScanCell(a: seq<real>, b: seq<real>, n: nat, p: nat, i: nat, j: nat)
    returns (e: ScanEnd, k: nat, acc: real)
    ensures k <= n && StepsPass(a, b, n, p, i, j, k)
    ensures e == Finished <==> k == n
    ensures e == Tripped ==> k < n && StepTrips(a, b, n, p, i, j, k)
    ensures e == ReadPast ==> k < n && !StepInRange(a, b, n, p, i, j, k)
    ensures e != ReadPast ==> CellInRange(a, b, n, p, i, j, k) && acc == CellSum(a, b, n, p, i, j, k)
  {
    acc := 0.0;
    k := 0;
    while k < n
      invariant k <= n && StepsPass(a, b, n, p, i, j, k)
      invariant CellInRange(a, b, n, p, i, j, k) && acc == CellSum(a, b, n, p, i, j, k)
    {
      if !(i * n + k < |a| && k * p + j < |b|) {
        return ReadPast, k, acc;
      }
      var product := a[i * n + k] * b[k * p + j];
      if product > FLT_MAX - acc {
        return Tripped, k, acc;
      }
      PassExtends(a, b, n, p, i, j, k);
      acc := acc + product;
      k := k + 1;
    }
    return Finished, k, acc;
  }

  /** The middle loop on row i: cells (i, 0), (i, 1), ... until one does not finish. */
  method ScanRow(out: seq<real>, a: seq<real>, b: seq<real>, m: nat, n: nat, p: nat, i: nat)
    returns (e: ScanEnd, r: seq<real>)
    requires i < m && m * p <= |out|
    requires RowsPass(a, b, n, p, i)
    ensures |r| == |out|
    ensures e == Finished ==> RowsPass(a, b, n, p, i + 1)
    ensures e == Tripped ==> !ReadsPast(a, b, m, n, p) && SomeStepTrips(a, b, m, n, p)
    ensures e == ReadPast ==> ReadsPast(a, b, m, n, p)
  {
    r := out;
    for j := 0 to p
      invariant |r| == |out|
      invariant CellsPass(a, b, n, p, i, j)
    {
      var cell, k, acc := ScanCell(a, b, n, p, i, j);
      if cell == ReadPast {
        ReachesAfter(a, b, n, p, i, j, k);
        return ReadPast, r;
      }
      RowMajorBound(i, j, m, p);
      r := r[i * p + j := acc];
      if cell == Tripped {
        ReachesAfter(a, b, n, p, i, j, k);
        TripStopsScan(a, b, m, n, p, i, j, k);
        return Tripped, r;
      }
    }
    e := Finished;
  }

  /** The outer loop: rows 0, 1, ..., m - 1 until one does not finish. */
  method ScanRows(out: seq<real>, a: seq<real>, b: seq<real>, m: nat, n: nat, p: nat)
    returns (e: ScanEnd, r: seq<real>)
    requires m * p <= |out|
    ensures |r| == |out|
    ensures e == Finished ==> EveryStepPasses(a, b, m, n, p)
    ensures e == Tripped ==> SomeStepTrips(a, b, m, n, p)
    ensures e == ReadPast <==> ReadsPast(a, b, m, n, p)
  {
    r := out;
    for i := 0 to m
      invariant |r| == |out|
      invariant RowsPass(a, b, n, p, i)
    {
      var row;
      row, r := ScanRow(r, a, b, m, n, p, i);
      if row != Finished {
        return row, r;
      }
    }
    PassingScanStaysInside(a, b, m, n, p);
    e := Finished;
  }

  /**
   * `matmul(out, a, b, m, n, p)` where `a` and `b` may hold fewer floats than m * n and
   * n * p: `None` when the scan reads past the end of one of them (the C behaviour is then
   * undefined).  With operands of the full sizes this is `MatMul`; with a shorter operand
   * the call either reads past its end or returns OverflowRisk at a step that trips the
   * guard before the scan gets there.
   */
  method MatMulUnsized(out: seq<real>, a: seq<real>, b: seq<real>, m: int, n: int, p: int)
    returns (st: MathStatus, r: Option<seq<real>>)
    requires DimsOk(m, n, p) ==> m * p <= |out|
    ensures r.Some? ==> |r.value| == |out|
    ensures !DimsOk(m, n, p) ==> st == InvalidDim && r == Some(out)
    ensures r.None? <==> DimsOk(m, n, p) && ReadsPast(a, b, m, n, p)
    ensures st == Success <==> Multiplies(a, b, m, n, p)
    ensures DimsOk(m, n, p) && m * n <= |a| && n * p <= |b| && !NoOverflow(a, b, m, n, p) ==>
              r.Some? && st == OverflowRisk
    ensures st == Success <==>
              r.Some? && DimsOk(m, n, p) && m * n <= |a| && n * p <= |b| && NoOverflow(a, b, m, n, p)
    ensures st == Success ==> r.value == Product(a, b, m, n, p) + out[m * p ..]
    ensures r.Some? && DimsOk(m, n, p) && !(m * n <= |a| && n * p <= |b|) ==>
              st == OverflowRisk && SomeStepTrips(a, b, m, n, p)
  {
    if !DimsOk(m, n, p) {
      return InvalidDim, Some(out);
    }
    if m * n <= |a| && n * p <= |b| {
      SizedNeverPast(a, b, m, n, p);
      var st0, r0 := MatMul(Buf(out), Buf(a), Buf(b), m, n, p);
      return st0, Some(r0.data);
    }
    var e, o := ScanRows(out, a, b, m, n, p);
    if e == ReadPast {
      return InvalidDim, None;
    }
    ShortHasStepOutside(a, b, m, n, p);
    return OverflowRisk, Some(o);
  }

  // ---------------------------------------------------------------------------
  // Elementwise kernels: the loops of math_nn.c behind a single guard, size > MAX_DIM;
  // a non-positive size writes nothing and reports success.

  /** `add(out, a, b, size)`: out[i] = a[i] + b[i] for i < size. */
  method Add(out: seq<real>, a: seq<real>, b: seq<real>, size: int) returns (st: MathStatus, r: seq<real>)
    requires size <= MAX_DIM ==> Clamp(size) <= |out| && Clamp(size) <= |a| && Clamp(size) <= |b|
    ensures size > MAX_DIM ==> st == InvalidDim && r == out
    ensures size <= MAX_DIM ==> st == Success && r == Sum(a, b, Clamp(size)) + out[Clamp(size) ..]
  {
    if size > MAX_DIM {
      return InvalidDim, out;
    }
    r := LegacyKernels.Add(out, a, b, size);
    st := Success;
  }

  /** `mul(out, a, b, size)`: out[i] = a[i] * b[i] for i < size. */
  method Mul(out: seq<real>, a: seq<real>, b: seq<real>, size: int) returns (st: MathStatus, r: seq<real>)
    requires size <= MAX_DIM ==> Clamp(size) <= |out| && Clamp(size) <= |a| && Clamp(size) <= |b|
    ensures size > MAX_DIM ==> st == InvalidDim && r == out
    ensures size <= MAX_DIM ==> st == Success && r == Hadamard(a, b, Clamp(size)) + out[Clamp(size) ..]
  {
    if size > MAX_DIM {
      return InvalidDim, out;
    }
    r := LegacyKernels.Mul(out, a, b, size);
    st := Success;
  }

  /** `sigmoid_act_vec(out, x, size)`: out[i] = sigmoid(x[i]) for i < size. */
  method SigmoidVec(act: Activations, out: seq<real>, x: seq<real>, size: int) returns (st: MathStatus, r: seq<real>)
    requires size <= MAX_DIM ==> Clamp(size) <= |out| && Clamp(size) <= |x|
    ensures size > MAX_DIM ==> st == InvalidDim && r == out
    ensures size <= MAX_DIM ==> st == Success && r == Sigmoids(act, x, Clamp(size)) + out[Clamp(size) ..]
  {
    if size > MAX_DIM {
      return InvalidDim, out;
    }
    r := LegacyKernels.SigmoidVec(act, out, x, size);
    st := Success;
  }

  /** `tanh_act_vec(out, x, size)`: out[i] = tanh(x[i]) for i < size. */
  method TanhVec(act: Activations, out: seq<real>, x: seq<real>, size: int) returns (st: MathStatus, r: seq<real>)
    requires size <= MAX_DIM ==> Clamp(size) <= |out| && Clamp(size) <= |x|
    ensures size > MAX_DIM ==> st == InvalidDim && r == out
    ensures size <= MAX_DIM ==> st == Success && r == Tanhs(act, x, Clamp(size)) + out[Clamp(size) ..]
  {
    if size > MAX_DIM {
      return InvalidDim, out;
    }
    r := LegacyKernels.TanhVec(act, out, x, size);
    st := Success;
  }

  // ---------------------------------------------------------------------------
  // The pattern every layer repeats: matmul into a buffer, then add a bias in place.

  /** `matmul(out, x, W, m, k, p)` followed by `add(out, out, b, m * p)`. */
  method AffineInto(out: seq<real>, x: seq<real>, w: seq<real>, b: seq<real>, m: nat, k: nat, p: nat)
    returns (st: MathStatus, r: seq<real>)
    requires DimsOk(m, k, p) ==> m * k <= |x| && k * p <= |w|
    requires DimsOk(m, k, p) || m * p <= MAX_DIM ==> m * p <= |out|
    requires m * p <= MAX_DIM ==> m * p <= |b|
    ensures |r| == |out|
    ensures st == Success <==> DimsOk(m, k, p) && NoOverflow(x, w, m, k, p) && m * p <= MAX_DIM
    ensures st == Success ==> r == Affine(x, w, b, m, k, p) + out[m * p ..]
  {
    var st1, r1 := MatMul(Buf(out), Buf(x), Buf(w), m, k, p);
    var st2, r2 := Add(r1.data, r1.data, b, m * p);
    st, r := First(st1, st2), r2;
    if st == Success {
      var prod := Product(x, w, m, k, p);
      assert r1.data == prod + out[m * p ..];
      assert Sum(r1.data, b, m * p) == Sum(prod, b, m * p);
      assert r1.data[m * p ..] == out[m * p ..];
    }
  }

  // ---------------------------------------------------------------------------
  // What the unit test drives

  /** The unit test's matrices, as rows and columns. */
  lemma TestRowsAndColumns()
    ensures Row([1.0, 2.0, 3.0, 4.0, 5.0, 6.0], 0, 3) == [1.0, 2.0, 3.0]
    ensures Row([1.0, 2.0, 3.0, 4.0, 5.0, 6.0], 1, 3) == [4.0, 5.0, 6.0]
    ensures Col([7.0, 8.0, 9.0, 10.0, 11.0, 12.0], 0, 3, 2) == [7.0, 9.0, 11.0]
    ensures Col([7.0, 8.0, 9.0, 10.0, 11.0, 12.0], 1, 3, 2) == [8.0, 10.0, 12.0]
  {
    var b := [7.0, 8.0, 9.0, 10.0, 11.0, 12.0];
    ColAt(b, 0, 3, 2, 0); ColAt(b, 0, 3, 2, 1); ColAt(b, 0, 3, 2, 2);
    ColAt(b, 1, 3, 2, 0); ColAt(b, 1, 3, 2, 1); ColAt(b, 1, 3, 2, 2);
  }

  /** A three-term dot product whose terms and prefixes are small does not overflow. */
  lemma SmallDot(u: seq<real>, v: seq<real>, d: real)
    requires |u| == 3 && |v| == 3
    requires Dot(u, v, 3) == d
    requires forall t :: 0 <= t < 3 ==> 0.0 <= u[t] <= 12.0 && 0.0 <= v[t] <= 12.0 && u[t] * v[t] <= 144.0
    ensures SafeDot(u, v, 3)
  {
    assert Dot(u, v, 0) == 0.0;
    assert Dot(u, v, 1) <= 144.0;
    assert Dot(u, v, 2) <= 288.0;
  }

  /** The unit test's four dot products. */
  lemma TestDots()
    ensures Dot([1.0, 2.0, 3.0], [7.0, 9.0, 11.0], 3) == 58.0 && SafeDot([1.0, 2.0, 3.0], [7.0, 9.0, 11.0], 3)
    ensures Dot([1.0, 2.0, 3.0], [8.0, 10.0, 12.0], 3) == 64.0 && SafeDot([1.0, 2.0, 3.0], [8.0, 10.0, 12.0], 3)
    ensures Dot([4.0, 5.0, 6.0], [7.0, 9.0, 11.0], 3) == 139.0 && SafeDot([4.0, 5.0, 6.0], [7.0, 9.0, 11.0], 3)
    ensures Dot([4.0, 5.0, 6.0], [8.0, 10.0, 12.0], 3) == 154.0 && SafeDot([4.0, 5.0, 6.0], [8.0, 10.0, 12.0], 3)
  {
    SmallDot([1.0, 2.0, 3.0], [7.0, 9.0, 11.0], 58.0);
    SmallDot([1.0, 2.0, 3.0], [8.0, 10.0, 12.0], 64.0);
    SmallDot([4.0, 5.0, 6.0], [7.0, 9.0, 11.0], 139.0);
    SmallDot([4.0, 5.0, 6.0], [8.0, 10.0, 12.0], 154.0);
  }

  /** The product test_matmul drives: [[1,2,3],[4,5,6]] x [[7,8],[9,10],[11,12]] = [[58,64],[139,154]], with no overflow. */
  lemma MatMulTestVector()
    ensures NoOverflow([1.0, 2.0, 3.0, 4.0, 5.0, 6.0], [7.0, 8.0, 9.0, 10.0, 11.0, 12.0], 2, 3, 2)
    ensures Product([1.0, 2.0, 3.0, 4.0, 5.0, 6.0], [7.0, 8.0, 9.0, 10.0, 11.0, 12.0], 2, 3, 2)
            == [58.0, 64.0, 139.0, 154.0]
  {
    var a := [1.0, 2.0, 3.0, 4.0, 5.0, 6.0];
    var b := [7.0, 8.0, 9.0, 10.0, 11.0, 12.0];
    TestRowsAndColumns();
    TestDots();
    assert SafeCell(a, b, 0, 0, 3, 2) && SafeCell(a, b, 0, 1, 3, 2);
    assert SafeCell(a, b, 1, 0, 3, 2) && SafeCell(a, b, 1, 1, 3, 2);
    assert SafeRow(a, b, 0, 3, 2, 2) by {
      forall j | 0 <= j < 2 ensures SafeCell(a, b, 0, j, 3, 2) {
        assert j == 0 || j == 1;
      }
    }
    assert SafeRow(a, b, 1, 3, 2, 2) by {
      forall j | 0 <= j < 2 ensures SafeCell(a, b, 1, j, 3, 2) {
        assert j == 0 || j == 1;
      }
    }
    assert SafeRows(a, b, 2, 3, 2) by {
      forall i | 0 <= i < 2 ensures SafeRow(a, b, i, 3, 2, 2) {
        assert i == 0 || i == 1;
      }
    }
    var p0, p1 := RowTimes(a, b, 0, 3, 2), RowTimes(a, b, 1, 3, 2);
    assert p0 == [58.0, 64.0];
    assert p1 == [139.0, 154.0];
    assert Product(a, b, 1, 3, 2) == [] + p0;
  }
}
