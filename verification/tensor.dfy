/**
 * Row-major tensors as sequences of reals, and the pure vector and matrix maps the
 * kernels compute.  A [rows, cols] matrix `a` keeps entry (i, k) at `a[i * cols + k]`;
 * shapes are never stored, every caller passes them explicitly.
 */
module Tensor {

  /** A buffer argument that may be NULL. */
  datatype Ptr = Null | Buf(data: seq<real>)

  /** A freshly `calloc`ed buffer of `n` floats. */
  function Zeros(n: nat): (r: seq<real>)
    ensures |r| == n
    ensures forall i :: 0 <= i < n ==> r[i] == 0.0
  {
    seq(n, _ => 0.0)
  }

  predicate AllZero(s: seq<real>) {
    forall i :: 0 <= i < |s| ==> s[i] == 0.0
  }

  /** A loop `for (i = 0; i < x; i++)` runs `Clamp(x)` times. */
  function Clamp(x: int): nat {
    if x < 0 then 0 else x
  }

  // ---------------------------------------------------------------------------
  // Row-major index arithmetic

  lemma MulMono(x: int, y: int, c: int)
    requires x <= y && 0 <= c
    ensures x * c <= y * c
  {
  }

  /** Cell (i, j) of an [m, p] matrix lies inside its m*p entries. */
  lemma RowMajorBound(i: int, j: int, m: int, p: int)
    requires 0 <= i < m && 0 <= j < p
    ensures 0 <= i * p + j < m * p
    ensures i * p + p <= m * p
  {
    MulMono(i + 1, m, p);
  }

  // ---------------------------------------------------------------------------
  // Matrix product

  /** Row `i` of a row-major matrix with `n` columns. */
  function Row(a: seq<real>, i: int, n: int): (r: seq<real>)
    requires 0 <= i && 0 <= n && i * n + n <= |a|
    ensures |r| == n
    ensures forall k :: 0 <= k < n ==> r[k] == a[i * n + k]
  {
    a[i * n .. i * n + n]
  }

  /** Column `j` of a row-major [n, p] matrix. */
  function Col(b: seq<real>, j: int, n: int, p: int): (r: seq<real>)
    requires 0 <= j < p && 0 <= n && n * p <= |b|
    ensures |r| == n
  {
    seq(n, k requires 0 <= k < n => RowMajorBound(k, j, n, p); b[k * p + j])
  }

  lemma ColAt(b: seq<real>, j: int, n: int, p: int, k: int)
    requires 0 <= j < p && 0 <= n && n * p <= |b| && 0 <= k < n
    ensures 0 <= k * p + j < |b|
    ensures Col(b, j, n, p)[k] == b[k * p + j]
  {
    RowMajorBound(k, j, n, p);
  }

  /** The sum of the first `k` products u[t] * v[t], accumulated from t = 0 upwards. */
  function Dot(u: seq<real>, v: seq<real>, k: nat): real
    requires k <= |u| && k <= |v|
  {
    if k == 0 then 0.0 else Dot(u, v, k - 1) + u[k - 1] * v[k - 1]
  }

  /** Row `i` of the product of an [_, n] matrix `a` and an [n, p] matrix `b`. */
  function RowTimes(a: seq<real>, b: seq<real>, i: int, n: int, p: int): (r: seq<real>)
    requires 0 <= i && 0 <= n && 0 <= p && i * n + n <= |a| && n * p <= |b|
    ensures |r| == p
  {
    seq(p, j requires 0 <= j < p => Dot(Row(a, i, n), Col(b, j, n, p), n))
  }

  /** The [m, p] product of row-major `a` [m, n] and `b` [n, p], rows in order. */
  function Product(a: seq<real>, b: seq<real>, m: int, n: int, p: int): (r: seq<real>)
    requires 0 <= m && 0 <= n && 0 <= p && m * n <= |a| && n * p <= |b|
    ensures |r| == m * p
    decreases m
  {
    if m == 0 then []
    else
      MulMono(m - 1, m, n);
      Product(a, b, m - 1, n, p) + RowTimes(a, b, m - 1, n, p)
  }

  /** Entry (i, j) of the product is the dot product of row i of `a` and column j of `b`. */
  lemma {:induction false} ProductAt(a: seq<real>, b: seq<real>, m: int, n: int, p: int, i: int, j: int)
    requires 0 <= n && m * n <= |a| && n * p <= |b|
    requires 0 <= i < m && 0 <= j < p
    ensures i * n + n <= |a| && 0 <= i * p + j < m * p
    ensures Product(a, b, m, n, p)[i * p + j] == Dot(Row(a, i, n), Col(b, j, n, p), n)
    decreases m
  {
    RowMajorBound(i, j, m, p);
    MulMono(i + 1, m, n);
    MulMono(m - 1, m, n);
    if i < m - 1 {
      RowMajorBound(i, j, m - 1, p);
      ProductAt(a, b, m - 1, n, p, i, j);
    } else {
      assert i * p + j == (m - 1) * p + j;
    }
  }

  /** Multiplying by an all-zero right operand gives an all-zero product. */
  lemma {:induction false} ProductOfZero(a: seq<real>, b: seq<real>, m: int, n: int, p: int)
    requires 0 <= m && 0 <= n && 0 <= p && m * n <= |a| && n * p <= |b|
    requires AllZero(b)
    ensures AllZero(Product(a, b, m, n, p))
    decreases m
  {
    if m > 0 {
      MulMono(m - 1, m, n);
      ProductOfZero(a, b, m - 1, n, p);
      var q := Product(a, b, m - 1, n, p);
      var r := RowTimes(a, b, m - 1, n, p);
      forall j | 0 <= j < p
        ensures r[j] == 0.0
      {
        var v := Col(b, j, n, p);
        forall k | 0 <= k < n
          ensures v[k] == 0.0
        {
          ColAt(b, j, n, p, k);
        }
        DotOfZero(Row(a, m - 1, n), v, n);
      }
      var s := q + r;
      assert Product(a, b, m, n, p) == s;
      forall c | 0 <= c < |s|
        ensures s[c] == 0.0
      {
        if c >= |q| {
          assert s[c] == r[c - |q|];
        }
      }
    }
  }

  lemma {:induction false} DotOfZero(u: seq<real>, v: seq<real>, k: nat)
    requires k <= |u| && k <= |v|
    requires AllZero(v)
    ensures Dot(u, v, k) == 0.0
  {
    if k > 0 {
      DotOfZero(u, v, k - 1);
    }
  }

  // ---------------------------------------------------------------------------
  // Elementwise maps

  /** out[i] = a[i] + b[i] for i < n. */
  function Sum(a: seq<real>, b: seq<real>, n: nat): (r: seq<real>)
    requires n <= |a| && n <= |b|
    ensures |r| == n
  {
    seq(n, i requires 0 <= i < n => a[i] + b[i])
  }

  /** out[i] = a[i] * b[i] for i < n (the Hadamard product). */
  function Hadamard(a: seq<real>, b: seq<real>, n: nat): (r: seq<real>)
    requires n <= |a| && n <= |b|
    ensures |r| == n
  {
    seq(n, i requires 0 <= i < n => a[i] * b[i])
  }

  /** Adding a vector that is zero on the first n entries leaves the other operand's first n entries. */
  lemma SumOfZero(a: seq<real>, b: seq<real>, n: nat)
    requires n <= |a| && n <= |b|
    requires forall i :: 0 <= i < n ==> a[i] == 0.0
    ensures Sum(a, b, n) == b[..n]
  {
  }

  /** The product reads only the first m * n entries of its left operand. */
  lemma {:induction false} ProductOfPrefix(a: seq<real>, a': seq<real>, b: seq<real>, m: nat, n: nat, p: nat)
    requires m * n <= |a| && m * n <= |a'| && n * p <= |b|
    requires a[..m * n] == a'[..m * n]
    ensures Product(a, b, m, n, p) == Product(a', b, m, n, p)
  {
    if m > 0 {
      MulMono(m - 1, m, n);
      assert (m - 1) * n + n == m * n;
      assert a[..(m - 1) * n] == a[..m * n][..(m - 1) * n];
      assert a'[..(m - 1) * n] == a'[..m * n][..(m - 1) * n];
      ProductOfPrefix(a, a', b, m - 1, n, p);
      assert Row(a, m - 1, n) == a[..m * n][(m - 1) * n ..];
      assert Row(a', m - 1, n) == a'[..m * n][(m - 1) * n ..];
    }
  }

  /** The affine map x * W + b of an [m, k] input, a [k, p] matrix and an m * p bias. */
  function Affine(x: seq<real>, w: seq<real>, b: seq<real>, m: nat, k: nat, p: nat): (r: seq<real>)
    requires m * k <= |x| && k * p <= |w| && m * p <= |b|
    ensures |r| == m * p
  {
    Sum(Product(x, w, m, k, p), b, m * p)
  }

  /** Entry (i, j) of the affine map is row i of x dotted with column j of W, plus bias entry (i, j). */
  lemma AffineAt(x: seq<real>, w: seq<real>, b: seq<real>, m: nat, k: nat, p: nat, i: nat, j: nat)
    requires m * k <= |x| && k * p <= |w| && m * p <= |b|
    requires i < m && j < p
    ensures 0 <= i * p + j < m * p && i * k + k <= |x|
    ensures Affine(x, w, b, m, k, p)[i * p + j] == Dot(Row(x, i, k), Col(w, j, k, p), k) + b[i * p + j]
  {
    RowMajorBound(i, j, m, p);
    MulMono(i + 1, m, k);
    ProductAt(x, w, m, k, p, i, j);
  }

  /** With an all-zero matrix the affine map is its bias. */
  lemma AffineOfZero(x: seq<real>, w: seq<real>, b: seq<real>, m: nat, k: nat, p: nat)
    requires m * k <= |x| && k * p <= |w| && m * p <= |b|
    requires AllZero(w)
    ensures Affine(x, w, b, m, k, p) == b[..m * p]
  {
    ProductOfZero(x, w, m, k, p);
  }

  // ---------------------------------------------------------------------------
  // Sequence surgery used by the buffer proofs

  lemma UpdateMiddle(x: seq<real>, y: real, z: seq<real>, v: real)
    ensures (x + [y] + z)[|x| := v] == x + [v] + z
  {
    var s := x + [y] + z;
    assert s[|x| := v] == x + [v] + z;
  }

  /** The first `l` chunks laid end to end. */
  function Flatten(chunks: seq<seq<real>>, l: nat): (r: seq<real>)
    requires l <= |chunks|
    decreases l
  {
    if l == 0 then [] else Flatten(chunks, l - 1) + chunks[l - 1]
  }

  /** Laying out l chunks of h floats each takes l * h floats. */
  lemma {:induction false} FlattenLength(chunks: seq<seq<real>>, l: nat, h: nat)
    requires l <= |chunks| && forall i :: 0 <= i < |chunks| ==> |chunks[i]| == h
    ensures |Flatten(chunks, l)| == l * h
  {
    if l > 0 {
      FlattenLength(chunks, l - 1, h);
      assert (l - 1) * h + h == l * h;
    }
  }

  /** Laying out more chunks only extends the layout. */
  lemma {:induction false} FlattenPrefix(chunks: seq<seq<real>>, j: nat, l: nat)
    requires j <= l <= |chunks|
    ensures Flatten(chunks, j) <= Flatten(chunks, l)
  {
    if j < l {
      FlattenPrefix(chunks, j, l - 1);
    }
  }

  /** Chunk k of h floats sits at k * h .. k * h + h of the layout. */
  lemma FlattenAt(chunks: seq<seq<real>>, l: nat, h: nat, k: nat)
    requires l <= |chunks| && forall i :: 0 <= i < |chunks| ==> |chunks[i]| == h
    requires k < l
    ensures |Flatten(chunks, l)| == l * h && k * h + h <= l * h
    ensures Flatten(chunks, l)[k * h .. k * h + h] == chunks[k]
  {
    FlattenLength(chunks, l, h);
    FlattenLength(chunks, k, h);
    FlattenPrefix(chunks, k + 1, l);
    MulMono(k + 1, l, h);
    var before := Flatten(chunks, k);
    var upTo := Flatten(chunks, k + 1);
    var all := Flatten(chunks, l);
    var lo := k * h;
    assert upTo == before + chunks[k];
    assert |before| == lo;
    assert |upTo| == lo + h;
    assert upTo == all[..lo + h];
    assert upTo[lo .. lo + h] == chunks[k];
    assert all[lo .. lo + h] == upTo[lo .. lo + h];
  }

  /** `memcpy(dst + off, src, len)` with the bounds made explicit: None when it would run off either buffer. */
  function CopyInto(dst: seq<real>, off: int, src: seq<real>, len: int): (r: Option<seq<real>>)
    ensures r.Some? <==> 0 <= off && 0 <= len && off + len <= |dst| && len <= |src|
    ensures r.Some? ==>
              && |r.value| == |dst|
              && r.value[off .. off + len] == src[..len]
              && r.value[..off] == dst[..off]
              && r.value[off + len ..] == dst[off + len ..]
  {
    if 0 <= off && 0 <= len && off + len <= |dst| && len <= |src|
    then Some(dst[..off] + src[..len] + dst[off + len ..])
    else None
  }

  datatype Option<+T> = None | Some(value: T)
}
