/**
 * The LSTM cell of lib/lstm.c as pure functions over real vectors: the gate pre-activations
 * x W_i + h_prev W_h + b_i + b_h, the gates i, f, g, o, the cell update
 * c = f * c_prev + i * g and the hidden update h = o * tanh(c).  `GatesOf` is the cell the
 * comments of lib/lstm.c describe; `GatesAsWritten` is what its kernel calls compute.
 */
module LstmCell {
  import opened Tensor
  import opened Activation

  /** LSTMLayerWeights: four input-side [n, h] matrices, four hidden-side [h, h] ones, eight biases. */
  datatype LstmParams = LstmParams(
    wii: seq<real>, wif: seq<real>, wig: seq<real>, wio: seq<real>,
    whi: seq<real>, whf: seq<real>, whg: seq<real>, who: seq<real>,
    bii: seq<real>, bif: seq<real>, big: seq<real>, bio: seq<real>,
    bhi: seq<real>, bhf: seq<real>, bhg: seq<real>, bho: seq<real>)

  /** The arrays hold at least [n, h] input-side matrices, [h, h] hidden-side ones and m * h biases. */
  predicate Fits(w: LstmParams, m: nat, n: nat, h: nat) {
    && n * h <= |w.wii| && n * h <= |w.wif| && n * h <= |w.wig| && n * h <= |w.wio|
    && h * h <= |w.whi| && h * h <= |w.whf| && h * h <= |w.whg| && h * h <= |w.who|
    && m * h <= |w.bii| && m * h <= |w.bif| && m * h <= |w.big| && m * h <= |w.bio|
    && m * h <= |w.bhi| && m * h <= |w.bhf| && m * h <= |w.bhg| && m * h <= |w.bho|
  }

  /** Every parameter is zero, as `calloc` leaves them. */
  predicate AllParamsZero(w: LstmParams) {
    && AllZero(w.wii) && AllZero(w.wif) && AllZero(w.wig) && AllZero(w.wio)
    && AllZero(w.whi) && AllZero(w.whf) && AllZero(w.whg) && AllZero(w.who)
    && AllZero(w.bii) && AllZero(w.bif) && AllZero(w.big) && AllZero(w.bio)
    && AllZero(w.bhi) && AllZero(w.bhf) && AllZero(w.bhg) && AllZero(w.bho)
  }

  /** The input gate, forget gate, input node and output gate. */
  datatype LstmGates = LstmGates(input: seq<real>, forget: seq<real>, node: seq<real>, output: seq<real>)

  /** `add(out, a, b, len)` on an m * h buffer: the first `len` entries summed, the rest of `a` kept. */
  function AddPrefix(a: seq<real>, b: seq<real>, len: nat): (r: seq<real>)
    requires len <= |a| && len <= |b|
    ensures |r| == |a|
    ensures forall k :: 0 <= k < len ==> r[k] == a[k] + b[k]
    ensures forall k :: len <= k < |a| ==> r[k] == a[k]
  {
    Sum(a, b, len) + a[len ..]
  }

  /** A gate's pre-activation x W_i + h_prev W_h + b_i + b_h over m rows. */
  function Pre(x: seq<real>, wi: seq<real>, bi: seq<real>, hPrev: seq<real>, wh: seq<real>, bh: seq<real>,
               m: nat, n: nat, h: nat): (r: seq<real>)
    requires m * n <= |x| && n * h <= |wi| && m * h <= |bi|
    requires m * h <= |hPrev| && h * h <= |wh| && m * h <= |bh|
    ensures |r| == m * h
  {
    Sum(Sum(Sum(Product(x, wi, m, n, h), Product(hPrev, wh, m, h, h), m * h), bi, m * h), bh, m * h)
  }

  /** The four gates as the comments of `lstm_layer_forward` state them. */
  function GatesOf(act: Activations, w: LstmParams, x: seq<real>, hPrev: seq<real>, m: nat, n: nat, h: nat): (g: LstmGates)
    requires Fits(w, m, n, h) && m * n <= |x| && m * h <= |hPrev|
    ensures |g.input| == m * h && |g.forget| == m * h && |g.node| == m * h && |g.output| == m * h
  {
    LstmGates(
      Sigmoids(act, Pre(x, w.wii, w.bii, hPrev, w.whi, w.bhi, m, n, h), m * h),
      Sigmoids(act, Pre(x, w.wif, w.bif, hPrev, w.whf, w.bhf, m, n, h), m * h),
      Tanhs(act, Pre(x, w.wig, w.big, hPrev, w.whg, w.bhg, m, n, h), m * h),
      Sigmoids(act, Pre(x, w.wio, w.bio, hPrev, w.who, w.bho, m, n, h), m * h))
  }

  /** The cell update c = f * c_prev + i * g over `len` entries. */
  function CellOf(g: LstmGates, cPrev: seq<real>, len: nat): (c: seq<real>)
    requires len <= |g.input| && len <= |g.forget| && len <= |g.node| && len <= |cPrev|
    ensures |c| == len
  {
    Sum(Hadamard(g.forget, cPrev, len), Hadamard(g.input, g.node, len), len)
  }

  /** The hidden update h = o * tanh(c) over `len` entries. */
  function HiddenOf(act: Activations, g: LstmGates, c: seq<real>, len: nat): (hNew: seq<real>)
    requires len <= |g.output| && len <= |c|
    ensures |hNew| == len
  {
    Hadamard(g.output, Tanhs(act, c, len), len)
  }

  /**
   * The input gate's pre-activation as lib/lstm.c:137-141 computes it: the hidden-side call
   * `matmul(buf, W_hi, h_prev, m, h, h)` has its operands swapped, so it multiplies the first
   * m * h floats of W_hi by h_prev read as an [h, h] matrix.
   */
  function InputPreAsWritten(w: LstmParams, x: seq<real>, hPrev: seq<real>, m: nat, n: nat, h: nat): (r: seq<real>)
    requires Fits(w, m, n, h) && m * n <= |x| && m * h <= |w.whi| && h * h <= |hPrev|
    ensures |r| == m * h
  {
    Sum(Sum(Sum(Product(x, w.wii, m, n, h), Product(w.whi, hPrev, m, h, h), m * h), w.bii, m * h), w.bhi, m * h)
  }

  /** The forget gate's pre-activation as lib/lstm.c:145-149 computes it: the hidden side is added to the first h entries only. */
  function ForgetPreAsWritten(w: LstmParams, x: seq<real>, hPrev: seq<real>, m: nat, n: nat, h: nat): (r: seq<real>)
    requires Fits(w, m, n, h) && m * n <= |x| && m * h <= |hPrev| && h <= m * h
    ensures |r| == m * h
  {
    Sum(Sum(AddPrefix(Product(x, w.wif, m, n, h), Product(hPrev, w.whf, m, h, h), h), w.bif, m * h), w.bhf, m * h)
  }

  /** The four gates as the kernel calls of `lstm_layer_forward` compute them. */
  function GatesAsWritten(act: Activations, w: LstmParams, x: seq<real>, hPrev: seq<real>, m: nat, n: nat, h: nat)
    : (g: LstmGates)
    requires Fits(w, m, n, h) && m * n <= |x| && m * h <= |hPrev| && h <= m * h
    requires m * h <= |w.whi| && h * h <= |hPrev|
    ensures |g.input| == m * h && |g.forget| == m * h && |g.node| == m * h && |g.output| == m * h
  {
    LstmGates(
      Sigmoids(act, InputPreAsWritten(w, x, hPrev, m, n, h), m * h),
      Sigmoids(act, ForgetPreAsWritten(w, x, hPrev, m, n, h), m * h),
      Tanhs(act, Pre(x, w.wig, w.big, hPrev, w.whg, w.bhg, m, n, h), m * h),
      Sigmoids(act, Pre(x, w.wio, w.bio, hPrev, w.who, w.bho, m, n, h), m * h))
  }

  // ---------------------------------------------------------------------------
  // Properties of the cell

  /** With one row the forget gate's shortened add covers the whole buffer: as written equals intended. */
  lemma ForgetOneRow(w: LstmParams, x: seq<real>, hPrev: seq<real>, n: nat, h: nat)
    requires Fits(w, 1, n, h) && n <= |x| && h <= |hPrev|
    ensures ForgetPreAsWritten(w, x, hPrev, 1, n, h) == Pre(x, w.wif, w.bif, hPrev, w.whf, w.bhf, 1, n, h)
  {
    var p := Product(x, w.wif, 1, n, h);
    assert AddPrefix(p, Product(hPrev, w.whf, 1, h, h), h) == Sum(p, Product(hPrev, w.whf, 1, h, h), 1 * h);
  }

  /** |a * b| <= |b| when 0 < a < 1. */
  lemma DampedBound(a: real, b: real)
    requires 0.0 < a < 1.0
    ensures -Abs(b) <= a * b <= Abs(b)
  {
    if b >= 0.0 {
      assert a * b <= 1.0 * b;
    } else {
      var u, v := 1.0 - a, -b;
      assert 0.0 <= u * v;
      assert 0.0 <= a * v;
      assert a * b - b == u * v;
    }
  }

  function Abs(x: real): (r: real)
    ensures r >= 0.0 && (r == x || r == -x)
  {
    if x < 0.0 then -x else x
  }

  /**
   * Gated by a sigmoid on each side, one cell update moves each entry by less than the input
   * node: |c[k]| <= |c_prev[k]| + |g[k]|.
   */
  lemma CellBound(act: Activations, w: LstmParams, x: seq<real>, hPrev: seq<real>, cPrev: seq<real>,
                  m: nat, n: nat, h: nat, k: nat)
    requires Fits(w, m, n, h) && m * n <= |x| && m * h <= |hPrev| && m * h <= |cPrev| && k < m * h
    ensures var g := GatesOf(act, w, x, hPrev, m, n, h);
            Abs(CellOf(g, cPrev, m * h)[k]) <= Abs(cPrev[k]) + Abs(g.node[k])
  {
    var g := GatesOf(act, w, x, hPrev, m, n, h);
    SigmoidsInRange(act, Pre(x, w.wif, w.bif, hPrev, w.whf, w.bhf, m, n, h), m * h, k);
    SigmoidsInRange(act, Pre(x, w.wii, w.bii, hPrev, w.whi, w.bhi, m, n, h), m * h, k);
    CellEntryBound(g, cPrev, m * h, k);
  }

  /** Entry k of the cell update, with both gates strictly between 0 and 1 there. */
  lemma CellEntryBound(g: LstmGates, cPrev: seq<real>, len: nat, k: nat)
    requires len <= |g.input| && len <= |g.forget| && len <= |g.node| && len <= |cPrev| && k < len
    requires 0.0 < g.forget[k] < 1.0 && 0.0 < g.input[k] < 1.0
    ensures Abs(CellOf(g, cPrev, len)[k]) <= Abs(cPrev[k]) + Abs(g.node[k])
  {
    var c := CellOf(g, cPrev, len);
    assert c[k] == g.forget[k] * cPrev[k] + g.input[k] * g.node[k];
    GatedSumBound(g.forget[k], cPrev[k], g.input[k], g.node[k]);
  }

  /** |a * b + u * v| <= |b| + |v| when both gates a and u lie strictly between 0 and 1. */
  lemma GatedSumBound(a: real, b: real, u: real, v: real)
    requires 0.0 < a < 1.0 && 0.0 < u < 1.0
    ensures Abs(a * b + u * v) <= Abs(b) + Abs(v)
  {
    DampedBound(a, b);
    DampedBound(u, v);
  }

  /** The output gate only damps: |h[k]| <= |tanh(c[k])|. */
  lemma HiddenBound(act: Activations, w: LstmParams, x: seq<real>, hPrev: seq<real>, c: seq<real>,
                    m: nat, n: nat, h: nat, k: nat)
    requires Fits(w, m, n, h) && m * n <= |x| && m * h <= |hPrev| && m * h <= |c| && k < m * h
    ensures var g := GatesOf(act, w, x, hPrev, m, n, h);
            Abs(HiddenOf(act, g, c, m * h)[k]) <= Abs(Tanh(act, c[k]))
  {
    var g := GatesOf(act, w, x, hPrev, m, n, h);
    SigmoidsInRange(act, Pre(x, w.wio, w.bio, hPrev, w.who, w.bho, m, n, h), m * h, k);
    DampedBound(g.output[k], Tanh(act, c[k]));
    assert HiddenOf(act, g, c, m * h)[k] == g.output[k] * Tanh(act, c[k]);
  }

  /** With zero parameters the pre-activation is zero whatever the input and h_prev. */
  lemma PreOfZero(x: seq<real>, wi: seq<real>, bi: seq<real>, hPrev: seq<real>, wh: seq<real>, bh: seq<real>,
                  m: nat, n: nat, h: nat)
    requires m * n <= |x| && n * h <= |wi| && m * h <= |bi|
    requires m * h <= |hPrev| && h * h <= |wh| && m * h <= |bh|
    requires AllZero(wi) && AllZero(bi) && AllZero(wh) && AllZero(bh)
    ensures AllZero(Pre(x, wi, bi, hPrev, wh, bh, m, n, h))
  {
    ProductOfZero(x, wi, m, n, h);
    ProductOfZero(hPrev, wh, m, h, h);
  }

  /**
   * A fresh layer at rest: with zero parameters and a zero cell state, i = f = o = 1/2,
   * g = 0, and both the new cell state and the new hidden state are zero.
   */
  lemma ZeroStaysZero(act: Activations, w: LstmParams, x: seq<real>, hPrev: seq<real>, cPrev: seq<real>,
                      m: nat, n: nat, h: nat)
    requires AnchoredAtZero(act)
    requires Fits(w, m, n, h) && m * n <= |x| && m * h <= |hPrev| && m * h <= |cPrev|
    requires AllParamsZero(w) && AllZero(cPrev)
    ensures var g := GatesOf(act, w, x, hPrev, m, n, h);
            && (forall k :: 0 <= k < m * h ==> g.input[k] == 0.5 && g.forget[k] == 0.5 && g.output[k] == 0.5)
            && AllZero(g.node)
            && AllZero(CellOf(g, cPrev, m * h))
            && AllZero(HiddenOf(act, g, CellOf(g, cPrev, m * h), m * h))
  {
    var pi := Pre(x, w.wii, w.bii, hPrev, w.whi, w.bhi, m, n, h);
    var pf := Pre(x, w.wif, w.bif, hPrev, w.whf, w.bhf, m, n, h);
    var pg := Pre(x, w.wig, w.big, hPrev, w.whg, w.bhg, m, n, h);
    var po := Pre(x, w.wio, w.bio, hPrev, w.who, w.bho, m, n, h);
    PreOfZero(x, w.wii, w.bii, hPrev, w.whi, w.bhi, m, n, h);
    PreOfZero(x, w.wif, w.bif, hPrev, w.whf, w.bhf, m, n, h);
    PreOfZero(x, w.wig, w.big, hPrev, w.whg, w.bhg, m, n, h);
    PreOfZero(x, w.wio, w.bio, hPrev, w.who, w.bho, m, n, h);
    SigmoidAtZero(act);
    var g := GatesOf(act, w, x, hPrev, m, n, h);
    var c := CellOf(g, cPrev, m * h);
    forall k | 0 <= k < m * h
      ensures g.input[k] == 0.5 && g.forget[k] == 0.5 && g.output[k] == 0.5 && g.node[k] == 0.0
    {
      assert pi[k] == 0.0 && pf[k] == 0.0 && pg[k] == 0.0 && po[k] == 0.0;
    }
    forall k | 0 <= k < m * h
      ensures c[k] == 0.0
    {
      assert c[k] == g.forget[k] * cPrev[k] + g.input[k] * g.node[k];
    }
    var hNew := HiddenOf(act, g, c, m * h);
    forall k | 0 <= k < m * h
      ensures hNew[k] == 0.0
    {
      assert hNew[k] == g.output[k] * Tanh(act, c[k]);
    }
  }

  /**
   * With two rows the forget gate's hidden-side term never reaches row 1: for input_dim = 2,
   * h = 1, zero input-side parameters and biases, W_hf = [1] and h_prev = [0, 1], the
   * intended pre-activation of entry 1 is 1 but the code's is 0.
   */
  lemma ForgetSecondRowLosesHidden()
    ensures var w := LstmParams([0.0], [0.0], [0.0], [0.0], [1.0], [1.0], [1.0], [1.0],
                                [0.0, 0.0], [0.0, 0.0], [0.0, 0.0], [0.0, 0.0],
                                [0.0, 0.0], [0.0, 0.0], [0.0, 0.0], [0.0, 0.0]);
            && ForgetPreAsWritten(w, [0.0, 0.0], [0.0, 1.0], 2, 1, 1)[1] == 0.0
            && Pre([0.0, 0.0], w.wif, w.bif, [0.0, 1.0], w.whf, w.bhf, 2, 1, 1)[1] == 1.0
  {
    var w := LstmParams([0.0], [0.0], [0.0], [0.0], [1.0], [1.0], [1.0], [1.0],
                        [0.0, 0.0], [0.0, 0.0], [0.0, 0.0], [0.0, 0.0],
                        [0.0, 0.0], [0.0, 0.0], [0.0, 0.0], [0.0, 0.0]);
    var x, hp := [0.0, 0.0], [0.0, 1.0];
    ProductAt(x, w.wif, 2, 1, 1, 1, 0);
    ProductAt(hp, w.whf, 2, 1, 1, 1, 0);
    assert Row(x, 1, 1) == [0.0];
    assert Row(hp, 1, 1) == [1.0];
    assert Col(w.whf, 0, 1, 1) == [1.0] by {
      ColAt(w.whf, 0, 1, 1, 0);
    }
    assert Product(x, w.wif, 2, 1, 1)[1] == 0.0;
    assert Product(hp, w.whf, 2, 1, 1)[1] == 1.0;
  }
}
