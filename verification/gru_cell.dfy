/**
 * The GRU cell shared by lib/gru.c, gru.c and GRU_rewrite.c, as pure functions over
 * row-major buffers: `m` rows (the layer's input_dim; 1 in the stacked models), input width
 * `n` and hidden width `h`.
 *
 * Each file computes a gate with `matmul(g, x, W_i*)`, `add(g, g, b_i*)`,
 * `matmul(g, h_prev, W_h*)`, `add(g, g, b_h*)`.  `matmul` zeroes every output cell before it
 * accumulates, so the second call replaces the input projection instead of adding to it:
 * what the code computes (`GatesAsWritten`) depends on h_prev only.  `Gates` is the update
 * the comments and names describe, with both projections summed.
 */
module GruCell {
  import opened Tensor
  import opened Activation

  /** The twelve per-layer parameter arrays of GRULayerWeights / GRUWeights. */
  datatype GruParams = GruParams(
    wir: seq<real>, wiz: seq<real>, win: seq<real>,
    whr: seq<real>, whz: seq<real>, whn: seq<real>,
    bir: seq<real>, biz: seq<real>, bin: seq<real>,
    bhr: seq<real>, bhz: seq<real>, bhn: seq<real>)

  /** The hidden-side arrays hold at least an [h, h] matrix and m * h biases. */
  predicate HiddenFits(w: GruParams, m: nat, h: nat) {
    && h * h <= |w.whr| && h * h <= |w.whz| && h * h <= |w.whn|
    && m * h <= |w.bhr| && m * h <= |w.bhz| && m * h <= |w.bhn|
  }

  /** The input-side arrays hold at least an [n, h] matrix and m * h biases. */
  predicate InputFits(w: GruParams, m: nat, n: nat, h: nat) {
    && n * h <= |w.wir| && n * h <= |w.wiz| && n * h <= |w.win|
    && m * h <= |w.bir| && m * h <= |w.biz| && m * h <= |w.bin|
  }

  /** The input-side parameters are all zero. */
  predicate InputSideZero(w: GruParams) {
    AllZero(w.wir) && AllZero(w.wiz) && AllZero(w.win) && AllZero(w.bir) && AllZero(w.biz) && AllZero(w.bin)
  }

  /** Every parameter is zero, as `calloc` leaves them. */
  predicate AllParamsZero(w: GruParams) {
    && InputSideZero(w)
    && AllZero(w.whr) && AllZero(w.whz) && AllZero(w.whn)
    && AllZero(w.bhr) && AllZero(w.bhz) && AllZero(w.bhn)
  }

  /** The reset gate r, the update gate z and the candidate n of one step. */
  datatype Gates = Gates(reset: seq<real>, update: seq<real>, candidate: seq<real>)

  /** The blend z * h_prev + (1 - z) * n over the first `len` entries. */
  function Blend(z: seq<real>, hPrev: seq<real>, cand: seq<real>, len: nat): (r: seq<real>)
    requires len <= |z| && len <= |hPrev| && len <= |cand|
    ensures |r| == len
  {
    seq(len, i requires 0 <= i < len => z[i] * hPrev[i] + (1.0 - z[i]) * cand[i])
  }

  lemma NonNegProduct(x: real, y: real)
    requires 0.0 <= x && 0.0 <= y
    ensures 0.0 <= x * y
  {
  }

  /** z * a + (1 - z) * c lies between a and c when 0 < z < 1. */
  lemma MixBetween(z: real, a: real, c: real)
    requires 0.0 < z < 1.0
    ensures a <= c ==> a <= z * a + (1.0 - z) * c <= c
    ensures c <= a ==> c <= z * a + (1.0 - z) * c <= a
  {
    var y := z * a + (1.0 - z) * c;
    assert y - a == (1.0 - z) * (c - a);
    assert y - c == z * (a - c);
    if a <= c {
      NonNegProduct(1.0 - z, c - a);
      NonNegProduct(z, c - a);
    } else {
      NonNegProduct(1.0 - z, a - c);
      NonNegProduct(z, a - c);
    }
  }

  /** With a gate strictly between 0 and 1, each blended entry lies between h_prev and the candidate. */
  lemma BlendBetween(z: seq<real>, hPrev: seq<real>, cand: seq<real>, len: nat, i: nat)
    requires len <= |z| && len <= |hPrev| && len <= |cand| && i < len
    requires 0.0 < z[i] < 1.0
    ensures hPrev[i] <= cand[i] ==> hPrev[i] <= Blend(z, hPrev, cand, len)[i] <= cand[i]
    ensures cand[i] <= hPrev[i] ==> cand[i] <= Blend(z, hPrev, cand, len)[i] <= hPrev[i]
  {
    MixBetween(z[i], hPrev[i], cand[i]);
  }

  /** The gates as the three files compute them: only the hidden-side projections survive. */
  function GatesAsWritten(act: Activations, w: GruParams, hPrev: seq<real>, m: nat, h: nat): (g: Gates)
    requires HiddenFits(w, m, h) && m * h <= |hPrev|
    ensures |g.reset| == m * h && |g.update| == m * h && |g.candidate| == m * h
  {
    var r := Sigmoids(act, Affine(hPrev, w.whr, w.bhr, m, h, h), m * h);
    var z := Sigmoids(act, Affine(hPrev, w.whz, w.bhz, m, h, h), m * h);
    var n := Tanhs(act, Affine(Hadamard(r, hPrev, m * h), w.whn, w.bhn, m, h, h), m * h);
    Gates(r, z, n)
  }

  /** The new hidden state the three files compute from h_prev; the input x plays no part. */
  function StepAsWritten(act: Activations, w: GruParams, hPrev: seq<real>, m: nat, h: nat): (hNew: seq<real>)
    requires HiddenFits(w, m, h) && m * h <= |hPrev|
    ensures |hNew| == m * h
  {
    var g := GatesAsWritten(act, w, hPrev, m, h);
    Blend(g.update, hPrev, g.candidate, m * h)
  }

  /**
   * The GRU gates with both projections summed:
   * r = sigmoid(x W_ir + b_ir + h W_hr + b_hr), z likewise, and
   * n = tanh(x W_in + b_in + (r * h) W_hn + b_hn).
   */
  function GatesOf(act: Activations, w: GruParams, x: seq<real>, hPrev: seq<real>, m: nat, n: nat, h: nat): (g: Gates)
    requires InputFits(w, m, n, h) && HiddenFits(w, m, h) && m * n <= |x| && m * h <= |hPrev|
    ensures |g.reset| == m * h && |g.update| == m * h && |g.candidate| == m * h
  {
    var r := Sigmoids(act, Sum(Affine(x, w.wir, w.bir, m, n, h), Affine(hPrev, w.whr, w.bhr, m, h, h), m * h), m * h);
    var z := Sigmoids(act, Sum(Affine(x, w.wiz, w.biz, m, n, h), Affine(hPrev, w.whz, w.bhz, m, h, h), m * h), m * h);
    var c := Tanhs(act, Sum(Affine(x, w.win, w.bin, m, n, h),
                            Affine(Hadamard(r, hPrev, m * h), w.whn, w.bhn, m, h, h), m * h), m * h);
    Gates(r, z, c)
  }

  /** The GRU update h' = z * h_prev + (1 - z) * n with the gates of `GatesOf`. */
  function Step(act: Activations, w: GruParams, x: seq<real>, hPrev: seq<real>, m: nat, n: nat, h: nat): (hNew: seq<real>)
    requires InputFits(w, m, n, h) && HiddenFits(w, m, h) && m * n <= |x| && m * h <= |hPrev|
    ensures |hNew| == m * h
  {
    var g := GatesOf(act, w, x, hPrev, m, n, h);
    Blend(g.update, hPrev, g.candidate, m * h)
  }

  /** The code's step is the GRU step exactly when the input side contributes nothing. */
  lemma AsWrittenIsStepWithoutInput(act: Activations, w: GruParams, x: seq<real>, hPrev: seq<real>, m: nat, n: nat, h: nat)
    requires InputFits(w, m, n, h) && HiddenFits(w, m, h) && m * n <= |x| && m * h <= |hPrev|
    requires InputSideZero(w)
    ensures GatesOf(act, w, x, hPrev, m, n, h) == GatesAsWritten(act, w, hPrev, m, h)
    ensures Step(act, w, x, hPrev, m, n, h) == StepAsWritten(act, w, hPrev, m, h)
  {
    AffineOfZero(x, w.wir, w.bir, m, n, h);
    AffineOfZero(x, w.wiz, w.biz, m, n, h);
    AffineOfZero(x, w.win, w.bin, m, n, h);
    var g := GatesAsWritten(act, w, hPrev, m, h);
    SumOfZero(Affine(x, w.wir, w.bir, m, n, h), Affine(hPrev, w.whr, w.bhr, m, h, h), m * h);
    SumOfZero(Affine(x, w.wiz, w.biz, m, n, h), Affine(hPrev, w.whz, w.bhz, m, h, h), m * h);
    SumOfZero(Affine(x, w.win, w.bin, m, n, h), Affine(Hadamard(g.reset, hPrev, m * h), w.whn, w.bhn, m, h, h), m * h);
  }

  /** From all-zero parameters and a zero h_prev, the code's step stays at zero (given tanh(0) = 0). */
  lemma ZeroStaysZero(act: Activations, w: GruParams, hPrev: seq<real>, m: nat, h: nat)
    requires HiddenFits(w, m, h) && m * h <= |hPrev|
    requires AnchoredAtZero(act) && AllParamsZero(w) && AllZero(hPrev)
    ensures AllZero(StepAsWritten(act, w, hPrev, m, h))
  {
    var g := GatesAsWritten(act, w, hPrev, m, h);
    AffineOfZero(Hadamard(g.reset, hPrev, m * h), w.whn, w.bhn, m, h, h);
    assert forall i :: 0 <= i < m * h ==> g.candidate[i] == 0.0;
  }

  /** The same for the GRU step: zero parameters and a zero h_prev give zero, whatever the input. */
  lemma StepZeroStaysZero(act: Activations, w: GruParams, x: seq<real>, hPrev: seq<real>, m: nat, n: nat, h: nat)
    requires InputFits(w, m, n, h) && HiddenFits(w, m, h) && m * n <= |x| && m * h <= |hPrev|
    requires AnchoredAtZero(act) && AllParamsZero(w) && AllZero(hPrev)
    ensures AllZero(Step(act, w, x, hPrev, m, n, h))
  {
    AsWrittenIsStepWithoutInput(act, w, x, hPrev, m, n, h);
    ZeroStaysZero(act, w, hPrev, m, h);
  }

  /** One-by-one parameters: zero everywhere except W_in = [1]. */
  function CandidateOnly(): GruParams {
    GruParams([0.0], [0.0], [1.0], [0.0], [0.0], [0.0], [0.0], [0.0], [0.0], [0.0], [0.0], [0.0])
  }

  /** A 1 x 1 product is the product of the two entries. */
  lemma Affine1(x: real, w: real, b: real)
    ensures Affine([x], [w], [b], 1, 1, 1) == [x * w + b]
  {
    assert Row([x], 0, 1) == [x];
    ColAt([w], 0, 1, 1, 0);
    assert Dot([x], Col([w], 0, 1, 1), 1) == x * w;
    assert Product([x], [w], 1, 1, 1) == [] + RowTimes([x], [w], 0, 1, 1);
  }

  /** The GRU gates of the one-by-one example: r = z = sigmoid(0), n = tanh(1). */
  lemma CandidateOnlyGates(act: Activations)
    ensures GatesOf(act, CandidateOnly(), [1.0], [0.0], 1, 1, 1)
            == Gates([Sigmoid(act, 0.0)], [Sigmoid(act, 0.0)], [act.tanh(1.0)])
  {
    var w := CandidateOnly();
    Affine1(0.0, 0.0, 0.0);
    Affine1(1.0, 0.0, 0.0);
    Affine1(1.0, 1.0, 0.0);
    var r := Sigmoids(act, Sum([0.0], [0.0], 1), 1);
    assert r == [Sigmoid(act, 0.0)];
    assert Hadamard(r, [0.0], 1) == [0.0];
    assert Sum([1.0], [0.0], 1) == [1.0];
  }

  /** The code's gates of the one-by-one example: r = z = sigmoid(0), n = tanh(0). */
  lemma CandidateOnlyGatesAsWritten(act: Activations)
    ensures GatesAsWritten(act, CandidateOnly(), [0.0], 1, 1)
            == Gates([Sigmoid(act, 0.0)], [Sigmoid(act, 0.0)], [act.tanh(0.0)])
  {
    var w := CandidateOnly();
    Affine1(0.0, 0.0, 0.0);
    var zero := Affine([0.0], [0.0], [0.0], 1, 1, 1);
    assert zero == [0.0];
    var r := Sigmoids(act, zero, 1);
    assert r[0] == Sigmoid(act, 0.0);
    assert r == [Sigmoid(act, 0.0)];
    var hr := Hadamard(r, [0.0], 1);
    assert hr[0] == 0.0;
    assert hr == [0.0];
    var c := Tanhs(act, Affine(hr, w.whn, w.bhn, 1, 1, 1), 1);
    assert c == [act.tanh(0.0)];
  }

  /**
   * The input is lost: with h_prev = 0, input x = 1 and only W_in nonzero, the GRU step
   * gives (1 - sigmoid(0)) * tanh(1), the code's step (1 - sigmoid(0)) * tanh(0).  They
   * differ for every tanh with tanh(1) != tanh(0).
   */
  lemma OverwriteLosesInput(act: Activations)
    requires act.tanh(1.0) != act.tanh(0.0)
    ensures Step(act, CandidateOnly(), [1.0], [0.0], 1, 1, 1) != StepAsWritten(act, CandidateOnly(), [0.0], 1, 1)
  {
    CandidateOnlyGates(act);
    CandidateOnlyGatesAsWritten(act);
    var z := Sigmoid(act, 0.0);
    var s := Step(act, CandidateOnly(), [1.0], [0.0], 1, 1, 1);
    var s' := StepAsWritten(act, CandidateOnly(), [0.0], 1, 1);
    assert s[0] == z * 0.0 + (1.0 - z) * act.tanh(1.0);
    assert s'[0] == z * 0.0 + (1.0 - z) * act.tanh(0.0);
    assert s[0] - s'[0] == (1.0 - z) * (act.tanh(1.0) - act.tanh(0.0));
  }

  /** The blend loop `for (i = 0; i < len; i++) out[i] = z[i] * h_prev[i] + (1 - z[i]) * n[i]`. */
  method BlendInto(out: seq<real>, z: seq<real>, hPrev: seq<real>, cand: seq<real>, len: nat) returns (r: seq<real>)
    requires len <= |out| && len <= |z| && len <= |hPrev| && len <= |cand|
    ensures r == Blend(z, hPrev, cand, len) + out[len ..]
  {
    r := out;
    var i := 0;
    while i < len
      invariant 0 <= i <= len && |r| == |out|
      invariant forall t :: 0 <= t < i ==> r[t] == z[t] * hPrev[t] + (1.0 - z[t]) * cand[t]
      invariant forall t :: i <= t < |r| ==> r[t] == out[t]
    {
      r := r[i := z[i] * hPrev[i] + (1.0 - z[i]) * cand[i]];
      i := i + 1;
    }
    forall t | 0 <= t < |r|
      ensures r[t] == (Blend(z, hPrev, cand, len) + out[len ..])[t]
    {
    }
    assert r == Blend(z, hPrev, cand, len) + out[len ..];
  }
}
