/**
 * The single GRU layer of lib/gru.c (types of include/gru.h), running on the checked
 * kernels of lib/math_nn.c.  A layer owns its parameters and five run-state buffers, each
 * allocated zeroed; `Forward` is `gru_layer_forward`, `ForwardCorrected` the same pass with
 * the input projection kept.
 */
module GruLayer {
  import opened Status
  import opened Tensor
  import opened Activation
  import opened GruCell
  import Kernels

  /** GRULayerConfig: rows per call (input_dim), input width and hidden width. */
  datatype GruLayerConfig = GruLayerConfig(inputDim: nat, inputSize: nat, hiddenSize: nat)

  /** GRULayerRunState. */
  datatype GruLayerRunState = GruLayerRunState(
    hidden: seq<real>, input: seq<real>, reset: seq<real>, update: seq<real>, candidate: seq<real>)

  /** GRULayer. */
  datatype GruLayer = GruLayer(config: GruLayerConfig, weights: GruParams, state: GruLayerRunState)

  /** The sizes `init_gru_layer_weights` allocates: input side [input_size, h], hidden side [h, h], biases input_dim * h. */
  predicate WeightsShaped(c: GruLayerConfig, w: GruParams) {
    var m, n, h := c.inputDim, c.inputSize, c.hiddenSize;
    && |w.wir| == n * h && |w.wiz| == n * h && |w.win| == n * h
    && |w.whr| == h * h && |w.whz| == h * h && |w.whn| == h * h
    && |w.bir| == m * h && |w.biz| == m * h && |w.bin| == m * h
    && |w.bhr| == m * h && |w.bhz| == m * h && |w.bhn| == m * h
  }

  /** The sizes `init_gru_layer_run_state` allocates: input_dim * input_size for the input, input_dim * h for the rest. */
  predicate StateShaped(c: GruLayerConfig, s: GruLayerRunState) {
    var m, n, h := c.inputDim, c.inputSize, c.hiddenSize;
    && |s.hidden| == m * h && |s.input| == m * n
    && |s.reset| == m * h && |s.update| == m * h && |s.candidate| == m * h
  }

  predicate Shaped(l: GruLayer) {
    WeightsShaped(l.config, l.weights) && StateShaped(l.config, l.state)
  }

  predicate StateZero(s: GruLayerRunState) {
    AllZero(s.hidden) && AllZero(s.input) && AllZero(s.reset) && AllZero(s.update) && AllZero(s.candidate)
  }

  /** A shaped layer's parameters are big enough for every kernel call of a step. */
  lemma ShapedFits(l: GruLayer)
    requires Shaped(l)
    ensures InputFits(l.weights, l.config.inputDim, l.config.inputSize, l.config.hiddenSize)
    ensures HiddenFits(l.weights, l.config.inputDim, l.config.hiddenSize)
  {
  }

  /** `init_gru_layer_weights`: twelve zeroed arrays of the configured sizes. */
  function InitWeights(c: GruLayerConfig): (w: GruParams)
    ensures WeightsShaped(c, w) && AllParamsZero(w)
  {
    var m, n, h := c.inputDim, c.inputSize, c.hiddenSize;
    GruParams(Zeros(n * h), Zeros(n * h), Zeros(n * h), Zeros(h * h), Zeros(h * h), Zeros(h * h),
              Zeros(m * h), Zeros(m * h), Zeros(m * h), Zeros(m * h), Zeros(m * h), Zeros(m * h))
  }

  /** `init_gru_layer_run_state`: five zeroed buffers of the configured sizes. */
  function InitRunState(c: GruLayerConfig): (s: GruLayerRunState)
    ensures StateShaped(c, s) && StateZero(s)
  {
    var m, n, h := c.inputDim, c.inputSize, c.hiddenSize;
    GruLayerRunState(Zeros(m * h), Zeros(m * n), Zeros(m * h), Zeros(m * h), Zeros(m * h))
  }

  /** `init_gru_layer`: the configuration as given, zeroed parameters and run state. */
  function InitLayer(inputDim: nat, inputSize: nat, hiddenSize: nat): (l: GruLayer)
    ensures l.config == GruLayerConfig(inputDim, inputSize, hiddenSize)
    ensures Shaped(l) && AllParamsZero(l.weights) && StateZero(l.state)
  {
    var c := GruLayerConfig(inputDim, inputSize, hiddenSize);
    GruLayer(c, InitWeights(c), InitRunState(c))
  }

  // ---------------------------------------------------------------------------
  // Teardown

  /** The seventeen heap arrays of a layer. */
  datatype GruBuffer =
    | WIr | WIz | WIn | WHr | WHz | WHn | BIr | BIz | BIn | BHr | BHz | BHn
    | HiddenBuf | InputBuf | ResetBuf | UpdateBuf | CandidateBuf
  {
    predicate IsWeight() {
      !(HiddenBuf? || InputBuf? || ResetBuf? || UpdateBuf? || CandidateBuf?)
    }
  }

  const RunStateBuffers: set<GruBuffer> := {HiddenBuf, InputBuf, ResetBuf, UpdateBuf, CandidateBuf}
  const WeightBuffers: set<GruBuffer> := {WIr, WIz, WIn, WHr, WHz, WHn, BIr, BIz, BIn, BHr, BHz, BHn}

  /** Every array is a run-state buffer or a parameter array, never both. */
  lemma BuffersPartition()
    ensures forall b: GruBuffer :: b in RunStateBuffers <==> !b.IsWeight()
    ensures forall b: GruBuffer :: b in WeightBuffers <==> b.IsWeight()
  {
    forall b: GruBuffer
      ensures b in RunStateBuffers <==> !b.IsWeight()
      ensures b in WeightBuffers <==> b.IsWeight()
    {
      match b
      case HiddenBuf =>
      case InputBuf =>
      case ResetBuf =>
      case UpdateBuf =>
      case CandidateBuf =>
      case _ =>
    }
  }

  /** `free_gru_layer(layer, free_weights)`: the arrays it frees. */
  function FreeLayer(freeWeights: bool): (freed: set<GruBuffer>)
    ensures forall b: GruBuffer :: b in freed <==> !b.IsWeight() || freeWeights
  {
    BuffersPartition();
    RunStateBuffers + (if freeWeights then WeightBuffers else {})
  }

  // ---------------------------------------------------------------------------
  // Forward pass

  /**
   * Every kernel call of `gru_layer_forward` as written succeeds: the six `matmul` calls pass
   * the dimension check and the FLT_MAX guard, and m * h passes the elementwise kernels'
   * MAX_DIM check.  The candidate's hidden-side product is over r * h_prev, with r the code's
   * reset gate.
   */
  predicate AsWrittenRuns(act: Activations, w: GruParams, x: seq<real>, hPrev: seq<real>, m: nat, n: nat, h: nat)
    requires HiddenFits(w, m, h) && m * h <= |hPrev|
  {
    && m * h <= MAX_DIM
    && Kernels.Multiplies(x, w.wir, m, n, h) && Kernels.Multiplies(hPrev, w.whr, m, h, h)
    && Kernels.Multiplies(x, w.wiz, m, n, h) && Kernels.Multiplies(hPrev, w.whz, m, h, h)
    && Kernels.Multiplies(x, w.win, m, n, h)
    && Kernels.Multiplies(Hadamard(GatesAsWritten(act, w, hPrev, m, h).reset, hPrev, m * h), w.whn, m, h, h)
  }

  /** The same for the corrected pass, whose candidate reads the intended reset gate. */
  predicate CorrectedRuns(act: Activations, w: GruParams, x: seq<real>, hPrev: seq<real>, m: nat, n: nat, h: nat)
    requires InputFits(w, m, n, h) && HiddenFits(w, m, h) && m * n <= |x| && m * h <= |hPrev|
  {
    && m * h <= MAX_DIM
    && Kernels.Multiplies(x, w.wir, m, n, h) && Kernels.Multiplies(hPrev, w.whr, m, h, h)
    && Kernels.Multiplies(x, w.wiz, m, n, h) && Kernels.Multiplies(hPrev, w.whz, m, h, h)
    && Kernels.Multiplies(x, w.win, m, n, h)
    && Kernels.Multiplies(Hadamard(GatesOf(act, w, x, hPrev, m, n, h).reset, hPrev, m * h), w.whn, m, h, h)
  }

  /**
   * Zero parameters, as `init_gru_layer` leaves them, never trip the FLT_MAX guard: once the
   * dimensions pass and m * h is within MAX_DIM, every kernel call of either pass succeeds.
   */
  lemma ZeroParamsRun(act: Activations, w: GruParams, x: seq<real>, hPrev: seq<real>, m: nat, n: nat, h: nat)
    requires InputFits(w, m, n, h) && HiddenFits(w, m, h) && m * n <= |x| && m * h <= |hPrev|
    requires AllParamsZero(w) && Kernels.DimsOk(m, n, h) && m * h <= MAX_DIM
    ensures AsWrittenRuns(act, w, x, hPrev, m, n, h) && CorrectedRuns(act, w, x, hPrev, m, n, h)
  {
    Kernels.ZeroOperandNoOverflow(x, w.wir, m, n, h);
    Kernels.ZeroOperandNoOverflow(x, w.wiz, m, n, h);
    Kernels.ZeroOperandNoOverflow(x, w.win, m, n, h);
    Kernels.ZeroOperandNoOverflow(hPrev, w.whr, m, h, h);
    Kernels.ZeroOperandNoOverflow(hPrev, w.whz, m, h, h);
    Kernels.ZeroOperandNoOverflow(Hadamard(GatesAsWritten(act, w, hPrev, m, h).reset, hPrev, m * h), w.whn, m, h, h);
    Kernels.ZeroOperandNoOverflow(Hadamard(GatesOf(act, w, x, hPrev, m, n, h).reset, hPrev, m * h), w.whn, m, h, h);
  }

  /**
   * A reset or update gate as lib/gru.c computes it: `matmul`/`add` of the input side, then
   * `matmul`/`add` of the hidden side into the same buffer, then `sigmoid_act_vec` in place.
   */
  method GateAsWritten(act: Activations, out: seq<real>, x: seq<real>, wi: seq<real>, bi: seq<real>,
                       hPrev: seq<real>, wh: seq<real>, bh: seq<real>, m: nat, n: nat, h: nat)
    returns (st: MathStatus, r: seq<real>)
    requires |out| == m * h && m * n <= |x| && n * h <= |wi| && m * h <= |bi|
    requires m * h <= |hPrev| && h * h <= |wh| && m * h <= |bh|
    ensures |r| == m * h
    ensures st == Success ==> Kernels.DimsOk(m, n, h) && m * h <= MAX_DIM
    ensures st == Success <==>
              Kernels.Multiplies(x, wi, m, n, h) && Kernels.Multiplies(hPrev, wh, m, h, h) && m * h <= MAX_DIM
    ensures st == Success ==> r == Sigmoids(act, Affine(hPrev, wh, bh, m, h, h), m * h)
  {
    var st1, r1 := Kernels.AffineInto(out, x, wi, bi, m, n, h);
    var st2, r2 := Kernels.AffineInto(r1, hPrev, wh, bh, m, h, h);
    var st3, r3 := Kernels.SigmoidVec(act, r2, r2, m * h);
    st, r := First(st1, First(st2, st3)), r3;
  }

  /**
   * The candidate as lib/gru.c computes it: input side into the buffer, r_h_prev = r * h_prev
   * with `mul` into an uninitialised local array, hidden side over r_h_prev into the same
   * buffer, `tanh_act_vec` in place.  The array's prior contents are written here as zeros;
   * they matter only when `mul` refuses (m * h > MAX_DIM), and then the status is not
   * Success and the result is not promised.
   */
  method CandidateAsWritten(act: Activations, out: seq<real>, x: seq<real>, win: seq<real>, bin: seq<real>,
                            r: seq<real>, hPrev: seq<real>, whn: seq<real>, bhn: seq<real>, m: nat, n: nat, h: nat)
    returns (st: MathStatus, c: seq<real>)
    requires |out| == m * h && m * n <= |x| && n * h <= |win| && m * h <= |bin|
    requires m * h <= |r| && m * h <= |hPrev| && h * h <= |whn| && m * h <= |bhn|
    ensures |c| == m * h
    ensures st == Success <==>
              && m * h <= MAX_DIM && Kernels.Multiplies(x, win, m, n, h)
              && Kernels.Multiplies(Hadamard(r, hPrev, m * h), whn, m, h, h)
    ensures st == Success ==> c == Tanhs(act, Affine(Hadamard(r, hPrev, m * h), whn, bhn, m, h, h), m * h)
  {
    var st1, c1 := Kernels.AffineInto(out, x, win, bin, m, n, h);
    var st2, rh := Kernels.Mul(Zeros(m * h), r, hPrev, m * h);
    var st3, c2 := Kernels.AffineInto(c1, rh, whn, bhn, m, h, h);
    var st4, c3 := Kernels.TanhVec(act, c2, c2, m * h);
    st, c := First(st1, First(st2, First(st3, st4))), c3;
    if m * h <= MAX_DIM {
      assert rh == Hadamard(r, hPrev, m * h);
    }
    if st == Success {
      assert st2 == Success && st3 == Success && st4 == Success;
      assert rh == Hadamard(r, hPrev, m * h);
      assert c2 == Affine(rh, whn, bhn, m, h, h);
    }
  }

  /**
   * `gru_layer_forward(layer, input, h_prev)`.  The parameters and h_prev are never written;
   * the input buffer receives the first input_dim * input_size floats of `input`; when every
   * kernel call succeeds, the gate buffers hold the code's gates and the hidden buffer the
   * code's step, which depends on h_prev alone.
   */
  method Forward(act: Activations, layer: GruLayer, input: seq<real>, hPrev: seq<real>)
    returns (st: MathStatus, layer': GruLayer)
    requires Shaped(layer)
    requires layer.config.inputDim * layer.config.inputSize <= |input|
    requires layer.config.inputDim * layer.config.hiddenSize <= |hPrev|
    ensures layer'.config == layer.config && layer'.weights == layer.weights && Shaped(layer')
    ensures layer'.state.input == input[..layer.config.inputDim * layer.config.inputSize]
    ensures st == Success ==> Kernels.DimsOk(layer.config.inputDim, layer.config.inputSize, layer.config.hiddenSize)
    ensures var m, n, h := layer.config.inputDim, layer.config.inputSize, layer.config.hiddenSize;
            (ShapedFits(layer);
             st == Success <==> AsWrittenRuns(act, layer.weights, input, hPrev, m, n, h))
    ensures st == Success ==>
              var m, h := layer.config.inputDim, layer.config.hiddenSize;
              (ShapedFits(layer);
               var g := GatesAsWritten(act, layer.weights, hPrev, m, h);
               && layer'.state.reset == g.reset
               && layer'.state.update == g.update
               && layer'.state.candidate == g.candidate
               && layer'.state.hidden == StepAsWritten(act, layer.weights, hPrev, m, h))
  {
    var m, n, h := layer.config.inputDim, layer.config.inputSize, layer.config.hiddenSize;
    var w, s := layer.weights, layer.state;
    var x := CopyInto(s.input, 0, input, m * n).value;
    assert x == input[..m * n];
    var st1, r := GateAsWritten(act, s.reset, x, w.wir, w.bir, hPrev, w.whr, w.bhr, m, n, h);
    var st2, z := GateAsWritten(act, s.update, x, w.wiz, w.biz, hPrev, w.whz, w.bhz, m, n, h);
    var st3, c := CandidateAsWritten(act, s.candidate, x, w.win, w.bin, r, hPrev, w.whn, w.bhn, m, n, h);
    var hNew := BlendInto(s.hidden, z, hPrev, c, m * h);
    st := First(st1, First(st2, st3));
    layer' := layer.(state := GruLayerRunState(hNew, x, r, z, c));
    InputSidePrefix(x, input, w, m, n, h);
    if st1 == Success {
      assert r == GatesAsWritten(act, w, hPrev, m, h).reset;
    }
  }

  /** The input-side guards see only the first m * n input floats. */
  lemma InputSidePrefix(x: seq<real>, input: seq<real>, w: GruParams, m: nat, n: nat, h: nat)
    requires InputFits(w, m, n, h) && m * n <= |input| && x == input[..m * n]
    ensures Kernels.Multiplies(x, w.wir, m, n, h) == Kernels.Multiplies(input, w.wir, m, n, h)
    ensures Kernels.Multiplies(x, w.wiz, m, n, h) == Kernels.Multiplies(input, w.wiz, m, n, h)
    ensures Kernels.Multiplies(x, w.win, m, n, h) == Kernels.Multiplies(input, w.win, m, n, h)
  {
    Kernels.NoOverflowOfPrefix(x, input, w.wir, m, n, h);
    Kernels.NoOverflowOfPrefix(x, input, w.wiz, m, n, h);
    Kernels.NoOverflowOfPrefix(x, input, w.win, m, n, h);
  }

  /** A gate's pre-activation with both projections: input side into `out`, hidden side into `tmp`, then `add(out, out, tmp)`. */
  method SummedProjections(out: seq<real>, tmp: seq<real>, x: seq<real>, wi: seq<real>, bi: seq<real>,
                           hs: seq<real>, wh: seq<real>, bh: seq<real>, m: nat, n: nat, h: nat)
    returns (st: MathStatus, r: seq<real>, tmp': seq<real>)
    requires |out| == m * h && |tmp| == m * h && m * n <= |x| && n * h <= |wi| && m * h <= |bi|
    requires m * h <= |hs| && h * h <= |wh| && m * h <= |bh|
    ensures |r| == m * h && |tmp'| == m * h
    ensures st == Success <==>
              Kernels.Multiplies(x, wi, m, n, h) && Kernels.Multiplies(hs, wh, m, h, h) && m * h <= MAX_DIM
    ensures st == Success ==> r == Sum(Affine(x, wi, bi, m, n, h), Affine(hs, wh, bh, m, h, h), m * h)
  {
    var st1, r1 := Kernels.AffineInto(out, x, wi, bi, m, n, h);
    var st2, t1 := Kernels.AffineInto(tmp, hs, wh, bh, m, h, h);
    var st3, r2 := Kernels.Add(r1, r1, t1, m * h);
    st, r, tmp' := First(st1, First(st2, st3)), r2, t1;
    if st == Success {
      assert Sum(r1, t1, m * h) == Sum(Affine(x, wi, bi, m, n, h), Affine(hs, wh, bh, m, h, h), m * h);
    }
  }

  /** A reset or update gate with both projections summed, then `sigmoid_act_vec` in place. */
  method SummedGate(act: Activations, out: seq<real>, tmp: seq<real>, x: seq<real>, wi: seq<real>, bi: seq<real>,
                    hPrev: seq<real>, wh: seq<real>, bh: seq<real>, m: nat, n: nat, h: nat)
    returns (st: MathStatus, r: seq<real>, tmp': seq<real>)
    requires |out| == m * h && |tmp| == m * h && m * n <= |x| && n * h <= |wi| && m * h <= |bi|
    requires m * h <= |hPrev| && h * h <= |wh| && m * h <= |bh|
    ensures |r| == m * h && |tmp'| == m * h
    ensures st == Success <==>
              Kernels.Multiplies(x, wi, m, n, h) && Kernels.Multiplies(hPrev, wh, m, h, h) && m * h <= MAX_DIM
    ensures st == Success ==>
              r == Sigmoids(act, Sum(Affine(x, wi, bi, m, n, h), Affine(hPrev, wh, bh, m, h, h), m * h), m * h)
  {
    var st1, p;
    st1, p, tmp' := SummedProjections(out, tmp, x, wi, bi, hPrev, wh, bh, m, n, h);
    var st2;
    st2, r := Kernels.SigmoidVec(act, p, p, m * h);
    st := First(st1, st2);
  }

  /** The candidate with both projections summed: r_h_prev by `mul`, then the projections, then `tanh_act_vec`. */
  method SummedCandidate(act: Activations, out: seq<real>, tmp: seq<real>, x: seq<real>, win: seq<real>, bin: seq<real>,
                         r: seq<real>, hPrev: seq<real>, whn: seq<real>, bhn: seq<real>, m: nat, n: nat, h: nat)
    returns (st: MathStatus, c: seq<real>, tmp': seq<real>)
    requires |out| == m * h && |tmp| == m * h && m * n <= |x| && n * h <= |win| && m * h <= |bin|
    requires m * h <= |r| && m * h <= |hPrev| && h * h <= |whn| && m * h <= |bhn|
    ensures |c| == m * h && |tmp'| == m * h
    ensures st == Success <==>
              && m * h <= MAX_DIM && Kernels.Multiplies(x, win, m, n, h)
              && Kernels.Multiplies(Hadamard(r, hPrev, m * h), whn, m, h, h)
    ensures st == Success ==>
              c == Tanhs(act, Sum(Affine(x, win, bin, m, n, h),
                                  Affine(Hadamard(r, hPrev, m * h), whn, bhn, m, h, h), m * h), m * h)
  {
    var st1, rh := Kernels.Mul(Zeros(m * h), r, hPrev, m * h);
    var st2, p;
    st2, p, tmp' := SummedProjections(out, tmp, x, win, bin, rh, whn, bhn, m, n, h);
    var st3;
    st3, c := Kernels.TanhVec(act, p, p, m * h);
    st := First(st1, First(st2, st3));
    if m * h <= MAX_DIM {
      assert rh == Hadamard(r, hPrev, m * h);
    }
  }

  /** The GRU gates read only the first m * n entries of the input. */
  lemma GatesOfPrefix(act: Activations, w: GruParams, x: seq<real>, input: seq<real>, hPrev: seq<real>, m: nat, n: nat, h: nat)
    requires InputFits(w, m, n, h) && HiddenFits(w, m, h) && m * n <= |input| && m * h <= |hPrev|
    requires x == input[..m * n]
    ensures GatesOf(act, w, x, hPrev, m, n, h) == GatesOf(act, w, input, hPrev, m, n, h)
    ensures Step(act, w, x, hPrev, m, n, h) == Step(act, w, input, hPrev, m, n, h)
  {
    ProductOfPrefix(x, input, w.wir, m, n, h);
    ProductOfPrefix(x, input, w.wiz, m, n, h);
    ProductOfPrefix(x, input, w.win, m, n, h);
  }

  /**
   * `gru_layer_forward` with each hidden-side projection accumulated in a scratch buffer and
   * added to the input-side one, so that a successful pass computes the GRU step of `GruCell`.
   */
  method ForwardCorrected(act: Activations, layer: GruLayer, input: seq<real>, hPrev: seq<real>)
    returns (st: MathStatus, layer': GruLayer)
    requires Shaped(layer)
    requires layer.config.inputDim * layer.config.inputSize <= |input|
    requires layer.config.inputDim * layer.config.hiddenSize <= |hPrev|
    ensures layer'.config == layer.config && layer'.weights == layer.weights && Shaped(layer')
    ensures layer'.state.input == input[..layer.config.inputDim * layer.config.inputSize]
    ensures var m, n, h := layer.config.inputDim, layer.config.inputSize, layer.config.hiddenSize;
            (ShapedFits(layer);
             st == Success <==> CorrectedRuns(act, layer.weights, input, hPrev, m, n, h))
    ensures st == Success ==>
              var m, n, h := layer.config.inputDim, layer.config.inputSize, layer.config.hiddenSize;
              (ShapedFits(layer);
               var g := GatesOf(act, layer.weights, input, hPrev, m, n, h);
               && layer'.state.reset == g.reset
               && layer'.state.update == g.update
               && layer'.state.candidate == g.candidate
               && layer'.state.hidden == Step(act, layer.weights, input, hPrev, m, n, h))
  {
    var m, n, h := layer.config.inputDim, layer.config.inputSize, layer.config.hiddenSize;
    var w, s := layer.weights, layer.state;
    var x := CopyInto(s.input, 0, input, m * n).value;
    assert x == input[..m * n];
    var tmp := Zeros(m * h);
    var st1, r, t1 := SummedGate(act, s.reset, tmp, x, w.wir, w.bir, hPrev, w.whr, w.bhr, m, n, h);
    var st2, z, t2 := SummedGate(act, s.update, t1, x, w.wiz, w.biz, hPrev, w.whz, w.bhz, m, n, h);
    var st3, c, t3 := SummedCandidate(act, s.candidate, t2, x, w.win, w.bin, r, hPrev, w.whn, w.bhn, m, n, h);
    var hNew := BlendInto(s.hidden, z, hPrev, c, m * h);
    st := First(st1, First(st2, st3));
    layer' := layer.(state := GruLayerRunState(hNew, x, r, z, c));
    ShapedFits(layer);
    GatesOfPrefix(act, w, x, input, hPrev, m, n, h);
    InputSidePrefix(x, input, w, m, n, h);
  }
}
