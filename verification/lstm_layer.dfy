/**
 * The LSTM layer of lib/lstm.c (types of include/lstm.h), running on the checked kernels of
 * lib/math_nn.c.  A layer owns sixteen parameter arrays and seven run-state buffers, each
 * allocated zeroed.  `Forward` is `lstm_layer_forward` as written; `ForwardCorrected` is the
 * pass its comments describe.
 */
module LstmLayer {
  import opened Status
  import opened Tensor
  import opened Activation
  import opened LstmCell
  import Kernels

  /** LSTMLayerConfig: rows per call (input_dim), input width and hidden width. */
  datatype LstmLayerConfig = LstmLayerConfig(inputDim: nat, inputSize: nat, hiddenSize: nat)

  /** LSTMLayerRunState, in the field order of include/lstm.h. */
  datatype LstmLayerRunState = LstmLayerRunState(
    input: seq<real>, forget: seq<real>, inputGate: seq<real>, output: seq<real>,
    node: seq<real>, cell: seq<real>, hidden: seq<real>)

  /** LSTMLayer. */
  datatype LstmLayer = LstmLayer(config: LstmLayerConfig, weights: LstmParams, state: LstmLayerRunState)

  /** The sizes `init_lstm_layer_weights` allocates: input side [input_size, h], hidden side [h, h], biases input_dim * h. */
  predicate WeightsShaped(c: LstmLayerConfig, w: LstmParams) {
    var m, n, h := c.inputDim, c.inputSize, c.hiddenSize;
    && |w.wii| == n * h && |w.wif| == n * h && |w.wig| == n * h && |w.wio| == n * h
    && |w.whi| == h * h && |w.whf| == h * h && |w.whg| == h * h && |w.who| == h * h
    && |w.bii| == m * h && |w.bif| == m * h && |w.big| == m * h && |w.bio| == m * h
    && |w.bhi| == m * h && |w.bhf| == m * h && |w.bhg| == m * h && |w.bho| == m * h
  }

  /** The sizes `init_lstm_layer_run_state` allocates: input_dim * input_size for the input, input_dim * h for the rest. */
  predicate StateShaped(c: LstmLayerConfig, s: LstmLayerRunState) {
    var m, n, h := c.inputDim, c.inputSize, c.hiddenSize;
    && |s.input| == m * n
    && |s.forget| == m * h && |s.inputGate| == m * h && |s.output| == m * h
    && |s.node| == m * h && |s.cell| == m * h && |s.hidden| == m * h
  }

  predicate Shaped(l: LstmLayer) {
    WeightsShaped(l.config, l.weights) && StateShaped(l.config, l.state)
  }

  predicate StateZero(s: LstmLayerRunState) {
    && AllZero(s.input) && AllZero(s.forget) && AllZero(s.inputGate) && AllZero(s.output)
    && AllZero(s.node) && AllZero(s.cell) && AllZero(s.hidden)
  }

  /** `init_lstm_layer_weights`: sixteen zeroed arrays of the configured sizes. */
  function InitWeights(c: LstmLayerConfig): (w: LstmParams)
    ensures WeightsShaped(c, w) && AllParamsZero(w)
  {
    var m, n, h := c.inputDim, c.inputSize, c.hiddenSize;
    var wi, wh, b := Zeros(n * h), Zeros(h * h), Zeros(m * h);
    LstmParams(wi, wi, wi, wi, wh, wh, wh, wh, b, b, b, b, b, b, b, b)
  }

  /** `init_lstm_layer_run_state`: seven zeroed buffers of the configured sizes. */
  function InitRunState(c: LstmLayerConfig): (s: LstmLayerRunState)
    ensures StateShaped(c, s) && StateZero(s)
  {
    var m, n, h := c.inputDim, c.inputSize, c.hiddenSize;
    var b := Zeros(m * h);
    LstmLayerRunState(Zeros(m * n), b, b, b, b, b, b)
  }

  /** `init_lstm_layer`: the configuration as given, zeroed parameters and run state. */
  function InitLayer(inputDim: nat, inputSize: nat, hiddenSize: nat): (l: LstmLayer)
    ensures l.config == LstmLayerConfig(inputDim, inputSize, hiddenSize)
    ensures Shaped(l) && AllParamsZero(l.weights) && StateZero(l.state)
  {
    var c := LstmLayerConfig(inputDim, inputSize, hiddenSize);
    LstmLayer(c, InitWeights(c), InitRunState(c))
  }

  // ---------------------------------------------------------------------------
  // Teardown

  /** The twenty-three heap arrays of a layer. */
  datatype LstmBuffer =
    | WIi | WIf | WIg | WIo | WHi | WHf | WHg | WHo
    | BIi | BIf | BIg | BIo | BHi | BHf | BHg | BHo
    | InputBuf | ForgetBuf | InputGateBuf | OutputBuf | NodeBuf | CellBuf | HiddenBuf
  {
    predicate IsWeight() {
      !(InputBuf? || ForgetBuf? || InputGateBuf? || OutputBuf? || NodeBuf? || CellBuf? || HiddenBuf?)
    }
  }

  const RunStateBuffers: set<LstmBuffer> := {InputBuf, ForgetBuf, InputGateBuf, OutputBuf, NodeBuf, CellBuf, HiddenBuf}
  const WeightBuffers: set<LstmBuffer> :=
    {WIi, WIf, WIg, WIo, WHi, WHf, WHg, WHo, BIi, BIf, BIg, BIo, BHi, BHf, BHg, BHo}

  /** Every array is a run-state buffer or a parameter array, never both. */
  lemma BuffersPartition()
    ensures forall b: LstmBuffer :: b in RunStateBuffers <==> !b.IsWeight()
    ensures forall b: LstmBuffer :: b in WeightBuffers <==> b.IsWeight()
  {
    forall b: LstmBuffer
      ensures b in RunStateBuffers <==> !b.IsWeight()
      ensures b in WeightBuffers <==> b.IsWeight()
    {
      match b
      case InputBuf =>
      case ForgetBuf =>
      case InputGateBuf =>
      case OutputBuf =>
      case NodeBuf =>
      case CellBuf =>
      case HiddenBuf =>
      case _ =>
    }
  }

  /** `free_lstm_layer(layer, free_weights)`: the run state always, the parameters only when asked. */
  function FreeLayer(freeWeights: bool): (freed: set<LstmBuffer>)
    ensures forall b: LstmBuffer :: b in freed <==> !b.IsWeight() || freeWeights
  {
    BuffersPartition();
    RunStateBuffers + (if freeWeights then WeightBuffers else {})
  }

  // ---------------------------------------------------------------------------
  // Kernel sequences of the forward pass

  /** `matmul` on plain buffers. */
  method MatMulInto(out: seq<real>, a: seq<real>, b: seq<real>, m: nat, n: nat, p: nat)
    returns (st: MathStatus, r: seq<real>)
    requires Kernels.DimsOk(m, n, p) ==> m * p <= |out| && m * n <= |a| && n * p <= |b|
    ensures |r| == |out|
    ensures st == Success <==> Kernels.DimsOk(m, n, p) && Kernels.NoOverflow(a, b, m, n, p)
    ensures st == Success ==> r == Product(a, b, m, n, p) + out[m * p ..]
  {
    var st0, r0 := Kernels.MatMul(Buf(out), Buf(a), Buf(b), m, n, p);
    st, r := st0, r0.data;
  }

  /**
   * The three `add` calls that finish a gate's pre-activation: the hidden-side product added
   * over addLen entries, then the two biases over all len entries.
   */
  method AddTerms(r1: seq<real>, t1: seq<real>, bi: seq<real>, bh: seq<real>, len: nat, addLen: nat)
    returns (st: MathStatus, r: seq<real>)
    requires |r1| == len && |t1| == len && addLen <= len && len <= |bi| && len <= |bh|
    ensures |r| == len
    ensures st == Success <==> len <= MAX_DIM
    ensures st == Success ==> r == Sum(Sum(AddPrefix(r1, t1, addLen), bi, len), bh, len)
  {
    var st3, r2 := Kernels.Add(r1, r1, t1, addLen);
    var st4, r3 := Kernels.Add(r2, r2, bi, len);
    var st5, r4 := Kernels.Add(r3, r3, bh, len);
    st, r := First(st3, First(st4, st5)), r4;
    if st == Success {
      assert r2 == AddPrefix(r1, t1, addLen);
    }
  }

  /**
   * Every kernel call of `lstm_layer_forward` as written succeeds: the eight `matmul` calls,
   * the input gate's hidden side taken as the swapped (W_hi, h_prev), pass the dimension check
   * and the FLT_MAX guard, and m * h passes the elementwise kernels' MAX_DIM check.
   */
  predicate AsWrittenRuns(w: LstmParams, x: seq<real>, hPrev: seq<real>, m: nat, n: nat, h: nat) {
    && m * h <= MAX_DIM
    && Kernels.Multiplies(x, w.wii, m, n, h) && Kernels.Multiplies(w.whi, hPrev, m, h, h)
    && Kernels.Multiplies(x, w.wif, m, n, h) && Kernels.Multiplies(hPrev, w.whf, m, h, h)
    && Kernels.Multiplies(x, w.wig, m, n, h) && Kernels.Multiplies(hPrev, w.whg, m, h, h)
    && Kernels.Multiplies(x, w.wio, m, n, h) && Kernels.Multiplies(hPrev, w.who, m, h, h)
  }

  /** The same for the corrected pass, whose input gate multiplies h_prev by W_hi. */
  predicate CorrectedRuns(w: LstmParams, x: seq<real>, hPrev: seq<real>, m: nat, n: nat, h: nat) {
    && m * h <= MAX_DIM
    && Kernels.Multiplies(x, w.wii, m, n, h) && Kernels.Multiplies(hPrev, w.whi, m, h, h)
    && Kernels.Multiplies(x, w.wif, m, n, h) && Kernels.Multiplies(hPrev, w.whf, m, h, h)
    && Kernels.Multiplies(x, w.wig, m, n, h) && Kernels.Multiplies(hPrev, w.whg, m, h, h)
    && Kernels.Multiplies(x, w.wio, m, n, h) && Kernels.Multiplies(hPrev, w.who, m, h, h)
  }

  /**
   * Zero parameters, as `init_lstm_layer` leaves them, never trip the FLT_MAX guard: once the
   * dimensions pass and m * h is within MAX_DIM the corrected pass succeeds, and so does the
   * pass as written when its swapped call reads within W_hi and h_prev.
   */
  lemma ZeroParamsRun(w: LstmParams, x: seq<real>, hPrev: seq<real>, m: nat, n: nat, h: nat)
    requires Fits(w, m, n, h) && m * n <= |x| && m * h <= |hPrev|
    requires AllParamsZero(w) && Kernels.DimsOk(m, n, h) && m * h <= MAX_DIM
    ensures CorrectedRuns(w, x, hPrev, m, n, h)
    ensures m * h <= |w.whi| && h * h <= |hPrev| ==> AsWrittenRuns(w, x, hPrev, m, n, h)
  {
    Kernels.ZeroOperandNoOverflow(x, w.wii, m, n, h);
    Kernels.ZeroOperandNoOverflow(x, w.wif, m, n, h);
    Kernels.ZeroOperandNoOverflow(x, w.wig, m, n, h);
    Kernels.ZeroOperandNoOverflow(x, w.wio, m, n, h);
    Kernels.ZeroOperandNoOverflow(hPrev, w.whi, m, h, h);
    Kernels.ZeroOperandNoOverflow(hPrev, w.whf, m, h, h);
    Kernels.ZeroOperandNoOverflow(hPrev, w.whg, m, h, h);
    Kernels.ZeroOperandNoOverflow(hPrev, w.who, m, h, h);
    if m * h <= |w.whi| && h * h <= |hPrev| {
      Kernels.ZeroOperandNoOverflow(w.whi, hPrev, m, h, h);
    }
  }

  /**
   * One gate's pre-activation as lstm_layer_forward computes it: `matmul(out, x, W_i)`,
   * `matmul(tmp, a2, b2)`, `add(out, out, tmp, addLen)`, then the two biases added over
   * m * h entries.  The code passes (h_prev, W_h) as (a2, b2), except for the input gate, and
   * m * h as addLen, except for the forget gate.
   */
  method PreInto(out: seq<real>, tmp: seq<real>, x: seq<real>, wi: seq<real>, a2: seq<real>, b2: seq<real>,
                 bi: seq<real>, bh: seq<real>, m: nat, n: nat, h: nat, addLen: nat)
    returns (st: MathStatus, r: seq<real>, tmp': seq<real>)
    requires |out| == m * h && |tmp| == m * h && addLen <= m * h
    requires Kernels.DimsOk(m, n, h) ==> m * n <= |x| && n * h <= |wi|
    requires Kernels.DimsOk(m, h, h) ==> m * h <= |a2| && h * h <= |b2|
    requires m * h <= |bi| && m * h <= |bh|
    ensures |r| == m * h && |tmp'| == m * h
    ensures st == Success ==> Kernels.DimsOk(m, n, h) && Kernels.DimsOk(m, h, h)
    ensures st == Success <==>
              Kernels.Multiplies(x, wi, m, n, h) && Kernels.Multiplies(a2, b2, m, h, h) && m * h <= MAX_DIM
    ensures st == Success ==>
              && tmp' == Product(a2, b2, m, h, h)
              && r == Sum(Sum(AddPrefix(Product(x, wi, m, n, h), Product(a2, b2, m, h, h), addLen),
                              bi, m * h), bh, m * h)
  {
    var st1, r1 := MatMulInto(out, x, wi, m, n, h);
    var st2, t1 := MatMulInto(tmp, a2, b2, m, h, h);
    var st3, r4 := AddTerms(r1, t1, bi, bh, m * h, addLen);
    st, r, tmp' := First(st1, First(st2, st3)), r4, t1;
  }

  /** The pre-activation with both projections over all m * h entries is `LstmCell.Pre`. */
  lemma PreIntoIsPre(x: seq<real>, wi: seq<real>, bi: seq<real>, hPrev: seq<real>, wh: seq<real>, bh: seq<real>,
                     m: nat, n: nat, h: nat)
    requires m * n <= |x| && n * h <= |wi| && m * h <= |bi|
    requires m * h <= |hPrev| && h * h <= |wh| && m * h <= |bh|
    ensures Sum(Sum(AddPrefix(Product(x, wi, m, n, h), Product(hPrev, wh, m, h, h), m * h), bi, m * h), bh, m * h)
            == Pre(x, wi, bi, hPrev, wh, bh, m, n, h)
  {
    var p := Product(x, wi, m, n, h);
    assert AddPrefix(p, Product(hPrev, wh, m, h, h), m * h) == Sum(p, Product(hPrev, wh, m, h, h), m * h);
  }

  /** Activation of a gate buffer in place. */
  method SigmoidInPlace(act: Activations, buf: seq<real>) returns (st: MathStatus, r: seq<real>)
    ensures |r| == |buf|
    ensures st == Success <==> |buf| <= MAX_DIM
    ensures st == Success ==> r == Sigmoids(act, buf, |buf|)
  {
    st, r := Kernels.SigmoidVec(act, buf, buf, |buf|);
  }

  method TanhInPlace(act: Activations, buf: seq<real>) returns (st: MathStatus, r: seq<real>)
    ensures |r| == |buf|
    ensures st == Success <==> |buf| <= MAX_DIM
    ensures st == Success ==> r == Tanhs(act, buf, |buf|)
  {
    st, r := Kernels.TanhVec(act, buf, buf, |buf|);
  }

  /**
   * The swapped input-gate call `matmul(hidden_state_buffer, W_hi, h_prev, m, h, h)` of line
   * 138 passes the kernel's dimension check and has a read out of range: W_hi holds h rows of
   * h floats, not m, or h_prev lacks the h * h floats the call takes from it.
   */
  predicate SwappedOutOfRange(m: nat, h: nat, hPrevLen: nat) {
    Kernels.DimsOk(m, h, h) && (m > h || h * h > hPrevLen)
  }

  /** With h > 0, m rows of h floats fit in h * h floats exactly when m <= h. */
  lemma RowsFit(m: nat, h: nat)
    requires 0 < h
    ensures m * h <= h * h <==> m <= h
  {
    if m <= h {
      MulMono(m, h, h);
    } else {
      MulMono(h + 1, m, h);
    }
  }

  /**
   * The gate block of lines 137-166 as written: input gate with the swapped `matmul(buf, W_hi,
   * h_prev)`, forget gate with its hidden side added over h entries, input node and output
   * gate; the hidden-state buffer serves as the scratch for every hidden-side product.  The
   * swapped call takes W_hi and h_prev as they are: `None` when its scan reads past the end of
   * one of them.
   */
  method GatesPassAsWritten(act: Activations, w: LstmParams, s: LstmLayerRunState, hPrev: seq<real>,
                            m: nat, n: nat, h: nat)
    returns (st: MathStatus, r: Option<LstmLayerRunState>)
    requires Fits(w, m, n, h) && |s.input| == m * n && 1 <= m
    requires |s.forget| == m * h && |s.inputGate| == m * h && |s.output| == m * h
    requires |s.node| == m * h && |s.cell| == m * h && |s.hidden| == m * h
    requires m * h <= |hPrev|
    ensures r.None? <==> Kernels.DimsOk(m, h, h) && Kernels.ReadsPast(w.whi, hPrev, m, h, h)
    ensures r.Some? && Kernels.DimsOk(m, h, h) && !(m * h <= |w.whi| && h * h <= |hPrev|) ==>
              st != Success && Kernels.SomeStepTrips(w.whi, hPrev, m, h, h)
    ensures r.Some? ==>
              var s' := r.value;
              && s'.input == s.input && s'.cell == s.cell
              && |s'.forget| == m * h && |s'.inputGate| == m * h && |s'.output| == m * h
              && |s'.node| == m * h && |s'.hidden| == m * h
    ensures r.Some? && st == Success ==> Kernels.DimsOk(m, h, h) && m * h <= |w.whi| && h * h <= |hPrev|
    ensures r.Some? ==> (st == Success <==> AsWrittenRuns(w, s.input, hPrev, m, n, h))
    ensures r.Some? && st == Success ==>
              (MulMono(1, m, h);
               var s', g := r.value, GatesAsWritten(act, w, s.input, hPrev, m, n, h);
               s'.inputGate == g.input && s'.forget == g.forget && s'.node == g.node && s'.output == g.output)
  {
    MulMono(1, m, h);
    var x := s.input;
    var st1a, r1 := MatMulInto(s.inputGate, x, w.wii, m, n, h);
    var st1b, t1o := Kernels.MatMulUnsized(s.hidden, w.whi, hPrev, m, h, h);
    if t1o.None? {
      return InvalidDim, None;
    }
    var t1 := t1o.value;
    var st1c, pi := AddTerms(r1, t1, w.bii, w.bhi, m * h, m * h);
    var st2, gi := SigmoidInPlace(act, pi);
    var st3, pf, t2 := PreInto(s.forget, t1, x, w.wif, hPrev, w.whf, w.bif, w.bhf, m, n, h, h);
    var st4, gf := SigmoidInPlace(act, pf);
    var st5, pg, t3 := PreInto(s.node, t2, x, w.wig, hPrev, w.whg, w.big, w.bhg, m, n, h, m * h);
    var st6, gg := TanhInPlace(act, pg);
    var st7, po, t4 := PreInto(s.output, t3, x, w.wio, hPrev, w.who, w.bio, w.bho, m, n, h, m * h);
    var st8, go := SigmoidInPlace(act, po);
    var st1 := First(st1a, First(st1b, st1c));
    st := First(First(First(st1, st2), First(st3, st4)), First(First(st5, st6), First(st7, st8)));
    r := Some(s.(forget := gf, inputGate := gi, output := go, node := gg, hidden := t4));
    if st == Success {
      assert pi == InputPreAsWritten(w, x, hPrev, m, n, h);
      assert pf == ForgetPreAsWritten(w, x, hPrev, m, n, h);
      PreIntoIsPre(x, w.wig, w.big, hPrev, w.whg, w.bhg, m, n, h);
      PreIntoIsPre(x, w.wio, w.bio, hPrev, w.who, w.bho, m, n, h);
    }
  }

  /** The gate block as its comments state it: h_prev W_h for every gate, each added over m * h entries. */
  method GatesPassCorrected(act: Activations, w: LstmParams, s: LstmLayerRunState, hPrev: seq<real>,
                            m: nat, n: nat, h: nat)
    returns (st: MathStatus, s': LstmLayerRunState)
    requires Fits(w, m, n, h) && |s.input| == m * n
    requires |s.forget| == m * h && |s.inputGate| == m * h && |s.output| == m * h
    requires |s.node| == m * h && |s.cell| == m * h && |s.hidden| == m * h
    requires m * h <= |hPrev|
    ensures s'.input == s.input && s'.cell == s.cell
    ensures |s'.forget| == m * h && |s'.inputGate| == m * h && |s'.output| == m * h
    ensures |s'.node| == m * h && |s'.hidden| == m * h
    ensures st == Success <==> CorrectedRuns(w, s.input, hPrev, m, n, h)
    ensures st == Success ==>
              var g := GatesOf(act, w, s.input, hPrev, m, n, h);
              s'.inputGate == g.input && s'.forget == g.forget && s'.node == g.node && s'.output == g.output
  {
    var x := s.input;
    var st1, pi, t1 := PreInto(s.inputGate, s.hidden, x, w.wii, hPrev, w.whi, w.bii, w.bhi, m, n, h, m * h);
    var st2, gi := SigmoidInPlace(act, pi);
    var st3, pf, t2 := PreInto(s.forget, t1, x, w.wif, hPrev, w.whf, w.bif, w.bhf, m, n, h, m * h);
    var st4, gf := SigmoidInPlace(act, pf);
    var st5, pg, t3 := PreInto(s.node, t2, x, w.wig, hPrev, w.whg, w.big, w.bhg, m, n, h, m * h);
    var st6, gg := TanhInPlace(act, pg);
    var st7, po, t4 := PreInto(s.output, t3, x, w.wio, hPrev, w.who, w.bio, w.bho, m, n, h, m * h);
    var st8, go := SigmoidInPlace(act, po);
    st := First(First(First(st1, st2), First(st3, st4)), First(First(st5, st6), First(st7, st8)));
    s' := s.(forget := gf, inputGate := gi, output := go, node := gg, hidden := t4);
    if st == Success {
      PreIntoIsPre(x, w.wii, w.bii, hPrev, w.whi, w.bhi, m, n, h);
      PreIntoIsPre(x, w.wif, w.bif, hPrev, w.whf, w.bhf, m, n, h);
      PreIntoIsPre(x, w.wig, w.big, hPrev, w.whg, w.bhg, m, n, h);
      PreIntoIsPre(x, w.wio, w.bio, hPrev, w.who, w.bho, m, n, h);
    }
  }

  /** Elementwise `mul` and `add` over a whole buffer. */
  method MulAll(out: seq<real>, a: seq<real>, b: seq<real>) returns (st: MathStatus, r: seq<real>)
    requires |a| == |out| && |b| >= |out|
    ensures |r| == |out|
    ensures st == Success <==> |out| <= MAX_DIM
    ensures st == Success ==> r == Hadamard(a, b, |out|)
  {
    st, r := Kernels.Mul(out, a, b, |out|);
  }

  method AddAll(out: seq<real>, a: seq<real>, b: seq<real>) returns (st: MathStatus, r: seq<real>)
    requires |a| == |out| && |b| == |out|
    ensures |r| == |out|
    ensures st == Success <==> |out| <= MAX_DIM
    ensures st == Success ==> r == Sum(a, b, |out|)
  {
    st, r := Kernels.Add(out, a, b, |out|);
  }

  /**
   * Lines 170-176 as written: c = f * c_prev + i * g in the cell buffer (i * g computed in place
   * in the input-node buffer), then tanh applied to the cell buffer in place, and
   * h = o * tanh(c) into the hidden-state buffer.  The cell buffer is left holding tanh(c).
   */
  method CellPassAsWritten(act: Activations, s: LstmLayerRunState, cPrev: seq<real>, len: nat)
    returns (st: MathStatus, s': LstmLayerRunState)
    requires |s.forget| == len && |s.inputGate| == len && |s.output| == len
    requires |s.node| == len && |s.cell| == len && |s.hidden| == len && len <= |cPrev|
    ensures s'.input == s.input && s'.forget == s.forget && s'.inputGate == s.inputGate && s'.output == s.output
    ensures |s'.node| == len && |s'.cell| == len && |s'.hidden| == len
    ensures st == Success <==> len <= MAX_DIM
    ensures st == Success ==>
              var g := LstmGates(s.inputGate, s.forget, s.node, s.output);
              var c := CellOf(g, cPrev, len);
              && s'.node == Hadamard(s.inputGate, s.node, len)
              && s'.cell == Tanhs(act, c, len)
              && s'.hidden == HiddenOf(act, g, c, len)
  {
    var st1, fc := MulAll(s.cell, s.forget, cPrev);
    var st2, ig := MulAll(s.node, s.inputGate, s.node);
    var st3, c := AddAll(fc, fc, ig);
    var st4, tc := TanhInPlace(act, c);
    var st5, hNew := MulAll(s.hidden, s.output, tc);
    st := First(First(st1, st2), First(st3, First(st4, st5)));
    s' := s.(node := ig, cell := tc, hidden := hNew);
  }

  /** Lines 170-176 corrected: tanh(c) goes to the hidden-state buffer as scratch, so the cell buffer keeps c. */
  method CellPassCorrected(act: Activations, s: LstmLayerRunState, cPrev: seq<real>, len: nat)
    returns (st: MathStatus, s': LstmLayerRunState)
    requires |s.forget| == len && |s.inputGate| == len && |s.output| == len
    requires |s.node| == len && |s.cell| == len && |s.hidden| == len && len <= |cPrev|
    ensures s'.input == s.input && s'.forget == s.forget && s'.inputGate == s.inputGate && s'.output == s.output
    ensures |s'.node| == len && |s'.cell| == len && |s'.hidden| == len
    ensures st == Success <==> len <= MAX_DIM
    ensures st == Success ==>
              var g := LstmGates(s.inputGate, s.forget, s.node, s.output);
              && s'.node == Hadamard(s.inputGate, s.node, len)
              && s'.cell == CellOf(g, cPrev, len)
              && s'.hidden == HiddenOf(act, g, s'.cell, len)
  {
    var st1, fc := MulAll(s.cell, s.forget, cPrev);
    var st2, ig := MulAll(s.node, s.inputGate, s.node);
    var st3, c := AddAll(fc, fc, ig);
    var st4, tc := Kernels.TanhVec(act, s.hidden, c, len);
    var st5, hNew := MulAll(s.hidden, s.output, tc);
    st := First(First(st1, st2), First(st3, First(st4, st5)));
    s' := s.(node := ig, cell := c, hidden := hNew);
    if st == Success {
      assert tc == Tanhs(act, c, len);
    }
  }

  /**
   * The buffers `lstm_layer_forward` as written leaves once every kernel call succeeds: the
   * code's gates, i * g in the input-node buffer, tanh(c) in the cell buffer and o * tanh(c)
   * in the hidden-state buffer, all read from the input buffer `s'.input`.
   */
  predicate LeavesAsWritten(act: Activations, w: LstmParams, s': LstmLayerRunState, hPrev: seq<real>,
                            cPrev: seq<real>, m: nat, n: nat, h: nat)
    requires Fits(w, m, n, h) && |s'.input| == m * n && m * h <= |hPrev| && m * h <= |cPrev|
    requires h <= m * h && m * h <= |w.whi| && h * h <= |hPrev|
  {
    var g := GatesAsWritten(act, w, s'.input, hPrev, m, n, h);
    var c := CellOf(g, cPrev, m * h);
    && s'.inputGate == g.input && s'.forget == g.forget && s'.output == g.output
    && s'.node == Hadamard(g.input, g.node, m * h)
    && s'.cell == Tanhs(act, c, m * h)
    && s'.hidden == HiddenOf(act, g, c, m * h)
  }

  /**
   * `lstm_layer_forward(layer, input, h_prev, c_prev)` as written.  `hPrev` and `cPrev` are
   * the floats from h_prev and c_prev to the end of their allocations.  The input-gate call
   * `matmul(hidden_state_buffer, W_hi, h_prev, m, h, h)` reads W_hi as m rows of h floats and
   * h * h floats from h_prev: the pass is `None` exactly when that call's scan reaches a read
   * past the end of one of them, which takes an out-of-range read and happens for every
   * out-of-range read when W_hi is zero (as `init_lstm_layer` leaves it).  Otherwise the
   * parameters never change, the input buffer receives input_size floats (not
   * input_dim * input_size), and when every kernel call succeeds the buffers hold the code's
   * gates, i * g, tanh(c) and o * tanh(c).
   */
  method Forward(act: Activations, layer: LstmLayer, input: seq<real>, hPrev: seq<real>, cPrev: seq<real>)
    returns (st: MathStatus, r: Option<LstmLayer>)
    requires Shaped(layer) && 1 <= layer.config.inputDim
    requires layer.config.inputSize <= |input|
    requires layer.config.inputDim * layer.config.hiddenSize <= |hPrev|
    requires layer.config.inputDim * layer.config.hiddenSize <= |cPrev|
    ensures var m, h := layer.config.inputDim, layer.config.hiddenSize;
            r.None? <==> Kernels.DimsOk(m, h, h) && Kernels.ReadsPast(layer.weights.whi, hPrev, m, h, h)
    ensures r.None? ==> SwappedOutOfRange(layer.config.inputDim, layer.config.hiddenSize, |hPrev|)
    ensures (SwappedOutOfRange(layer.config.inputDim, layer.config.hiddenSize, |hPrev|) &&
             AllZero(layer.weights.whi)) ==> r.None?
    ensures r.Some? ==>
              && r.value.config == layer.config && r.value.weights == layer.weights && Shaped(r.value)
              && r.value.state.input ==
                 input[..layer.config.inputSize] + layer.state.input[layer.config.inputSize ..]
    ensures r.Some? && st == Success ==>
              var m, h := layer.config.inputDim, layer.config.hiddenSize;
              Kernels.DimsOk(m, h, h) && m <= h && h * h <= |hPrev|
    ensures r.Some? ==>
              var m, n, h := layer.config.inputDim, layer.config.inputSize, layer.config.hiddenSize;
              (st == Success <==> AsWrittenRuns(layer.weights, r.value.state.input, hPrev, m, n, h))
    ensures r.Some? && st == Success ==>
              var m, n, h := layer.config.inputDim, layer.config.inputSize, layer.config.hiddenSize;
              (MulMono(1, m, h); MulMono(m, h, h);
               LeavesAsWritten(act, layer.weights, r.value.state, hPrev, cPrev, m, n, h))
  {
    var m, n, h := layer.config.inputDim, layer.config.inputSize, layer.config.hiddenSize;
    var w := layer.weights;
    MulMono(1, m, n);
    var x := CopyInto(layer.state.input, 0, input, n).value;
    assert x == input[..n] + layer.state.input[n ..];
    if Kernels.DimsOk(m, h, h) {
      RowsFit(m, h);
      if m * h <= |w.whi| && h * h <= |hPrev| {
        Kernels.SizedNeverPast(w.whi, hPrev, m, h, h);
      }
      if AllZero(w.whi) {
        Kernels.ZeroNeverTrips(w.whi, hPrev, m, h, h);
      }
    }
    var s0 := layer.state.(input := x);
    var st1, s1 := GatesPassAsWritten(act, w, s0, hPrev, m, n, h);
    if s1.None? {
      return st1, None;
    }
    var st2, s2 := CellPassAsWritten(act, s1.value, cPrev, m * h);
    st, r := First(st1, st2), Some(layer.(state := s2));
  }

  /**
   * The input buffer `Forward` leaves behind is not the input as soon as input_dim > 1 and
   * one float past the first row differs from what the buffer held: line 116 copies only
   * input_size floats, so rows 1 .. input_dim - 1 keep their stale values and the gates read
   * those.
   */
  lemma StaleInputRow(input: seq<real>, stale: seq<real>, m: nat, n: nat, k: nat)
    requires |stale| == m * n && m * n <= |input| && n <= k < m * n && input[k] != stale[k]
    ensures input[..n] + stale[n ..] != input[..m * n]
  {
    assert (input[..n] + stale[n ..])[k] == stale[k];
  }

  /**
   * The cell buffer `Forward` leaves behind, which the driver copies into c_prev, is not the
   * cell state as soon as tanh moves one entry of it: the next step then starts from tanh(c).
   */
  lemma CellBufferIsNotCell(act: Activations, c: seq<real>, len: nat, j: nat)
    requires j < len <= |c| && Tanh(act, c[j]) != c[j]
    ensures Tanhs(act, c, len) != c[..len]
  {
    assert Tanhs(act, c, len)[j] != c[..len][j];
  }

  /** One corrected step on run-state buffers whose input buffer already holds x. */
  method StepCorrected(act: Activations, w: LstmParams, s: LstmLayerRunState, hPrev: seq<real>, cPrev: seq<real>,
                       m: nat, n: nat, h: nat)
    returns (st: MathStatus, s': LstmLayerRunState)
    requires Fits(w, m, n, h) && |s.input| == m * n
    requires |s.forget| == m * h && |s.inputGate| == m * h && |s.output| == m * h
    requires |s.node| == m * h && |s.cell| == m * h && |s.hidden| == m * h
    requires m * h <= |hPrev| && m * h <= |cPrev|
    ensures s'.input == s.input
    ensures |s'.forget| == m * h && |s'.inputGate| == m * h && |s'.output| == m * h
    ensures |s'.node| == m * h && |s'.cell| == m * h && |s'.hidden| == m * h
    ensures st == Success <==> CorrectedRuns(w, s.input, hPrev, m, n, h)
    ensures st == Success ==>
              var g := GatesOf(act, w, s.input, hPrev, m, n, h);
              && s'.inputGate == g.input && s'.forget == g.forget && s'.output == g.output
              && s'.node == Hadamard(g.input, g.node, m * h)
              && s'.cell == CellOf(g, cPrev, m * h)
              && s'.hidden == HiddenOf(act, g, s'.cell, m * h)
  {
    var st1, s1 := GatesPassCorrected(act, w, s, hPrev, m, n, h);
    var st2;
    st2, s' := CellPassCorrected(act, s1, cPrev, m * h);
    st := First(st1, st2);
    if st == Success {
      var g := GatesOf(act, w, s.input, hPrev, m, n, h);
      assert LstmGates(s1.inputGate, s1.forget, s1.node, s1.output) == g;
    }
  }

  /**
   * `lstm_layer_forward` as its comments describe it: input_dim * input_size input floats,
   * every hidden-side product h_prev W_h over all m * h entries, and c kept in the cell buffer.
   * When every kernel call succeeds the buffers hold the LSTM step of `LstmCell`.
   */
  method ForwardCorrected(act: Activations, layer: LstmLayer, input: seq<real>, hPrev: seq<real>, cPrev: seq<real>)
    returns (st: MathStatus, layer': LstmLayer)
    requires Shaped(layer)
    requires layer.config.inputDim * layer.config.inputSize <= |input|
    requires layer.config.inputDim * layer.config.hiddenSize <= |hPrev|
    requires layer.config.inputDim * layer.config.hiddenSize <= |cPrev|
    ensures layer'.config == layer.config && layer'.weights == layer.weights && Shaped(layer')
    ensures layer'.state.input == input[..layer.config.inputDim * layer.config.inputSize]
    ensures var m, n, h := layer.config.inputDim, layer.config.inputSize, layer.config.hiddenSize;
            st == Success <==> CorrectedRuns(layer.weights, input, hPrev, m, n, h)
    ensures st == Success ==>
              var m, n, h := layer.config.inputDim, layer.config.inputSize, layer.config.hiddenSize;
              var s' := layer'.state;
              var g := GatesOf(act, layer.weights, input, hPrev, m, n, h);
              && s'.inputGate == g.input && s'.forget == g.forget && s'.output == g.output
              && s'.node == Hadamard(g.input, g.node, m * h)
              && s'.cell == CellOf(g, cPrev, m * h)
              && s'.hidden == HiddenOf(act, g, s'.cell, m * h)
  {
    var m, n, h := layer.config.inputDim, layer.config.inputSize, layer.config.hiddenSize;
    var w := layer.weights;
    var x := CopyInto(layer.state.input, 0, input, m * n).value;
    assert x == input[..m * n];
    var s';
    st, s' := StepCorrected(act, w, layer.state.(input := x), hPrev, cPrev, m, n, h);
    layer' := layer.(state := s');
    InputPrefix(act, w, x, input, hPrev, m, n, h);
    RunsOfPrefix(w, x, input, hPrev, m, n, h);
  }

  /** The input-side guards see only the first m * n input floats. */
  lemma RunsOfPrefix(w: LstmParams, x: seq<real>, input: seq<real>, hPrev: seq<real>, m: nat, n: nat, h: nat)
    requires Fits(w, m, n, h) && m * n <= |input| && x == input[..m * n]
    ensures CorrectedRuns(w, x, hPrev, m, n, h) <==> CorrectedRuns(w, input, hPrev, m, n, h)
  {
    Kernels.NoOverflowOfPrefix(x, input, w.wii, m, n, h);
    Kernels.NoOverflowOfPrefix(x, input, w.wif, m, n, h);
    Kernels.NoOverflowOfPrefix(x, input, w.wig, m, n, h);
    Kernels.NoOverflowOfPrefix(x, input, w.wio, m, n, h);
  }

  /** The gates read only the first m * n input floats. */
  lemma InputPrefix(act: Activations, w: LstmParams, x: seq<real>, input: seq<real>, hPrev: seq<real>,
                    m: nat, n: nat, h: nat)
    requires Fits(w, m, n, h) && m * n <= |input| && m * h <= |hPrev| && x == input[..m * n]
    ensures GatesOf(act, w, x, hPrev, m, n, h) == GatesOf(act, w, input, hPrev, m, n, h)
  {
    ProductOfPrefix(x, input, w.wii, m, n, h);
    ProductOfPrefix(x, input, w.wif, m, n, h);
    ProductOfPrefix(x, input, w.wig, m, n, h);
    ProductOfPrefix(x, input, w.wio, m, n, h);
  }
}
