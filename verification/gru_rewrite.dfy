/**
 * The stacked GRU of GRU_rewrite.c.  It differs from gru.c in its layout and in its layer
 * loop: every layer's input-side matrices are [input_size, h] (stacked at l * h * input_size),
 * the input buffer x holds input_size floats, and layer l reads slot l of the hidden-state
 * buffer as h_prev but writes its new state to slot l + 1, then copies h floats of it into x.
 *
 * `Forward` follows the file as written and reports the first access outside a buffer;
 * `ForwardCorrected` is the loop as the file's layout evidently intends it: slot l read and
 * written in place, and an input buffer wide enough for a hidden state.
 */
module GruRewrite {
  import opened Tensor
  import opened Activation
  import opened GruCell
  import opened GruStack
  import GruModel
  import LegacyKernels

  /** GRURunState of GRU_rewrite.c: the hidden-state buffer as its slots, x, y and the r, z, n buffers. */
  datatype RewriteRunState = RewriteRunState(hidden: seq<seq<real>>, x: seq<real>, y: seq<real>, gates: Gates)

  /** GRUModel of GRU_rewrite.c; configuration and weights have the same fields as in gru.c. */
  datatype RewriteModel = RewriteModel(config: GruModel.GruConfig, weights: GruModel.GruWeights, state: RewriteRunState)

  /** An access outside a buffer: the source line of the access and the layer it happens in. */
  datatype Fault = Fault(line: nat, layer: nat)

  datatype Outcome = Completed(model: RewriteModel) | OutOfBounds(fault: Fault)

  /** The sizes `init_gru_weights` allocates: input-side matrices L * h * input_size. */
  predicate WeightsShaped(w: GruModel.GruWeights, c: GruModel.GruConfig) {
    && GruModel.StackShaped(w.stack, c.numLayers, c.inputSize, c.hiddenSize)
    && |w.wOut| == c.outputSize * c.hiddenSize && |w.bOut| == c.outputSize
  }

  /** The run-state sizes, with an input buffer of `xCap` floats. */
  predicate StateShaped(s: RewriteRunState, c: GruModel.GruConfig, xCap: nat) {
    && SlotsShaped(s.hidden, c.numLayers, c.hiddenSize)
    && |s.x| == xCap && |s.y| == c.outputSize
    && |s.gates.reset| == c.hiddenSize && |s.gates.update| == c.hiddenSize && |s.gates.candidate| == c.hiddenSize
  }

  /** The sizes `init_gru_run_state` allocates: x holds input_size floats. */
  predicate Shaped(m: RewriteModel) {
    WeightsShaped(m.weights, m.config) && StateShaped(m.state, m.config, m.config.inputSize)
  }

  /** The input buffer both an input and a hidden state fit in. */
  function InputCapacity(c: GruModel.GruConfig): (cap: nat)
    ensures c.inputSize <= cap && c.hiddenSize <= cap
    ensures cap == c.inputSize || cap == c.hiddenSize
  {
    if c.inputSize < c.hiddenSize then c.hiddenSize else c.inputSize
  }

  /** The corrected sizes: x wide enough for the copy of a hidden state. */
  predicate ShapedCorrected(m: RewriteModel) {
    WeightsShaped(m.weights, m.config) && StateShaped(m.state, m.config, InputCapacity(m.config))
  }

  /** `init_gru_weights`: every array zeroed (calloc) at its configured size. */
  function InitWeights(c: GruModel.GruConfig): (w: GruModel.GruWeights)
    ensures WeightsShaped(w, c)
    ensures AllParamsZero(w.stack) && AllZero(w.wOut) && AllZero(w.bOut)
  {
    var L, n, h := c.numLayers, c.inputSize, c.hiddenSize;
    var wi, wh, bias := Zeros(L * (n * h)), Zeros(L * (h * h)), Zeros(L * h);
    GruModel.GruWeights(GruParams(wi, wi, wi, wh, wh, wh, bias, bias, bias, bias, bias, bias),
               Zeros(c.outputSize * h), Zeros(c.outputSize))
  }

  /** `init_gru_run_state` with an input buffer of `xCap` floats; the file allocates input_size. */
  function InitRunState(c: GruModel.GruConfig, xCap: nat): (s: RewriteRunState)
    ensures StateShaped(s, c, xCap)
    ensures GruModel.SlotsZero(s.hidden) && AllZero(s.x) && AllZero(s.y)
  {
    var h := c.hiddenSize;
    RewriteRunState(seq(c.numLayers, _ => Zeros(h)), Zeros(xCap), Zeros(c.outputSize),
                    Gates(Zeros(h), Zeros(h), Zeros(h)))
  }

  /** `init_gru_model`: the shipped configuration (that of gru.c) with zeroed weights and buffers. */
  function InitModel(): (m: RewriteModel)
    ensures Shaped(m)
    ensures AllParamsZero(m.weights.stack) && AllZero(m.weights.wOut) && AllZero(m.weights.bOut)
    ensures GruModel.SlotsZero(m.state.hidden)
  {
    var c := GruModel.InitConfig();
    RewriteModel(c, InitWeights(c), InitRunState(c, c.inputSize))
  }

  /** The corrected allocation: the same model with an input buffer of `InputCapacity` floats. */
  function InitModelCorrected(): (m: RewriteModel)
    ensures ShapedCorrected(m)
    ensures AllParamsZero(m.weights.stack) && AllZero(m.weights.wOut) && AllZero(m.weights.bOut)
    ensures GruModel.SlotsZero(m.state.hidden)
  {
    var c := GruModel.InitConfig();
    RewriteModel(c, InitWeights(c), InitRunState(c, InputCapacity(c)))
  }

  /**
   * Where the loop of `gru_forward` as written first leaves a buffer.  Layer l writes
   * h_next = h + (l + 1) * h, which for the last layer is past the L * h hidden floats
   * (line 204), and copies h floats of it into the input_size-float x (line 208); with an
   * empty hidden state nothing is ever out of bounds.
   */
  function FaultOf(c: GruModel.GruConfig): Option<Fault>
    requires 1 <= c.numLayers
  {
    if c.hiddenSize == 0 then None
    else if c.numLayers == 1 then Some(Fault(204, 0))
    else if c.inputSize < c.hiddenSize then Some(Fault(208, 0))
    else Some(Fault(204, c.numLayers - 1))
  }

  /** The shipped configuration (15 inputs, 64 hidden units, 3 layers) faults at layer 0's copy into x. */
  lemma ShippedConfigFaults()
    ensures FaultOf(GruModel.InitConfig()) == Some(Fault(208, 0))
  {
  }

  /**
   * `gru_forward` as written: copy input_size input floats into x; for each layer, the gates
   * from h_prev = slot l (x is read but overwritten, as in gru.c), the blend written to slot
   * l + 1, then h floats of it copied into x; finally y = h_next W_out + b_out.  The pass stops
   * at the first access outside a buffer; it runs to the end only when the hidden width is 0.
   */
  method Forward(act: Activations, model: RewriteModel, input: seq<real>) returns (o: Outcome)
    requires Shaped(model) && 1 <= model.config.numLayers
    requires model.config.inputSize <= |input|
    ensures o.OutOfBounds? <==> FaultOf(model.config).Some?
    ensures o.OutOfBounds? ==> FaultOf(model.config) == Some(o.fault)
    ensures o.Completed? ==>
              && o.model.config == model.config && o.model.weights == model.weights
              && o.model.state.y == model.weights.bOut
  {
    var c, w, s := model.config, model.weights, model.state;
    var x := CopyInto(s.x, 0, input, c.inputSize).value;
    var fault, hidden, x', g := LayersAsWritten(act, model, x);
    if fault.Some? {
      return OutOfBounds(fault.value);
    }
    // With h == 0 the last layer's output is empty and y = b_out.
    var last := Zeros(c.hiddenSize);
    var y := GruModel.Project(s.y, last, w.wOut, w.bOut, c.hiddenSize, c.outputSize);
    AffineOfZero(last, w.wOut, w.bOut, 1, c.hiddenSize, c.outputSize);
    o := Completed(RewriteModel(c, w, RewriteRunState(hidden, x', y, g)));
  }

  /**
   * The layer loop of `gru_forward` as written, from the loaded input buffer x: it stops with
   * the fault of the first access outside a buffer, and otherwise (hidden width 0) leaves
   * buffers of the configured sizes.
   */
  method LayersAsWritten(act: Activations, model: RewriteModel, x0: seq<real>)
    returns (fault: Option<Fault>, hidden: seq<seq<real>>, x: seq<real>, g: Gates)
    requires Shaped(model) && 1 <= model.config.numLayers && |x0| == model.config.inputSize
    ensures fault == FaultOf(model.config)
    ensures fault.None? ==>
              && model.config.hiddenSize == 0 && SlotsShaped(hidden, model.config.numLayers, 0) && |x| == |x0|
  {
    var c, w := model.config, model.weights;
    var n, h, L := c.inputSize, c.hiddenSize, c.numLayers;
    var layers := GruModel.Layers(w.stack, L, n, h);
    hidden, x, g := model.state.hidden, x0, model.state.gates;
    var l := 0;
    while l < L
      invariant 0 <= l <= L && SlotsShaped(hidden, L, h) && |x| == n
      invariant |g.reset| == h && |g.update| == h && |g.candidate| == h
      invariant l > 0 ==> h == 0 || (l < L && h <= n)
    {
      // h_next = h + (l + 1) * h: inside the buffer only below the last slot.
      if l + 1 == L && h > 0 {
        return Some(Fault(204, l)), hidden, x, g;
      }
      var next := if l + 1 < L then hidden[l + 1] else [];
      var r, z, cand, t := LayerStep(act, layers[l], x, hidden[l], n, h, g.reset, g.update, g.candidate, next);
      g := Gates(r, z, cand);
      if l + 1 < L {
        hidden := hidden[l + 1 := t];
      }
      // memcpy(x, h_next, h) into the input_size floats of x.
      if h > n {
        return Some(Fault(208, l)), hidden, x, g;
      }
      x := t + x[h ..];
      l := l + 1;
    }
    fault := None;
  }

  /**
   * `gru_forward` corrected: layer l reads and writes slot l, x holds `InputCapacity` floats,
   * and every layer multiplies the first input_size floats of x with its [input_size, h]
   * matrices; y is the last layer's new hidden state times W_out plus b_out.
   */
  method ForwardCorrected(act: Activations, model: RewriteModel, input: seq<real>) returns (model': RewriteModel)
    requires ShapedCorrected(model) && 1 <= model.config.numLayers
    requires model.config.inputSize <= |input|
    ensures model'.config == model.config && model'.weights == model.weights && ShapedCorrected(model')
    ensures CorrectedPass(act, model, model'.state.hidden, model'.state.y)
  {
    var c, w, s := model.config, model.weights, model.state;
    var x := LoadInput(s.x, input, c.inputSize);
    var hidden', x', s' := CorrectedLayers(act, c, w, s, x);
    var y := Output(model, hidden');
    model' := RewriteModel(c, w, RewriteRunState(hidden', x', y, Gates(s'.reset, s'.update, s'.candidate)));
  }

  /**
   * The slots and output the corrected pass leaves: slot l holds layer l's step from its old
   * value, and y = (last layer's slot) W_out + b_out.
   */
  predicate CorrectedPass(act: Activations, model: RewriteModel, hidden': seq<seq<real>>, y: seq<real>)
    requires ShapedCorrected(model) && 1 <= model.config.numLayers
  {
    var c, w := model.config, model.weights;
    && hidden' == NewSlots(act, GruModel.Layers(w.stack, c.numLayers, c.inputSize, c.hiddenSize), model.state.hidden, c.hiddenSize)
    && y == Affine(hidden'[c.numLayers - 1], w.wOut, w.bOut, 1, c.hiddenSize, c.outputSize)
  }

  /** Lines 212-213 corrected: y = (last layer's slot) W_out + b_out. */
  method Output(model: RewriteModel, hidden': seq<seq<real>>) returns (y: seq<real>)
    requires ShapedCorrected(model) && 1 <= model.config.numLayers
    requires SlotsShaped(hidden', model.config.numLayers, model.config.hiddenSize)
    ensures var c, w := model.config, model.weights;
            y == Affine(hidden'[c.numLayers - 1], w.wOut, w.bOut, 1, c.hiddenSize, c.outputSize)
  {
    var c, w := model.config, model.weights;
    y := GruModel.Project(model.state.y, hidden'[c.numLayers - 1], w.wOut, w.bOut, c.hiddenSize, c.outputSize);
  }

  /** Line 155: `memcpy(x, input, input_size)` into a buffer of at least input_size floats. */
  method LoadInput(buf: seq<real>, input: seq<real>, n: nat) returns (x: seq<real>)
    requires n <= |buf| && n <= |input|
    ensures |x| == |buf| && x[..n] == input[..n] && x[n ..] == buf[n ..]
  {
    x := CopyInto(buf, 0, input, n).value;
  }

  /** The corrected layer loop on the run state's slots and gate buffers, with input buffer x. */
  method CorrectedLayers(act: Activations, c: GruModel.GruConfig, w: GruModel.GruWeights, s: RewriteRunState, x: seq<real>)
    returns (hidden': seq<seq<real>>, x': seq<real>, s': Scratch)
    requires WeightsShaped(w, c) && StateShaped(s, c, InputCapacity(c)) && |x| == InputCapacity(c)
    ensures hidden' == NewSlots(act, GruModel.Layers(w.stack, c.numLayers, c.inputSize, c.hiddenSize), s.hidden, c.hiddenSize)
    ensures SlotsShaped(hidden', c.numLayers, c.hiddenSize) && |x'| == |x| && ScratchShaped(s', c.hiddenSize)
  {
    var n, h, L := c.inputSize, c.hiddenSize, c.numLayers;
    var layers := GruModel.Layers(w.stack, L, n, h);
    // The blend lands in a model-local buffer before it is stored to slot l.
    var scratch := Scratch(s.gates.reset, s.gates.update, s.gates.candidate, Zeros(h));
    hidden', x', s' := RunLayers(act, layers, s.hidden, x, scratch, n, n, h);
  }

  /**
   * Under the corrected reading a freshly initialised model stays at rest: one pass leaves
   * every slot zero and outputs zeros.
   */
  lemma CorrectedFreshModelStaysZero(act: Activations)
    requires AnchoredAtZero(act)
    ensures var m := InitModelCorrected();
            var L, n, h := m.config.numLayers, m.config.inputSize, m.config.hiddenSize;
            var hidden' := NewSlots(act, GruModel.Layers(m.weights.stack, L, n, h), m.state.hidden, h);
            && GruModel.SlotsZero(hidden')
            && AllZero(Affine(hidden'[L - 1], m.weights.wOut, m.weights.bOut, 1, h, m.config.outputSize))
  {
    var m := InitModelCorrected();
    var L, n, h := m.config.numLayers, m.config.inputSize, m.config.hiddenSize;
    var layers := GruModel.Layers(m.weights.stack, L, n, h);
    var hidden' := NewSlots(act, layers, m.state.hidden, h);
    forall l | 0 <= l < L
      ensures AllZero(hidden'[l])
    {
      assert AllParamsZero(layers[l]) by {
        GruModel.ZeroBlocks(m.weights.stack, l, L, n, h);
      }
      ZeroStaysZero(act, layers[l], m.state.hidden[l], 1, h);
    }
    AffineOfZero(hidden'[L - 1], m.weights.wOut, m.weights.bOut, 1, h, m.config.outputSize);
  }

  // ---------------------------------------------------------------------------
  // Freeing

  /** The fourteen weight arrays and six run-state buffers `init_gru_model` allocates. */
  datatype RewriteBuffer =
    | WIr | WIz | WIn | WHr | WHz | WHn | BIr | BIz | BIn | BHr | BHz | BHn | WOut | BOut
    | HiddenState | InputBuffer | OutputBuffer | ResetGate | UpdateGate | NewGate
  {
    predicate IsWeight() {
      this in {WIr, WIz, WIn, WHr, WHz, WHn, BIr, BIz, BIn, BHr, BHz, BHn, WOut, BOut}
    }
  }

  const WeightBuffers: set<RewriteBuffer> := {WIr, WIz, WIn, WHr, WHz, WHn, BIr, BIz, BIn, BHr, BHz, BHn, WOut, BOut}
  const RunStateBuffers: set<RewriteBuffer> := {HiddenState, InputBuffer, OutputBuffer, ResetGate, UpdateGate, NewGate}

  /** Every buffer is a weight array or a run-state buffer, never both. */
  lemma BuffersPartition()
    ensures forall b: RewriteBuffer :: b in WeightBuffers <==> b.IsWeight()
    ensures forall b: RewriteBuffer :: b in RunStateBuffers <==> !b.IsWeight()
  {
    forall b: RewriteBuffer
      ensures b in WeightBuffers <==> b.IsWeight()
      ensures b in RunStateBuffers <==> !b.IsWeight()
    {
      match b
      case HiddenState =>
      case InputBuffer =>
      case OutputBuffer =>
      case ResetGate =>
      case UpdateGate =>
      case NewGate =>
      case _ =>
    }
  }

  /**
   * `free_gru_weights`: the fourteen weight arrays, the output projection's two among them,
   * and none of the run-state buffers.
   */
  function FreeWeights(): (freed: set<RewriteBuffer>)
    ensures forall b :: b in freed <==> b.IsWeight()
    ensures WOut in freed && BOut in freed && freed !! RunStateBuffers
    ensures |freed| == 14
  {
    BuffersPartition();
    WeightBuffers
  }

  /** `free_gru_run_state`: the six run-state buffers. */
  function FreeRunState(): (freed: set<RewriteBuffer>)
    ensures forall b :: b in freed <==> !b.IsWeight()
    ensures |freed| == 6
  {
    BuffersPartition();
    RunStateBuffers
  }

  /** `free_gru_model`: both, so no buffer is left behind. */
  function FreeModel(): (freed: set<RewriteBuffer>)
    ensures forall b :: b in freed
    ensures |freed| == 20
  {
    FreeWeights() + FreeRunState()
  }
}
