/**
 * The stacked GRU of gru.c: a fixed configuration, per-layer parameters stacked in one array
 * per kind (layer l's [h, h] matrix at l * h * h, its biases at l * h), a hidden-state buffer
 * of one h-float slot per layer, and `gru_forward`, which runs every layer once on the legacy
 * kernels and applies the output projection to the last layer's hidden state.
 */
module GruModel {
  import opened Tensor
  import opened Activation
  import opened GruCell
  import opened GruStack
  import LegacyKernels

  /** GRUConfig. */
  datatype GruConfig = GruConfig(inputSize: nat, hiddenSize: nat, outputSize: nat, numLayers: nat)

  /** GRUWeights: the twelve stacked GRU arrays, then W_out [output_size, h] and b_out. */
  datatype GruWeights = GruWeights(stack: GruParams, wOut: seq<real>, bOut: seq<real>)

  /** GRURunState; the hidden-state buffer is held as its `num_layers` slots. */
  datatype GruRunState = GruRunState(hidden: seq<seq<real>>, input: seq<real>, output: seq<real>, scratch: Scratch)

  /** GRUModel. */
  datatype GruModel = GruModel(config: GruConfig, weights: GruWeights, state: GruRunState)

  /** `init_gru_config`: 15 inputs, 64 hidden units, 4 outputs, 3 layers. */
  function InitConfig(): (c: GruConfig)
    ensures c.inputSize <= c.hiddenSize && 0 < c.numLayers
  {
    GruConfig(15, 64, 4, 3)
  }

  /**
   * Stacked arrays of L layers whose inputs are `ni` floats wide: each input-side matrix
   * L * ni * h floats, each hidden-side matrix L * h * h, each bias L * h.
   */
  predicate StackShaped(w: GruParams, L: nat, ni: nat, h: nat) {
    && |w.wir| == L * (ni * h) && |w.wiz| == L * (ni * h) && |w.win| == L * (ni * h)
    && |w.whr| == L * (h * h) && |w.whz| == L * (h * h) && |w.whn| == L * (h * h)
    && |w.bir| == L * h && |w.biz| == L * h && |w.bin| == L * h
    && |w.bhr| == L * h && |w.bhz| == L * h && |w.bhn| == L * h
  }

  /** The sizes `init_gru_weights` allocates. */
  predicate WeightsShaped(w: GruWeights, c: GruConfig) {
    && StackShaped(w.stack, c.numLayers, c.hiddenSize, c.hiddenSize)
    && |w.wOut| == c.outputSize * c.hiddenSize && |w.bOut| == c.outputSize
  }

  /** The sizes `init_gru_run_state` allocates. */
  predicate StateShaped(s: GruRunState, c: GruConfig) {
    && SlotsShaped(s.hidden, c.numLayers, c.hiddenSize)
    && |s.input| == c.hiddenSize && |s.output| == c.outputSize
    && ScratchShaped(s.scratch, c.hiddenSize)
  }

  predicate Shaped(m: GruModel) {
    WeightsShaped(m.weights, m.config) && StateShaped(m.state, m.config)
  }

  /** Every slot of the hidden-state buffer is zero. */
  predicate SlotsZero(hidden: seq<seq<real>>) {
    forall l :: 0 <= l < |hidden| ==> AllZero(hidden[l])
  }

  /** Layer l's block of `size` floats in a stacked array of L blocks. */
  function Block(buf: seq<real>, l: nat, size: nat, L: nat): (r: seq<real>)
    requires l < L && |buf| == L * size
    ensures |r| == size
  {
    MulMono(l + 1, L, size);
    buf[l * size .. l * size + size]
  }

  /**
   * The parameters of layer l: `W + l * ni * h` for the input-side matrices, `W + l * h * h`
   * for the hidden-side ones, `b + l * h` for the biases.
   */
  function LayerParams(w: GruParams, l: nat, L: nat, ni: nat, h: nat): (p: GruParams)
    requires l < L && StackShaped(w, L, ni, h)
    ensures HiddenFits(p, 1, h) && InputFits(p, 1, ni, h)
  {
    GruParams(
      Block(w.wir, l, ni * h, L), Block(w.wiz, l, ni * h, L), Block(w.win, l, ni * h, L),
      Block(w.whr, l, h * h, L), Block(w.whz, l, h * h, L), Block(w.whn, l, h * h, L),
      Block(w.bir, l, h, L), Block(w.biz, l, h, L), Block(w.bin, l, h, L),
      Block(w.bhr, l, h, L), Block(w.bhz, l, h, L), Block(w.bhn, l, h, L))
  }

  /** The per-layer parameters of all L layers. */
  function Layers(w: GruParams, L: nat, ni: nat, h: nat): (r: seq<GruParams>)
    requires StackShaped(w, L, ni, h)
    ensures |r| == L && LayersFit(r, h)
    ensures forall l :: 0 <= l < L ==> InputFits(r[l], 1, ni, h)
  {
    seq(L, l requires 0 <= l < L => LayerParams(w, l, L, ni, h))
  }

  /** A layer of exactly ni-by-h input-side matrices, h-by-h hidden-side ones and h-float biases. */
  predicate LayerShaped(p: GruParams, ni: nat, h: nat) {
    && |p.wir| == ni * h && |p.wiz| == ni * h && |p.win| == ni * h
    && |p.whr| == h * h && |p.whz| == h * h && |p.whn| == h * h
    && |p.bir| == h && |p.biz| == h && |p.bin| == h
    && |p.bhr| == h && |p.bhz| == h && |p.bhn| == h
  }

  /** Per-layer parameters laid end to end, layer by layer, as the stacked arrays hold them. */
  function Stack(ps: seq<GruParams>): (w: GruParams) {
    var L := |ps|;
    GruParams(
      Flatten(seq(L, k requires 0 <= k < L => ps[k].wir), L),
      Flatten(seq(L, k requires 0 <= k < L => ps[k].wiz), L),
      Flatten(seq(L, k requires 0 <= k < L => ps[k].win), L),
      Flatten(seq(L, k requires 0 <= k < L => ps[k].whr), L),
      Flatten(seq(L, k requires 0 <= k < L => ps[k].whz), L),
      Flatten(seq(L, k requires 0 <= k < L => ps[k].whn), L),
      Flatten(seq(L, k requires 0 <= k < L => ps[k].bir), L),
      Flatten(seq(L, k requires 0 <= k < L => ps[k].biz), L),
      Flatten(seq(L, k requires 0 <= k < L => ps[k].bin), L),
      Flatten(seq(L, k requires 0 <= k < L => ps[k].bhr), L),
      Flatten(seq(L, k requires 0 <= k < L => ps[k].bhz), L),
      Flatten(seq(L, k requires 0 <= k < L => ps[k].bhn), L))
  }

  /** Block l of chunks laid end to end is chunk l. */
  lemma BlockOfFlatten(chunks: seq<seq<real>>, size: nat, l: nat)
    requires l < |chunks| && forall i :: 0 <= i < |chunks| ==> |chunks[i]| == size
    ensures |Flatten(chunks, |chunks|)| == |chunks| * size
    ensures Block(Flatten(chunks, |chunks|), l, size, |chunks|) == chunks[l]
  {
    FlattenAt(chunks, |chunks|, size, l);
  }

  /** Slicing the stacked arrays at l * ni * h, l * h * h and l * h gives back the layers that were stacked. */
  lemma LayersOfStack(ps: seq<GruParams>, ni: nat, h: nat)
    requires forall k :: 0 <= k < |ps| ==> LayerShaped(ps[k], ni, h)
    ensures StackShaped(Stack(ps), |ps|, ni, h)
    ensures Layers(Stack(ps), |ps|, ni, h) == ps
  {
    StackIsShaped(ps, ni, h);
    forall l | 0 <= l < |ps|
      ensures Layers(Stack(ps), |ps|, ni, h)[l] == ps[l]
    {
      LayerOfStack(ps, ni, h, l);
    }
  }

  /** Stacking L layers of ni-by-h shape gives arrays of L blocks each. */
  lemma StackIsShaped(ps: seq<GruParams>, ni: nat, h: nat)
    requires forall k :: 0 <= k < |ps| ==> LayerShaped(ps[k], ni, h)
    ensures StackShaped(Stack(ps), |ps|, ni, h)
  {
    StackedInputSide(ps, ni, h);
    StackedHiddenSide(ps, ni, h);
    StackedBiases(ps, ni, h);
  }

  lemma StackedInputSide(ps: seq<GruParams>, ni: nat, h: nat)
    requires forall k :: 0 <= k < |ps| ==> LayerShaped(ps[k], ni, h)
    ensures var w, L := Stack(ps), |ps|;
            |w.wir| == L * (ni * h) && |w.wiz| == L * (ni * h) && |w.win| == L * (ni * h)
  {
    var L := |ps|;
    FlattenLength(seq(L, k requires 0 <= k < L => ps[k].wir), L, ni * h);
    FlattenLength(seq(L, k requires 0 <= k < L => ps[k].wiz), L, ni * h);
    FlattenLength(seq(L, k requires 0 <= k < L => ps[k].win), L, ni * h);
  }

  lemma StackedHiddenSide(ps: seq<GruParams>, ni: nat, h: nat)
    requires forall k :: 0 <= k < |ps| ==> LayerShaped(ps[k], ni, h)
    ensures var w, L := Stack(ps), |ps|;
            |w.whr| == L * (h * h) && |w.whz| == L * (h * h) && |w.whn| == L * (h * h)
  {
    var L := |ps|;
    FlattenLength(seq(L, k requires 0 <= k < L => ps[k].whr), L, h * h);
    FlattenLength(seq(L, k requires 0 <= k < L => ps[k].whz), L, h * h);
    FlattenLength(seq(L, k requires 0 <= k < L => ps[k].whn), L, h * h);
  }

  lemma StackedBiases(ps: seq<GruParams>, ni: nat, h: nat)
    requires forall k :: 0 <= k < |ps| ==> LayerShaped(ps[k], ni, h)
    ensures var w, L := Stack(ps), |ps|;
            && |w.bir| == L * h && |w.biz| == L * h && |w.bin| == L * h
            && |w.bhr| == L * h && |w.bhz| == L * h && |w.bhn| == L * h
  {
    var L := |ps|;
    FlattenLength(seq(L, k requires 0 <= k < L => ps[k].bir), L, h);
    FlattenLength(seq(L, k requires 0 <= k < L => ps[k].biz), L, h);
    FlattenLength(seq(L, k requires 0 <= k < L => ps[k].bin), L, h);
    FlattenLength(seq(L, k requires 0 <= k < L => ps[k].bhr), L, h);
    FlattenLength(seq(L, k requires 0 <= k < L => ps[k].bhz), L, h);
    FlattenLength(seq(L, k requires 0 <= k < L => ps[k].bhn), L, h);
  }

  /** Layer l of the stacked arrays is the layer stacked at l. */
  lemma LayerOfStack(ps: seq<GruParams>, ni: nat, h: nat, l: nat)
    requires forall k :: 0 <= k < |ps| ==> LayerShaped(ps[k], ni, h)
    requires l < |ps|
    ensures StackShaped(Stack(ps), |ps|, ni, h)
    ensures LayerParams(Stack(ps), l, |ps|, ni, h) == ps[l]
  {
    var L := |ps|;
    StackIsShaped(ps, ni, h);
    BlockOfFlatten(seq(L, k requires 0 <= k < L => ps[k].wir), ni * h, l);
    BlockOfFlatten(seq(L, k requires 0 <= k < L => ps[k].wiz), ni * h, l);
    BlockOfFlatten(seq(L, k requires 0 <= k < L => ps[k].win), ni * h, l);
    BlockOfFlatten(seq(L, k requires 0 <= k < L => ps[k].whr), h * h, l);
    BlockOfFlatten(seq(L, k requires 0 <= k < L => ps[k].whz), h * h, l);
    BlockOfFlatten(seq(L, k requires 0 <= k < L => ps[k].whn), h * h, l);
    BlockOfFlatten(seq(L, k requires 0 <= k < L => ps[k].bir), h, l);
    BlockOfFlatten(seq(L, k requires 0 <= k < L => ps[k].biz), h, l);
    BlockOfFlatten(seq(L, k requires 0 <= k < L => ps[k].bin), h, l);
    BlockOfFlatten(seq(L, k requires 0 <= k < L => ps[k].bhr), h, l);
    BlockOfFlatten(seq(L, k requires 0 <= k < L => ps[k].bhz), h, l);
    BlockOfFlatten(seq(L, k requires 0 <= k < L => ps[k].bhn), h, l);
  }

  /** `init_gru_weights`: every array zeroed (calloc) at its configured size. */
  function InitWeights(c: GruConfig): (w: GruWeights)
    ensures WeightsShaped(w, c)
    ensures AllParamsZero(w.stack) && AllZero(w.wOut) && AllZero(w.bOut)
  {
    var L, h := c.numLayers, c.hiddenSize;
    var mat, bias := Zeros(L * (h * h)), Zeros(L * h);
    GruWeights(GruParams(mat, mat, mat, mat, mat, mat, bias, bias, bias, bias, bias, bias),
               Zeros(c.outputSize * h), Zeros(c.outputSize))
  }

  /** `init_gru_run_state`: every buffer zeroed at its configured size. */
  function InitRunState(c: GruConfig): (s: GruRunState)
    ensures StateShaped(s, c)
    ensures SlotsZero(s.hidden) && AllZero(s.input) && AllZero(s.output)
  {
    var h := c.hiddenSize;
    GruRunState(seq(c.numLayers, _ => Zeros(h)), Zeros(h), Zeros(c.outputSize),
                Scratch(Zeros(h), Zeros(h), Zeros(h), Zeros(h)))
  }

  /** `init_gru_model`: the shipped configuration with zeroed weights and buffers. */
  function InitModel(): (m: GruModel)
    ensures Shaped(m) && m.config.inputSize <= m.config.hiddenSize
    ensures AllParamsZero(m.weights.stack) && AllZero(m.weights.wOut) && AllZero(m.weights.bOut)
    ensures SlotsZero(m.state.hidden)
  {
    var c := InitConfig();
    GruModel(c, InitWeights(c), InitRunState(c))
  }

  /** A narrower input than the hidden width fits a layer's h-by-h input-side blocks. */
  lemma NarrowInputFits(p: GruParams, n: nat, h: nat)
    requires InputFits(p, 1, h, h) && n <= h
    ensures InputFits(p, 1, n, h)
  {
    MulMono(n, h, h);
  }

  /** Layer 0 takes the n input floats, every later layer the h floats of the layer below. */
  lemma LayersTakeInput(w: GruParams, L: nat, n: nat, h: nat)
    requires StackShaped(w, L, h, h) && n <= h
    ensures forall l :: 0 <= l < L ==> InputFits(Layers(w, L, h, h)[l], 1, if l == 0 then n else h, h)
  {
    var layers := Layers(w, L, h, h);
    forall l | 0 <= l < L
      ensures InputFits(layers[l], 1, if l == 0 then n else h, h)
    {
      NarrowInputFits(layers[l], n, h);
    }
  }

  /** The output projection `matmul(output, x, W_out, 1, h, o)` then `add(output, output, b_out, o)`. */
  method Project(out: seq<real>, x: seq<real>, wOut: seq<real>, bOut: seq<real>, h: nat, o: nat)
    returns (r: seq<real>)
    requires |out| == o && h <= |x| && |wOut| == o * h && |bOut| == o
    ensures r == Affine(x, wOut, bOut, 1, h, o)
  {
    r := LegacyKernels.AffineInto(out, x, wOut, bOut, 1, h, o);
  }

  /**
   * `gru_forward`: copy the input_size input floats into the input buffer, run the layer loop
   * (layer 0 reads input_size floats of it, later layers h), then
   * output = input_buffer W_out + b_out, where the input buffer now holds the last layer's
   * hidden state.
   */
  method Forward(act: Activations, model: GruModel, input: seq<real>) returns (model': GruModel)
    requires Shaped(model) && model.config.inputSize <= model.config.hiddenSize
    requires model.config.inputSize <= |input|
    ensures model'.config == model.config && model'.weights == model.weights && Shaped(model')
    ensures model'.state.hidden ==
            NewSlots(act, Layers(model.weights.stack, model.config.numLayers, model.config.hiddenSize, model.config.hiddenSize),
                     model.state.hidden, model.config.hiddenSize)
    ensures model.config.numLayers > 0 ==>
            var last := model'.state.hidden[model.config.numLayers - 1];
            && model'.state.input == last
            && model'.state.output ==
               Affine(last, model.weights.wOut, model.weights.bOut, 1, model.config.hiddenSize, model.config.outputSize)
    ensures model.config.numLayers == 0 ==>
            && model'.state.input == input[..model.config.inputSize] + model.state.input[model.config.inputSize ..]
            && model'.state.output ==
               Affine(model'.state.input, model.weights.wOut, model.weights.bOut, 1, model.config.hiddenSize, model.config.outputSize)
  {
    var c, w, s := model.config, model.weights, model.state;
    var n, h, L := c.inputSize, c.hiddenSize, c.numLayers;
    var x := CopyInto(s.input, 0, input, n).value;
    assert x == input[..n] + s.input[n ..];
    var layers := Layers(w.stack, L, h, h);
    LayersTakeInput(w.stack, L, n, h);
    var hidden', x', s' := RunLayers(act, layers, s.hidden, x, s.scratch, n, h, h);
    var out := Project(s.output, x', w.wOut, w.bOut, h, c.outputSize);
    model' := GruModel(c, w, GruRunState(hidden', x', out, s'));
  }

  /**
   * A freshly initialised model stays at rest: with every parameter zero and the hidden
   * state zero, one forward pass leaves every slot zero and outputs zeros.
   */
  lemma FreshModelStaysZero(act: Activations)
    requires AnchoredAtZero(act)
    ensures var m := InitModel();
            var L, h := m.config.numLayers, m.config.hiddenSize;
            var hidden' := NewSlots(act, Layers(m.weights.stack, L, h, h), m.state.hidden, h);
            && SlotsZero(hidden')
            && AllZero(Affine(hidden'[L - 1], m.weights.wOut, m.weights.bOut, 1, h, m.config.outputSize))
  {
    var m := InitModel();
    var L, h := m.config.numLayers, m.config.hiddenSize;
    var layers := Layers(m.weights.stack, L, h, h);
    var hidden' := NewSlots(act, layers, m.state.hidden, h);
    forall l | 0 <= l < L
      ensures AllZero(hidden'[l])
    {
      assert AllParamsZero(layers[l]) by {
        ZeroBlocks(m.weights.stack, l, L, h, h);
      }
      ZeroStaysZero(act, layers[l], m.state.hidden[l], 1, h);
    }
    AffineOfZero(hidden'[L - 1], m.weights.wOut, m.weights.bOut, 1, h, m.config.outputSize);
  }

  /** A block of a zeroed array is zero. */
  lemma ZeroBlock(buf: seq<real>, l: nat, size: nat, L: nat)
    requires l < L && |buf| == L * size && AllZero(buf)
    ensures AllZero(Block(buf, l, size, L))
  {
    MulMono(l + 1, L, size);
    var b := Block(buf, l, size, L);
    forall i | 0 <= i < size
      ensures b[i] == 0.0
    {
      assert b[i] == buf[l * size + i];
    }
  }

  /** Blocks of zeroed stacked arrays are zero. */
  lemma ZeroBlocks(w: GruParams, l: nat, L: nat, ni: nat, h: nat)
    requires l < L && StackShaped(w, L, ni, h) && AllParamsZero(w)
    ensures AllParamsZero(LayerParams(w, l, L, ni, h))
  {
    ZeroBlock(w.wir, l, ni * h, L); ZeroBlock(w.wiz, l, ni * h, L); ZeroBlock(w.win, l, ni * h, L);
    ZeroBlock(w.whr, l, h * h, L); ZeroBlock(w.whz, l, h * h, L); ZeroBlock(w.whn, l, h * h, L);
    ZeroBlock(w.bir, l, h, L); ZeroBlock(w.biz, l, h, L); ZeroBlock(w.bin, l, h, L);
    ZeroBlock(w.bhr, l, h, L); ZeroBlock(w.bhz, l, h, L); ZeroBlock(w.bhn, l, h, L);
  }

  /** The buffers of a GRUModel: its fourteen weight arrays and seven run-state buffers. */
  datatype GruModelBuffer =
    | WIr | WIz | WIn | WHr | WHz | WHn | BIr | BIz | BIn | BHr | BHz | BHn | WOut | BOut
    | HiddenState | InputBuffer | OutputBuffer | ResetGate | UpdateGate | Candidate | CellTemp
  {
    predicate IsWeight() {
      this in {WIr, WIz, WIn, WHr, WHz, WHn, BIr, BIz, BIn, BHr, BHz, BHn, WOut, BOut}
    }
  }

  const WeightBuffers: set<GruModelBuffer> := {WIr, WIz, WIn, WHr, WHz, WHn, BIr, BIz, BIn, BHr, BHz, BHn, WOut, BOut}
  const RunStateBuffers: set<GruModelBuffer> := {HiddenState, InputBuffer, OutputBuffer, ResetGate, UpdateGate, Candidate, CellTemp}

  /** Every buffer is a weight array or a run-state buffer, never both. */
  lemma BuffersPartition()
    ensures forall b: GruModelBuffer :: b in WeightBuffers <==> b.IsWeight()
    ensures forall b: GruModelBuffer :: b in RunStateBuffers <==> !b.IsWeight()
  {
    forall b: GruModelBuffer
      ensures b in WeightBuffers <==> b.IsWeight()
      ensures b in RunStateBuffers <==> !b.IsWeight()
    {
      match b
      case HiddenState =>
      case InputBuffer =>
      case OutputBuffer =>
      case ResetGate =>
      case UpdateGate =>
      case Candidate =>
      case CellTemp =>
      case _ =>
    }
  }

  /** `free_gru_weights`: the fourteen weight arrays. */
  function FreeWeights(): (freed: set<GruModelBuffer>)
    ensures forall b :: b in freed <==> b.IsWeight()
    ensures |freed| == 14
  {
    BuffersPartition();
    WeightBuffers
  }

  /** `free_gru_run_state`: the seven run-state buffers. */
  function FreeRunState(): (freed: set<GruModelBuffer>)
    ensures forall b :: b in freed <==> !b.IsWeight()
    ensures |freed| == 7
  {
    BuffersPartition();
    RunStateBuffers
  }

  /** `free_gru_model`: both, so no buffer `init_gru_model` allocated is left behind. */
  function FreeModel(): (freed: set<GruModelBuffer>)
    ensures forall b :: b in freed
    ensures |freed| == 21
  {
    FreeWeights() + FreeRunState()
  }
}
