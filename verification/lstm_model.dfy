/**
 * The three-layer LSTM of lstm_3layer.c: a configuration, `num_layers` LSTM layers of
 * lib/lstm.c and a linear head of linear.c; `init_lstm_model`, `free_lstm_model`, and the
 * layer-chaining loop of its driver (layer i reads h_prev and c_prev at slot i, stores its
 * hidden and cell buffers back there, and feeds its hidden buffer to layer i + 1; the head
 * reads the last layer's hidden buffer).
 */
module LstmModel {
  import opened Status
  import opened Tensor
  import opened Activation
  import opened LstmCell
  import LstmLayer
  import Linear
  import Kernels

  /** LSTMModelConfig. */
  datatype LstmModelConfig = LstmModelConfig(
    inputDim: nat, inputSize: nat, hiddenSize: nat, outputSize: nat, numLayers: nat)

  /**
   * LSTMModel.  `weightsMapped` records whether the parameter pointers were pointed into a
   * checkpoint blob by `memory_map_weights`, so that they are no longer heap arrays.
   */
  datatype LstmModel = LstmModel(
    config: LstmModelConfig, layers: seq<LstmLayer.LstmLayer>, head: Linear.LinearLayer, weightsMapped: bool)

  /** The driver's configuration: one row of 20 inputs, 64 hidden units, 4 outputs, 3 layers. */
  function DemoConfig(): (c: LstmModelConfig)
    ensures c.inputDim == 1 && c.numLayers == 3
  {
    LstmModelConfig(1, 20, 64, 4, 3)
  }

  /** The input width of layer l: input_size for layer 0, hidden_size for every later layer. */
  function LayerInputSize(c: LstmModelConfig, l: nat): (n: nat)
    ensures n == c.inputSize || n == c.hiddenSize
    ensures l > 0 ==> n == c.hiddenSize
  {
    if l == 0 then c.inputSize else c.hiddenSize
  }

  /** The configuration `init_lstm_model` gives layer l. */
  function LayerConfig(c: LstmModelConfig, l: nat): LstmLayer.LstmLayerConfig {
    LstmLayer.LstmLayerConfig(c.inputDim, LayerInputSize(c, l), c.hiddenSize)
  }

  /** Every layer and the head have the configuration and sizes `init_lstm_model` gives them. */
  predicate Shaped(model: LstmModel) {
    var c := model.config;
    && |model.layers| == c.numLayers
    && (forall l :: 0 <= l < c.numLayers ==>
          model.layers[l].config == LayerConfig(c, l) && LstmLayer.Shaped(model.layers[l]))
    && model.head.config == Linear.LinearConfig(c.inputDim * c.hiddenSize, c.outputSize)
    && Linear.Shaped(model.head)
  }

  /**
   * `init_lstm_model`: layer 0 built with input_size inputs, every later layer with
   * hidden_size, a head of input_dim * hidden_size inputs and output_size outputs, all zeroed
   * and owning their arrays.
   */
  function InitModel(c: LstmModelConfig): (model: LstmModel)
    ensures model.config == c && Shaped(model) && !model.weightsMapped
    ensures forall l :: 0 <= l < c.numLayers ==>
              && model.layers[l].config.inputSize == (if l == 0 then c.inputSize else c.hiddenSize)
              && AllParamsZero(model.layers[l].weights) && LstmLayer.StateZero(model.layers[l].state)
    ensures AllZero(model.head.weights.weights) && AllZero(model.head.weights.bias)
  {
    var layers := seq(c.numLayers, l requires 0 <= l < c.numLayers =>
                        LstmLayer.InitLayer(c.inputDim, LayerInputSize(c, l), c.hiddenSize));
    LstmModel(c, layers, Linear.InitLayer(c.inputDim * c.hiddenSize, c.outputSize), false)
  }

  // ---------------------------------------------------------------------------
  // Teardown

  /** The heap arrays of a model: the layer array, each layer's arrays, the head's arrays. */
  datatype ModelBuffer =
    | LayerArray
    | LayerBuf(layer: nat, buf: LstmLayer.LstmBuffer)
    | HeadBuf(part: Linear.LinearBuffer)

  /**
   * Whether `b` is a heap array the model refers to: the layer array and every run-state
   * buffer always, the parameter arrays only while they have not been mapped into a blob.
   */
  predicate OnHeap(model: LstmModel, b: ModelBuffer) {
    match b
    case LayerArray => true
    case LayerBuf(l, x) => l < model.config.numLayers && (!x.IsWeight() || !model.weightsMapped)
    case HeadBuf(_) => !model.weightsMapped
  }

  /** The arrays of L layers that `free_lstm_layer(_, freeWeights)` releases. */
  function FreeLayers(L: nat, freeWeights: bool): (freed: set<ModelBuffer>)
    ensures forall b :: b in freed <==> b.LayerBuf? && b.layer < L && b.buf in LstmLayer.FreeLayer(freeWeights)
  {
    set l, x | 0 <= l < L && x in LstmLayer.FreeLayer(freeWeights) :: LayerBuf(l, x)
  }

  /**
   * `free_lstm_model(model, free_weights)` as written: free_weights is passed to every layer,
   * the layer array is freed, and the head's two arrays are freed whatever the flag says.
   */
  function FreeModelAsWritten(L: nat, freeWeights: bool): (freed: set<ModelBuffer>)
    ensures LayerArray in freed && HeadBuf(Linear.WeightsBuf) in freed && HeadBuf(Linear.BiasBuf) in freed
    ensures forall l: nat, x :: LayerBuf(l, x) in freed <==> l < L && (freeWeights || !x.IsWeight())
  {
    {LayerArray} + FreeLayers(L, freeWeights) + set p <- Linear.FreeLayer() :: HeadBuf(p)
  }

  /** `free_lstm_model` with the head's arrays freed under the same flag as the layers' parameters. */
  function FreeModel(L: nat, freeWeights: bool): (freed: set<ModelBuffer>)
    ensures LayerArray in freed
    ensures forall p :: HeadBuf(p) in freed <==> freeWeights
    ensures forall l: nat, x :: LayerBuf(l, x) in freed <==> l < L && (freeWeights || !x.IsWeight())
  {
    {LayerArray} + FreeLayers(L, freeWeights) + if freeWeights then set p <- Linear.FreeLayer() :: HeadBuf(p) else {}
  }

  /** On a model that owns its parameters, freeing with the flag set releases exactly its heap arrays. */
  lemma FreeAsWrittenOwnedModel(model: LstmModel)
    requires !model.weightsMapped
    ensures forall b :: b in FreeModelAsWritten(model.config.numLayers, true) <==> OnHeap(model, b)
  {
    var freed := FreeModelAsWritten(model.config.numLayers, true);
    forall b
      ensures b in freed <==> OnHeap(model, b)
    {
      match b
      case LayerArray =>
      case LayerBuf(l, x) =>
      case HeadBuf(p) =>
        match p
        case WeightsBuf =>
        case BiasBuf =>
    }
  }

  /**
   * On a mapped model, freeing with the flag clear (which keeps the layers' mapped
   * parameters) still passes the head's mapped weight pointer to `free`: an array that is
   * not on the heap.
   */
  lemma FreeAsWrittenFreesMappedHead(model: LstmModel)
    requires model.weightsMapped
    ensures var freed := FreeModelAsWritten(model.config.numLayers, false);
            HeadBuf(Linear.WeightsBuf) in freed && !OnHeap(model, HeadBuf(Linear.WeightsBuf))
  {
  }

  /**
   * Freeing with the flag set exactly when the parameters are owned releases every heap
   * array of the model and nothing else, mapped or not.
   */
  lemma FreeModelReleasesHeap(model: LstmModel)
    ensures forall b :: b in FreeModel(model.config.numLayers, !model.weightsMapped) <==> OnHeap(model, b)
  {
    var freed := FreeModel(model.config.numLayers, !model.weightsMapped);
    forall b
      ensures b in freed <==> OnHeap(model, b)
    {
      match b
      case LayerArray =>
      case LayerBuf(l, x) =>
      case HeadBuf(p) =>
    }
  }

  // ---------------------------------------------------------------------------
  // The driver's layer loop

  /**
   * Layer i of the driver's loop (lines 157-160 as written) passes h_prev from float i * h on
   * to the swapped input-gate `matmul`, which takes h * h floats from there and m rows of W_hi:
   * that call has a read out of range, h_prev holding num_layers * input_dim * h floats,
   * exactly when the kernel's dimension check passes and those floats or rows are not there.
   */
  predicate OutOfRangeAt(c: LstmModelConfig, i: nat) {
    var m, h, L := c.inputDim, c.hiddenSize, c.numLayers;
    Kernels.DimsOk(m, h, h) && (m > h || h * h > L * m * h - i * h)
  }

  /**
   * The driver's configuration has an out-of-range read in layer 0 (64 * 64 floats from a
   * buffer of 3 * 64), and `init_lstm_model` leaves that layer's W_hi zero, so the scan
   * reaches it.
   */
  lemma DemoReadsPastHPrev()
    ensures OutOfRangeAt(DemoConfig(), 0)
    ensures AllZero(InitModel(DemoConfig()).layers[0].weights.whi)
  {
  }

  /** From float i * h on, h_prev still holds the input_dim * h floats layer i < L reads as intended. */
  lemma SlotRoom(L: nat, m: nat, h: nat, i: nat)
    requires i < L && 1 <= m
    ensures i * h <= L * m * h && i * h + m * h <= L * m * h
  {
    MulMono(i, L - 1, h);
    MulMono(L - 1, (L - 1) * m, h);
    assert (L - 1) * m * h + m * h == L * m * h;
  }

  /** h_prev or c_prev from float i * h to its end, the pointer the driver passes layer i. */
  function From(chunks: seq<seq<real>>, c: LstmModelConfig, i: nat): (r: seq<real>)
    requires ChunksShaped(chunks, c) && i < c.numLayers && 1 <= c.inputDim
    ensures |r| == c.numLayers * c.inputDim * c.hiddenSize - i * c.hiddenSize
    ensures c.inputDim * c.hiddenSize <= |r|
  {
    var m, h, L := c.inputDim, c.hiddenSize, c.numLayers;
    FlattenLength(chunks, L * m, h);
    SlotRoom(L, m, h, i);
    Flatten(chunks, L * m)[i * h ..]
  }

  /** Every layer j < k with an out-of-range read that the loop got past has a W_hi that is not zero. */
  predicate PassedOnlyNonZero(model: LstmModel, k: nat)
    requires k <= |model.layers|
  {
    forall j :: 0 <= j < k && OutOfRangeAt(model.config, j) ==> !AllZero(model.layers[j].weights.whi)
  }

  /** Every layer's W_hi is zero, as `init_lstm_model` leaves them. */
  predicate ZeroHidden(model: LstmModel) {
    forall l :: 0 <= l < |model.layers| ==> AllZero(model.layers[l].weights.whi)
  }

  /**
   * With every W_hi zero, a loop that got past the first k layers met no out-of-range read
   * there; so a loop that stops at layer f stops at the first layer with one, and a loop
   * that completes met none.
   */
  lemma ZeroHiddenStops(model: LstmModel, k: nat)
    requires k <= |model.layers| && ZeroHidden(model) && PassedOnlyNonZero(model, k)
    ensures forall j :: 0 <= j < k ==> !OutOfRangeAt(model.config, j)
  {
    forall j | 0 <= j < k
      ensures !OutOfRangeAt(model.config, j)
    {
      assert AllZero(model.layers[j].weights.whi);
    }
  }

  /**
   * With input_dim = 2 the slots the driver hands its layers overlap: for two layers of one
   * hidden unit, layer 0 reads h_prev chunk 1 as its second row, which is the chunk layer 1
   * reads as its first row, and only chunk 0 gets layer 0's new hidden state back.
   */
  lemma SlotsOverlap(hp: seq<seq<real>>)
    requires ChunksShaped(hp, LstmModelConfig(2, 1, 1, 1, 2))
    ensures var c := LstmModelConfig(2, 1, 1, 1, 2);
            From(hp, c, 0)[1] == hp[1][0] && From(hp, c, 1)[0] == hp[1][0]
  {
    var c := LstmModelConfig(2, 1, 1, 1, 2);
    FlattenAt(hp, 4, 1, 1);
    assert Flatten(hp, 4)[1 .. 2] == hp[1];
  }

  /**
   * One as-written layer call as the driver makes it, status included (the driver ignores
   * it): when the pass does not read past h_prev it succeeds exactly when every kernel call
   * does, and then leaves the code's buffers.
   */
  method LayerAsWritten(act: Activations, layer: LstmLayer.LstmLayer, input: seq<real>, hPrev: seq<real>, cPrev: seq<real>)
    returns (st: MathStatus, r: Option<LstmLayer.LstmLayer>)
    requires LstmLayer.Shaped(layer) && 1 <= layer.config.inputDim
    requires layer.config.inputSize <= |input|
    requires layer.config.inputDim * layer.config.hiddenSize <= |hPrev|
    requires layer.config.inputDim * layer.config.hiddenSize <= |cPrev|
    ensures var m, h := layer.config.inputDim, layer.config.hiddenSize;
            r.None? <==> Kernels.DimsOk(m, h, h) && Kernels.ReadsPast(layer.weights.whi, hPrev, m, h, h)
    ensures r.None? ==> LstmLayer.SwappedOutOfRange(layer.config.inputDim, layer.config.hiddenSize, |hPrev|)
    ensures (LstmLayer.SwappedOutOfRange(layer.config.inputDim, layer.config.hiddenSize, |hPrev|) &&
             AllZero(layer.weights.whi)) ==> r.None?
    ensures r.Some? ==>
              && r.value.config == layer.config && r.value.weights == layer.weights && LstmLayer.Shaped(r.value)
              && input[..layer.config.inputSize] <= r.value.state.input
    ensures r.Some? ==>
              var m, n, h := layer.config.inputDim, layer.config.inputSize, layer.config.hiddenSize;
              (st == Success <==> LstmLayer.AsWrittenRuns(layer.weights, r.value.state.input, hPrev, m, n, h))
    ensures r.Some? && st == Success ==>
              var m, n, h := layer.config.inputDim, layer.config.inputSize, layer.config.hiddenSize;
              && Kernels.DimsOk(m, h, h) && m <= h && h * h <= |hPrev|
              && (MulMono(1, m, h); MulMono(m, h, h);
                  LstmLayer.LeavesAsWritten(act, layer.weights, r.value.state, hPrev, cPrev, m, n, h))
  {
    st, r := LstmLayer.Forward(act, layer, input, hPrev, cPrev);
  }

  /**
   * Lines 157-160 as written for layer i: h_prev and c_prev from chunk i on.  The call reads
   * past h_prev exactly when the scan of its swapped `matmul` gets to a read out of range;
   * that takes `OutOfRangeAt`, and a zero W_hi always gets there.
   */
  method LayerStepAsWritten(act: Activations, c: LstmModelConfig, layer: LstmLayer.LstmLayer, input: seq<real>,
                            hp: seq<seq<real>>, cp: seq<seq<real>>, i: nat)
    returns (st: MathStatus, r: Option<LstmLayer.LstmLayer>)
    requires layer.config == LayerConfig(c, i) && LstmLayer.Shaped(layer)
    requires i < c.numLayers && 1 <= c.inputDim && LayerInputSize(c, i) <= |input|
    requires ChunksShaped(hp, c) && ChunksShaped(cp, c)
    ensures r.None? <==>
              Kernels.DimsOk(c.inputDim, c.hiddenSize, c.hiddenSize) &&
              Kernels.ReadsPast(layer.weights.whi, From(hp, c, i), c.inputDim, c.hiddenSize, c.hiddenSize)
    ensures r.None? ==> OutOfRangeAt(c, i)
    ensures OutOfRangeAt(c, i) && AllZero(layer.weights.whi) ==> r.None?
    ensures r.Some? ==>
              && r.value.config == layer.config && r.value.weights == layer.weights && LstmLayer.Shaped(r.value)
              && input[..LayerInputSize(c, i)] <= r.value.state.input
    ensures r.Some? ==>
              (st == Success <==>
               LstmLayer.AsWrittenRuns(layer.weights, r.value.state.input, From(hp, c, i),
                                       c.inputDim, LayerInputSize(c, i), c.hiddenSize))
    ensures r.Some? && st == Success ==>
              var m, h := c.inputDim, c.hiddenSize;
              && Kernels.DimsOk(m, h, h) && m <= h && h * h <= |From(hp, c, i)|
              && (MulMono(1, m, h); MulMono(m, h, h);
                  LstmLayer.LeavesAsWritten(act, layer.weights, r.value.state, From(hp, c, i), From(cp, c, i),
                                            m, LayerInputSize(c, i), h))
  {
    st, r := LayerAsWritten(act, layer, input, From(hp, c, i), From(cp, c, i));
  }

  /** Outcome of the driver's loop and head call as written. */
  datatype RunOutcome =
    | Ran(model: LstmModel, hPrev: seq<seq<real>>, cPrev: seq<seq<real>>, output: seq<real>, headStatus: MathStatus)
    | ReadsPastHPrev(layer: nat, hPrev: seq<seq<real>>)

  /** h_prev and c_prev as written: num_layers * input_dim chunks of h floats, layer i starting at chunk i. */
  predicate ChunksShaped(chunks: seq<seq<real>>, c: LstmModelConfig) {
    |chunks| == c.numLayers * c.inputDim && forall k :: 0 <= k < |chunks| ==> |chunks[k]| == c.hiddenSize
  }

  /**
   * After the first i layers of the loop: chunk l < i of h_prev and c_prev begins layer l's
   * hidden and cell buffers, and layer l > 0 was fed the chunk of the layer before.
   */
  predicate SlotsHold(layers: seq<LstmLayer.LstmLayer>, hp: seq<seq<real>>, cp: seq<seq<real>>, i: nat)
    requires i <= |layers| && i <= |hp| && i <= |cp|
  {
    && (forall l :: 0 <= l < i ==> hp[l] <= layers[l].state.hidden && cp[l] <= layers[l].state.cell)
    && (forall l :: 0 < l < i ==> hp[l - 1] <= layers[l].state.input)
  }

  /** Storing layer i's buffers into chunk i extends `SlotsHold` by one layer. */
  lemma SlotsStep(layers: seq<LstmLayer.LstmLayer>, hp: seq<seq<real>>, cp: seq<seq<real>>, i: nat,
                  layer: LstmLayer.LstmLayer, sh: seq<real>, sc: seq<real>)
    requires i < |layers| && i < |hp| && i < |cp| && SlotsHold(layers, hp, cp, i)
    requires i > 0 ==> hp[i - 1] <= layer.state.input
    requires sh <= layer.state.hidden && sc <= layer.state.cell
    ensures SlotsHold(layers[i := layer], hp[i := sh], cp[i := sc], i + 1)
  {
  }

  /** What holds after the first i layers of the loop as written. */
  predicate LoopHolds(model: LstmModel, input: seq<real>, hPrev: seq<seq<real>>, cPrev: seq<seq<real>>,
                      layers: seq<LstmLayer.LstmLayer>, hp: seq<seq<real>>, cp: seq<seq<real>>, i: nat)
  {
    var c, L := model.config, model.config.numLayers;
    && i <= L && L <= |hp| && L <= |cp| && ChunksShaped(hp, c) && ChunksShaped(cp, c)
    && Shaped(model.(layers := layers)) && |model.layers| == L
    && (forall l :: 0 <= l < L ==> layers[l].weights == model.layers[l].weights)
    && PassedOnlyNonZero(model, i)
    && (i > 0 ==> c.inputSize <= |input| && input[..c.inputSize] <= layers[0].state.input)
    && SlotsHold(layers, hp, cp, i)
    && |hp| == |hPrev| && |cp| == |cPrev|
    && (forall k :: i <= k < |hPrev| ==> hp[k] == hPrev[k] && cp[k] == cPrev[k])
  }

  /** One turn of the loop as written: layer i either reads past h_prev or extends `LoopHolds`. */
  method LoopStepAsWritten(act: Activations, model: LstmModel, input: seq<real>, hPrev: seq<seq<real>>, cPrev: seq<seq<real>>,
                           layers: seq<LstmLayer.LstmLayer>, hp: seq<seq<real>>, cp: seq<seq<real>>, i: nat)
    returns (stop: bool, layers': seq<LstmLayer.LstmLayer>, hp': seq<seq<real>>, cp': seq<seq<real>>)
    requires Shaped(model) && 1 <= model.config.inputDim && model.config.inputSize <= |input|
    requires i < model.config.numLayers && LoopHolds(model, input, hPrev, cPrev, layers, hp, cp, i)
    ensures var c := model.config;
            stop <==> Kernels.DimsOk(c.inputDim, c.hiddenSize, c.hiddenSize) &&
                      Kernels.ReadsPast(model.layers[i].weights.whi, From(hp, c, i), c.inputDim, c.hiddenSize, c.hiddenSize)
    ensures stop ==> OutOfRangeAt(model.config, i)
    ensures OutOfRangeAt(model.config, i) && AllZero(model.layers[i].weights.whi) ==> stop
    ensures !stop ==> LoopHolds(model, input, hPrev, cPrev, layers', hp', cp', i + 1)
  {
    var c := model.config;
    var m, h := c.inputDim, c.hiddenSize;
    MulMono(1, m, h);
    var inp := if i == 0 then input else layers[i - 1].state.hidden;
    var _, r := LayerStepAsWritten(act, c, layers[i], inp, hp, cp, i);
    if r.None? {
      return true, layers, hp, cp;
    }
    var layer := r.value;
    LoopHoldsStep(model, input, hPrev, cPrev, layers, hp, cp, i, inp, layer);
    stop, layers', hp', cp' := false, layers[i := layer], hp[i := layer.state.hidden[..h]], cp[i := layer.state.cell[..h]];
  }

  /**
   * A layer i that kept its configuration and parameters, took its input from the layer
   * before (the model input for layer 0) and did not stop the loop extends `LoopHolds` once
   * its first h hidden and cell floats are stored in chunk i.
   */
  lemma LoopHoldsStep(model: LstmModel, input: seq<real>, hPrev: seq<seq<real>>, cPrev: seq<seq<real>>,
                      layers: seq<LstmLayer.LstmLayer>, hp: seq<seq<real>>, cp: seq<seq<real>>, i: nat,
                      inp: seq<real>, layer: LstmLayer.LstmLayer)
    requires Shaped(model) && 1 <= model.config.inputDim && model.config.inputSize <= |input|
    requires i < model.config.numLayers && LoopHolds(model, input, hPrev, cPrev, layers, hp, cp, i)
    requires inp == if i == 0 then input else layers[i - 1].state.hidden
    requires layer.config == layers[i].config && layer.weights == layers[i].weights && LstmLayer.Shaped(layer)
    requires LayerInputSize(model.config, i) <= |inp| && inp[..LayerInputSize(model.config, i)] <= layer.state.input
    requires !(OutOfRangeAt(model.config, i) && AllZero(model.layers[i].weights.whi))
    ensures var h := model.config.hiddenSize;
            (MulMono(1, model.config.inputDim, h);
             LoopHolds(model, input, hPrev, cPrev, layers[i := layer], hp[i := layer.state.hidden[..h]],
                       cp[i := layer.state.cell[..h]], i + 1))
  {
    var c, h := model.config, model.config.hiddenSize;
    MulMono(1, c.inputDim, h);
    if i > 0 {
      assert hp[i - 1] == inp[..h];
    }
    var layers', hp', cp' := layers[i := layer], hp[i := layer.state.hidden[..h]], cp[i := layer.state.cell[..h]];
    SlotsStep(layers, hp, cp, i, layer, hp'[i], cp'[i]);
    SwapShaped(model, layers, i, layer);
    ChunksStep(hp, c, i, hp'[i]);
    ChunksStep(cp, c, i, cp'[i]);
    assert PassedOnlyNonZero(model, i + 1);
    assert input[..c.inputSize] <= layers'[0].state.input;
  }

  /** Replacing layer i by one of the same configuration, shape and parameters keeps the model shaped. */
  lemma SwapShaped(model: LstmModel, layers: seq<LstmLayer.LstmLayer>, i: nat, layer: LstmLayer.LstmLayer)
    requires Shaped(model.(layers := layers)) && |model.layers| == |layers| && i < |layers|
    requires forall l :: 0 <= l < |layers| ==> layers[l].weights == model.layers[l].weights
    requires layer.config == layers[i].config && layer.weights == layers[i].weights && LstmLayer.Shaped(layer)
    ensures Shaped(model.(layers := layers[i := layer]))
    ensures forall l :: 0 <= l < |layers| ==> layers[i := layer][l].weights == model.layers[l].weights
  {
  }

  /** Storing a chunk of h floats keeps h_prev (or c_prev) shaped. */
  lemma ChunksStep(chunks: seq<seq<real>>, c: LstmModelConfig, i: nat, v: seq<real>)
    requires ChunksShaped(chunks, c) && i < |chunks| && |v| == c.hiddenSize
    ensures ChunksShaped(chunks[i := v], c)
  {
  }

  /**
   * What a completed loop as written leaves: the parameters never changed, layer 0 received
   * the first input_size input floats, each later layer the first h floats of the layer
   * before's hidden buffer, and h_prev and c_prev chunk l < num_layers hold the first h floats
   * of layer l's hidden and cell buffers while the other chunks keep their values.
   */
  predicate LoopDone(model: LstmModel, input: seq<real>, hPrev: seq<seq<real>>, cPrev: seq<seq<real>>,
                     layers: seq<LstmLayer.LstmLayer>, hp: seq<seq<real>>, cp: seq<seq<real>>)
  {
    var c, L := model.config, model.config.numLayers;
    && 1 <= L && |layers| == L && |model.layers| == L && Shaped(model.(layers := layers))
    && (forall l :: 0 <= l < L ==> layers[l].weights == model.layers[l].weights)
    && c.inputSize <= |input| && input[..c.inputSize] <= layers[0].state.input
    && ChunksShaped(hp, c) && ChunksShaped(cp, c) && L <= |hp| && L <= |cp|
    && (forall l :: 0 < l < L ==> hp[l - 1] <= layers[l].state.input)
    && (forall l :: 0 <= l < L ==> hp[l] <= layers[l].state.hidden && cp[l] <= layers[l].state.cell)
    && |hp| == |hPrev| && |cp| == |cPrev|
    && (forall k :: L <= k < |hPrev| ==> hp[k] == hPrev[k] && cp[k] == cPrev[k])
  }

  /**
   * Lines 150-173 as written: the layer loop.  It stops at the first layer whose call reads
   * past h_prev, returning h_prev and c_prev as that layer found them; a layer with an
   * out-of-range read that the loop got past had a W_hi that is not zero (its scan tripped
   * the FLT_MAX guard first).  Otherwise the parameters never change, layer 0 received the
   * first input_size input floats, each later layer the first h floats of the layer
   * before's hidden buffer, and h_prev and c_prev chunk i hold the first h floats of layer
   * i's hidden and cell buffers while the other chunks keep their values.
   */
  method LoopAsWritten(act: Activations, model: LstmModel, input: seq<real>, hPrev: seq<seq<real>>, cPrev: seq<seq<real>>)
    returns (fault: Option<nat>, layers: seq<LstmLayer.LstmLayer>, hp: seq<seq<real>>, cp: seq<seq<real>>)
    requires Shaped(model) && 1 <= model.config.numLayers && 1 <= model.config.inputDim
    requires model.config.inputSize <= |input|
    requires ChunksShaped(hPrev, model.config) && ChunksShaped(cPrev, model.config)
    ensures ChunksShaped(hp, model.config) && ChunksShaped(cp, model.config)
    ensures fault.Some? ==>
              var c, f := model.config, fault.value;
              && f < c.numLayers && OutOfRangeAt(c, f)
              && Kernels.ReadsPast(model.layers[f].weights.whi, From(hp, c, f), c.inputDim, c.hiddenSize, c.hiddenSize)
              && PassedOnlyNonZero(model, f)
    ensures fault.None? ==>
              && PassedOnlyNonZero(model, model.config.numLayers)
              && LoopDone(model, input, hPrev, cPrev, layers, hp, cp)
  {
    var L := model.config.numLayers;
    MulMono(1, model.config.inputDim, L);
    layers, hp, cp := model.layers, hPrev, cPrev;
    LoopHoldsStart(model, input, hPrev, cPrev);
    for i := 0 to L
      invariant LoopHolds(model, input, hPrev, cPrev, layers, hp, cp, i)
    {
      var stop, layers', hp', cp' := LoopStepAsWritten(act, model, input, hPrev, cPrev, layers, hp, cp, i);
      if stop {
        return Some(i), layers, hp, cp;
      }
      layers, hp, cp := layers', hp', cp';
    }
    LoopHoldsDone(model, input, hPrev, cPrev, layers, hp, cp);
    fault := None;
  }

  /** Before the first layer, `LoopHolds` holds of the model's own layers and the caller's h_prev and c_prev. */
  lemma LoopHoldsStart(model: LstmModel, input: seq<real>, hPrev: seq<seq<real>>, cPrev: seq<seq<real>>)
    requires Shaped(model) && 1 <= model.config.inputDim
    requires ChunksShaped(hPrev, model.config) && ChunksShaped(cPrev, model.config)
    ensures LoopHolds(model, input, hPrev, cPrev, model.layers, hPrev, cPrev, 0)
  {
    MulMono(1, model.config.inputDim, model.config.numLayers);
  }

  /** After the last layer, `LoopHolds` is `LoopDone` and every out-of-range read passed had a nonzero W_hi. */
  lemma LoopHoldsDone(model: LstmModel, input: seq<real>, hPrev: seq<seq<real>>, cPrev: seq<seq<real>>,
                      layers: seq<LstmLayer.LstmLayer>, hp: seq<seq<real>>, cp: seq<seq<real>>)
    requires 1 <= model.config.numLayers && model.config.inputSize <= |input|
    requires LoopHolds(model, input, hPrev, cPrev, layers, hp, cp, model.config.numLayers)
    ensures PassedOnlyNonZero(model, model.config.numLayers)
    ensures LoopDone(model, input, hPrev, cPrev, layers, hp, cp)
  {
  }

  /**
   * Lines 150-178 as written: the layer loop, then the head on the last layer's hidden
   * buffer.  The pass stops at the first layer that reads past h_prev, which has an
   * out-of-range read; when every W_hi is zero, as `init_lstm_model` leaves them, it reads
   * past h_prev exactly when some layer has an out-of-range read.  Otherwise it keeps
   * everything the loop promises and, when the head's kernels succeed, the output holds the
   * head applied to the last hidden buffer.
   */
  method RunAsWritten(act: Activations, model: LstmModel, input: seq<real>,
                      hPrev: seq<seq<real>>, cPrev: seq<seq<real>>, output: seq<real>)
    returns (o: RunOutcome)
    requires Shaped(model) && 1 <= model.config.numLayers && 1 <= model.config.inputDim
    requires model.config.inputSize <= |input| && model.config.outputSize <= |output|
    requires ChunksShaped(hPrev, model.config) && ChunksShaped(cPrev, model.config)
    ensures o.ReadsPastHPrev? ==>
              var c, f := model.config, o.layer;
              && f < c.numLayers && OutOfRangeAt(c, f) && ChunksShaped(o.hPrev, c)
              && Kernels.ReadsPast(model.layers[f].weights.whi, From(o.hPrev, c, f), c.inputDim, c.hiddenSize, c.hiddenSize)
              && PassedOnlyNonZero(model, f)
    ensures o.Ran? ==> PassedOnlyNonZero(model, model.config.numLayers)
    ensures ZeroHidden(model) ==>
              && (o.ReadsPastHPrev? <==> exists i :: 0 <= i < model.config.numLayers && OutOfRangeAt(model.config, i))
              && (o.ReadsPastHPrev? ==> forall j :: 0 <= j < o.layer ==> !OutOfRangeAt(model.config, j))
    ensures o.Ran? ==>
              && o.model == model.(layers := o.model.layers)
              && LoopDone(model, input, hPrev, cPrev, o.model.layers, o.hPrev, o.cPrev)
              && |o.output| == |output|
    ensures o.Ran? ==>
              (o.headStatus == Success <==> HeadRuns(model, o.model.layers[model.config.numLayers - 1].state.hidden))
    ensures o.Ran? && o.headStatus == Success ==>
              var c, L := model.config, model.config.numLayers;
              o.output[..c.outputSize] ==
              Affine(o.model.layers[L - 1].state.hidden, model.head.weights.weights, model.head.weights.bias,
                     1, c.inputDim * c.hiddenSize, c.outputSize)
  {
    var fault, layers, hp, cp := LoopAsWritten(act, model, input, hPrev, cPrev);
    if ZeroHidden(model) {
      ZeroHiddenStops(model, if fault.Some? then fault.value else model.config.numLayers);
    }
    if fault.Some? {
      return ReadsPastHPrev(fault.value, hp);
    }
    var model' := model.(layers := layers);
    var st, out := HeadAsWritten(model', output);
    var x := layers[model.config.numLayers - 1].state.hidden;
    assert HeadRuns(model', x) == HeadRuns(model, x);
    o := Ran(model', hp, cp, out, st);
    assert o.model.layers == layers && o.hPrev == hp && o.cPrev == cp;
  }

  /**
   * `linear_layer_forward` on x succeeds: one row of input_dim * h floats passes `matmul`'s
   * dimension check and FLT_MAX guard, and output_size passes `add`'s MAX_DIM check.
   */
  predicate HeadRuns(model: LstmModel, x: seq<real>) {
    var k, p := model.config.inputDim * model.config.hiddenSize, model.config.outputSize;
    Kernels.Multiplies(x, model.head.weights.weights, 1, k, p) && p <= MAX_DIM
  }

  /** Lines 176-178: the head on the last layer's hidden buffer. */
  method HeadAsWritten(model: LstmModel, output: seq<real>) returns (st: MathStatus, out: seq<real>)
    requires Shaped(model) && 1 <= model.config.numLayers && model.config.outputSize <= |output|
    ensures |out| == |output|
    ensures st == Success <==> HeadRuns(model, model.layers[model.config.numLayers - 1].state.hidden)
    ensures st == Success ==>
              var c := model.config;
              out[..c.outputSize] ==
              Affine(model.layers[c.numLayers - 1].state.hidden, model.head.weights.weights, model.head.weights.bias,
                     1, c.inputDim * c.hiddenSize, c.outputSize)
  {
    var L := model.config.numLayers;
    assert LstmLayer.Shaped(model.layers[L - 1]);
    st, out := Linear.Forward(model.head, model.layers[L - 1].state.hidden, output);
  }

  // ---------------------------------------------------------------------------
  // The driver's layer loop, corrected

  /** h_prev and c_prev as slots: one slot of input_dim * h floats per layer. */
  predicate SlotsOf(slots: seq<seq<real>>, c: LstmModelConfig) {
    |slots| == c.numLayers && forall l :: 0 <= l < |slots| ==> |slots[l]| == c.inputDim * c.hiddenSize
  }

  /** The h and c slots after layers 0 .. k - 1 have run, and the input of layer k. */
  datatype Pass = Pass(hidden: seq<seq<real>>, cell: seq<seq<real>>, x: seq<real>)

  /**
   * The stacked LSTM step as a reference definition: layer l runs the cell of `LstmCell` on
   * the hidden state of layer l - 1 (the model input for layer 0), its own h and c slots
   * from before the pass, and its own parameters; its new h and c replace its slots.
   */
  function Run(act: Activations, model: LstmModel, input: seq<real>, hs: seq<seq<real>>, cs: seq<seq<real>>, k: nat)
    : (p: Pass)
    requires Shaped(model) && k <= model.config.numLayers
    requires SlotsOf(hs, model.config) && SlotsOf(cs, model.config)
    requires model.config.inputDim * model.config.inputSize <= |input|
    ensures SlotsOf(p.hidden, model.config) && SlotsOf(p.cell, model.config)
    ensures k == 0 ==> p.x == input
    ensures k > 0 ==> |p.x| == model.config.inputDim * model.config.hiddenSize
    decreases k
  {
    if k == 0 then Pass(hs, cs, input)
    else
      var c, l := model.config, k - 1;
      var m, h := c.inputDim, c.hiddenSize;
      var p := Run(act, model, input, hs, cs, l);
      var g := GatesOf(act, model.layers[l].weights, p.x, hs[l], m, LayerInputSize(c, l), h);
      var cNew := CellOf(g, cs[l], m * h);
      var hNew := HiddenOf(act, g, cNew, m * h);
      Pass(p.hidden[l := hNew], p.cell[l := cNew], hNew)
  }

  /**
   * Every kernel call of corrected layers 0 .. k - 1 succeeds, each layer running on the
   * input `Run` hands it and its own h slot from before the pass.
   */
  predicate RunSucceeds(act: Activations, model: LstmModel, input: seq<real>, hs: seq<seq<real>>, cs: seq<seq<real>>, k: nat)
    requires Shaped(model) && k <= model.config.numLayers
    requires SlotsOf(hs, model.config) && SlotsOf(cs, model.config)
    requires model.config.inputDim * model.config.inputSize <= |input|
    decreases k
  {
    k == 0 ||
    (var c, l := model.config, k - 1;
     && RunSucceeds(act, model, input, hs, cs, l)
     && LstmLayer.CorrectedRuns(model.layers[l].weights, Run(act, model, input, hs, cs, l).x, hs[l],
                                c.inputDim, LayerInputSize(c, l), c.hiddenSize))
  }

  /** What holds after the first i layers of the corrected loop. */
  predicate CorrectedHolds(act: Activations, model: LstmModel, input: seq<real>, hPrev: seq<seq<real>>, cPrev: seq<seq<real>>,
                           layers: seq<LstmLayer.LstmLayer>, hp: seq<seq<real>>, cp: seq<seq<real>>, st: MathStatus, i: nat)
    requires Shaped(model) && i <= model.config.numLayers
    requires SlotsOf(hPrev, model.config) && SlotsOf(cPrev, model.config)
    requires model.config.inputDim * model.config.inputSize <= |input|
  {
    && LoopShape(model, hPrev, cPrev, layers, hp, cp, i)
    && (st == Success <==> RunSucceeds(act, model, input, hPrev, cPrev, i))
    && (st == Success ==> SlotsAreRun(act, model, input, hPrev, cPrev, layers, hp, cp, i))
  }

  /**
   * The layers keep the model's configuration and parameters, the slots their shape, and
   * slots i and later their values from before the pass.
   */
  predicate LoopShape(model: LstmModel, hPrev: seq<seq<real>>, cPrev: seq<seq<real>>,
                      layers: seq<LstmLayer.LstmLayer>, hp: seq<seq<real>>, cp: seq<seq<real>>, i: nat)
    requires Shaped(model) && SlotsOf(hPrev, model.config) && SlotsOf(cPrev, model.config)
  {
    var c, L := model.config, model.config.numLayers;
    && Shaped(model.(layers := layers))
    && (forall l :: 0 <= l < L ==> layers[l].weights == model.layers[l].weights)
    && SlotsOf(hp, c) && SlotsOf(cp, c)
    && (forall k :: i <= k < L ==> hp[k] == hPrev[k] && cp[k] == cPrev[k])
  }

  /** Replacing layer i by one of the same configuration and parameters, and slot i by its buffers, keeps `LoopShape`. */
  lemma LoopShapeStep(model: LstmModel, hPrev: seq<seq<real>>, cPrev: seq<seq<real>>,
                      layers: seq<LstmLayer.LstmLayer>, hp: seq<seq<real>>, cp: seq<seq<real>>, i: nat,
                      layer: LstmLayer.LstmLayer)
    requires Shaped(model) && SlotsOf(hPrev, model.config) && SlotsOf(cPrev, model.config) && i < model.config.numLayers
    requires LoopShape(model, hPrev, cPrev, layers, hp, cp, i)
    requires layer.config == layers[i].config && layer.weights == layers[i].weights && LstmLayer.Shaped(layer)
    ensures LoopShape(model, hPrev, cPrev, layers[i := layer], hp[i := layer.state.hidden], cp[i := layer.state.cell], i + 1)
  {
  }

  /** The h and c slots are Run's after i layers, and layer i - 1's hidden buffer is the input Run hands layer i. */
  predicate SlotsAreRun(act: Activations, model: LstmModel, input: seq<real>, hPrev: seq<seq<real>>, cPrev: seq<seq<real>>,
                        layers: seq<LstmLayer.LstmLayer>, hp: seq<seq<real>>, cp: seq<seq<real>>, i: nat)
    requires Shaped(model) && i <= model.config.numLayers && i <= |layers|
    requires SlotsOf(hPrev, model.config) && SlotsOf(cPrev, model.config)
    requires model.config.inputDim * model.config.inputSize <= |input|
  {
    var p := Run(act, model, input, hPrev, cPrev, i);
    && hp == p.hidden && cp == p.cell
    && (i > 0 ==> layers[i - 1].state.hidden == p.x)
  }

  /** After the last layer the slots are Run's, and the last hidden buffer is the input Run would hand a next layer. */
  lemma SlotsAreRunDone(act: Activations, model: LstmModel, input: seq<real>, hPrev: seq<seq<real>>, cPrev: seq<seq<real>>,
                        layers: seq<LstmLayer.LstmLayer>, hp: seq<seq<real>>, cp: seq<seq<real>>)
    requires Shaped(model) && 1 <= model.config.numLayers <= |layers|
    requires SlotsOf(hPrev, model.config) && SlotsOf(cPrev, model.config)
    requires model.config.inputDim * model.config.inputSize <= |input|
    requires SlotsAreRun(act, model, input, hPrev, cPrev, layers, hp, cp, model.config.numLayers)
    ensures var p := Run(act, model, input, hPrev, cPrev, model.config.numLayers);
            hp == p.hidden && cp == p.cell && layers[model.config.numLayers - 1].state.hidden == p.x
  {
  }

  /** A layer that leaves the reference step of layer i in its buffers extends `SlotsAreRun` by one layer. */
  lemma SlotsAreRunStep(act: Activations, model: LstmModel, input: seq<real>, hPrev: seq<seq<real>>, cPrev: seq<seq<real>>,
                        layers: seq<LstmLayer.LstmLayer>, hp: seq<seq<real>>, cp: seq<seq<real>>, i: nat,
                        layer: LstmLayer.LstmLayer)
    requires Shaped(model) && i < model.config.numLayers && i < |layers|
    requires SlotsOf(hPrev, model.config) && SlotsOf(cPrev, model.config)
    requires model.config.inputDim * model.config.inputSize <= |input|
    requires SlotsAreRun(act, model, input, hPrev, cPrev, layers, hp, cp, i)
    requires var c := model.config;
             var m, h := c.inputDim, c.hiddenSize;
             var g := GatesOf(act, model.layers[i].weights, Run(act, model, input, hPrev, cPrev, i).x, hPrev[i],
                              m, LayerInputSize(c, i), h);
             && layer.state.cell == CellOf(g, cPrev[i], m * h)
             && layer.state.hidden == HiddenOf(act, g, layer.state.cell, m * h)
    ensures SlotsAreRun(act, model, input, hPrev, cPrev, layers[i := layer], hp[i := layer.state.hidden],
                        cp[i := layer.state.cell], i + 1)
  {
  }

  /** One turn of the corrected loop extends `CorrectedHolds` by one layer. */
  method LoopStepCorrected(act: Activations, model: LstmModel, input: seq<real>, hPrev: seq<seq<real>>, cPrev: seq<seq<real>>,
                           layers: seq<LstmLayer.LstmLayer>, hp: seq<seq<real>>, cp: seq<seq<real>>, st: MathStatus, i: nat)
    returns (layers': seq<LstmLayer.LstmLayer>, hp': seq<seq<real>>, cp': seq<seq<real>>, st': MathStatus)
    requires Shaped(model) && i < model.config.numLayers
    requires SlotsOf(hPrev, model.config) && SlotsOf(cPrev, model.config)
    requires model.config.inputDim * model.config.inputSize <= |input|
    requires CorrectedHolds(act, model, input, hPrev, cPrev, layers, hp, cp, st, i)
    ensures CorrectedHolds(act, model, input, hPrev, cPrev, layers', hp', cp', st', i + 1)
  {
    var inp := if i == 0 then input else layers[i - 1].state.hidden;
    var s1, layer := LstmLayer.ForwardCorrected(act, layers[i], inp, hp[i], cp[i]);
    st' := First(st, s1);
    layers', hp', cp' := layers[i := layer], hp[i := layer.state.hidden], cp[i := layer.state.cell];
    var cf := layers[i].config;
    StatusStep(act, model, input, hPrev, cPrev, i, inp, hp[i], layers[i].weights, cf.inputDim, cf.inputSize, cf.hiddenSize, st, s1);
    LoopShapeStep(model, hPrev, cPrev, layers, hp, cp, i, layer);
    if st' == Success {
      SlotsAreRunStep(act, model, input, hPrev, cPrev, layers, hp, cp, i, layer);
    }
  }

  /**
   * Layer i extends `RunSucceeds` exactly when its kernels pass on the input and h slot the
   * loop hands it, which are Run's whenever the earlier layers succeeded.
   */
  lemma StatusStep(act: Activations, model: LstmModel, input: seq<real>, hPrev: seq<seq<real>>, cPrev: seq<seq<real>>,
                   i: nat, x: seq<real>, hi: seq<real>, w: LstmParams, m: nat, n: nat, h: nat, st: MathStatus, s1: MathStatus)
    requires Shaped(model) && i < model.config.numLayers
    requires SlotsOf(hPrev, model.config) && SlotsOf(cPrev, model.config)
    requires model.config.inputDim * model.config.inputSize <= |input|
    requires w == model.layers[i].weights && LstmLayer.LstmLayerConfig(m, n, h) == LayerConfig(model.config, i)
    requires st == Success <==> RunSucceeds(act, model, input, hPrev, cPrev, i)
    requires st == Success ==> x == Run(act, model, input, hPrev, cPrev, i).x && hi == hPrev[i]
    requires s1 == Success <==> LstmLayer.CorrectedRuns(w, x, hi, m, n, h)
    ensures First(st, s1) == Success <==> RunSucceeds(act, model, input, hPrev, cPrev, i + 1)
  {
  }

  /**
   * Lines 150-178 with the evidently intended layer step (`LstmLayer.ForwardCorrected`) and
   * one slot of input_dim * h floats per layer.  The parameters never change, and when every
   * kernel call succeeds h_prev and c_prev hold the new h and c of every layer of the
   * reference `Run` and the output holds the head applied to the last layer's new h.
   */
  method RunCorrected(act: Activations, model: LstmModel, input: seq<real>,
                      hPrev: seq<seq<real>>, cPrev: seq<seq<real>>, output: seq<real>)
    returns (st: MathStatus, model': LstmModel, hPrev': seq<seq<real>>, cPrev': seq<seq<real>>, output': seq<real>)
    requires Shaped(model) && 1 <= model.config.numLayers
    requires model.config.inputDim * model.config.inputSize <= |input| && model.config.outputSize <= |output|
    requires SlotsOf(hPrev, model.config) && SlotsOf(cPrev, model.config)
    ensures model'.config == model.config && model'.head == model.head && model'.weightsMapped == model.weightsMapped
    ensures Shaped(model') && forall l :: 0 <= l < model.config.numLayers ==> model'.layers[l].weights == model.layers[l].weights
    ensures SlotsOf(hPrev', model.config) && SlotsOf(cPrev', model.config) && |output'| == |output|
    ensures st == Success <==>
              && RunSucceeds(act, model, input, hPrev, cPrev, model.config.numLayers)
              && HeadRuns(model, Run(act, model, input, hPrev, cPrev, model.config.numLayers).x)
    ensures st == Success ==>
              var c := model.config;
              var p := Run(act, model, input, hPrev, cPrev, c.numLayers);
              && hPrev' == p.hidden && cPrev' == p.cell
              && output'[..c.outputSize] ==
                 Affine(p.x, model.head.weights.weights, model.head.weights.bias, 1, c.inputDim * c.hiddenSize, c.outputSize)
  {
    var L := model.config.numLayers;
    var layers, hp, cp := model.layers, hPrev, cPrev;
    st := Success;
    for i := 0 to L
      invariant CorrectedHolds(act, model, input, hPrev, cPrev, layers, hp, cp, st, i)
    {
      layers, hp, cp, st := LoopStepCorrected(act, model, input, hPrev, cPrev, layers, hp, cp, st, i);
    }
    model', hPrev', cPrev' := model.(layers := layers), hp, cp;
    if st == Success {
      SlotsAreRunDone(act, model, input, hPrev, cPrev, layers, hp, cp);
    }
    var sHead;
    sHead, output' := HeadAsWritten(model', output);
    st := First(st, sHead);
  }

  /**
   * With every parameter zero and every c slot zero, whatever the input and the h slots,
   * each layer's new h and c are zero, and so is the input it passes on.
   */
  lemma {:induction false} ZeroParamsRun(act: Activations, model: LstmModel, input: seq<real>,
                                         hs: seq<seq<real>>, cs: seq<seq<real>>, k: nat)
    requires AnchoredAtZero(act)
    requires Shaped(model) && k <= model.config.numLayers
    requires SlotsOf(hs, model.config) && SlotsOf(cs, model.config)
    requires model.config.inputDim * model.config.inputSize <= |input|
    requires forall l :: 0 <= l < model.config.numLayers ==> AllParamsZero(model.layers[l].weights)
    requires forall l :: 0 <= l < model.config.numLayers ==> AllZero(cs[l])
    ensures var p := Run(act, model, input, hs, cs, k);
            && (forall l :: 0 <= l < k ==> AllZero(p.hidden[l]) && AllZero(p.cell[l]))
            && (forall l :: k <= l < model.config.numLayers ==> p.hidden[l] == hs[l] && p.cell[l] == cs[l])
            && (k > 0 ==> AllZero(p.x))
    decreases k
  {
    if k > 0 {
      var c, l := model.config, k - 1;
      ZeroParamsRun(act, model, input, hs, cs, l);
      var p := Run(act, model, input, hs, cs, l);
      ZeroStaysZero(act, model.layers[l].weights, p.x, hs[l], cs[l], c.inputDim, LayerInputSize(c, l), c.hiddenSize);
    }
  }

  /**
   * Zero parameters never trip the FLT_MAX guard: with every layer's parameters zero and
   * dimensions that pass every kernel's check, corrected layers 0 .. k - 1 succeed whatever
   * the input and the slots hold.
   */
  lemma {:induction false} ZeroParamsSucceed(act: Activations, model: LstmModel, input: seq<real>,
                                             hs: seq<seq<real>>, cs: seq<seq<real>>, k: nat)
    requires Shaped(model) && k <= model.config.numLayers
    requires SlotsOf(hs, model.config) && SlotsOf(cs, model.config)
    requires model.config.inputDim * model.config.inputSize <= |input|
    requires forall l :: 0 <= l < model.config.numLayers ==> AllParamsZero(model.layers[l].weights)
    requires Kernels.DimsOk(model.config.inputDim, model.config.inputSize, model.config.hiddenSize)
    requires Kernels.DimsOk(model.config.inputDim, model.config.hiddenSize, model.config.hiddenSize)
    requires model.config.inputDim * model.config.hiddenSize <= MAX_DIM
    ensures RunSucceeds(act, model, input, hs, cs, k)
    decreases k
  {
    if k > 0 {
      var c, l := model.config, k - 1;
      ZeroParamsSucceed(act, model, input, hs, cs, l);
      var x, n := Run(act, model, input, hs, cs, l).x, LayerInputSize(c, l);
      assert LstmLayer.Shaped(model.layers[l]) && Kernels.DimsOk(c.inputDim, n, c.hiddenSize);
      LstmLayer.ZeroParamsRun(model.layers[l].weights, x, hs[l], c.inputDim, n, c.hiddenSize);
    }
  }

  /** A zero head matrix never trips the FLT_MAX guard: the head succeeds once its dimensions pass. */
  lemma ZeroHeadRuns(model: LstmModel, x: seq<real>)
    requires Shaped(model) && model.config.inputDim * model.config.hiddenSize <= |x|
    requires AllZero(model.head.weights.weights)
    requires Kernels.DimsOk(1, model.config.inputDim * model.config.hiddenSize, model.config.outputSize)
    ensures HeadRuns(model, x)
  {
    Kernels.ZeroOperandNoOverflow(x, model.head.weights.weights, 1, model.config.inputDim * model.config.hiddenSize,
                                  model.config.outputSize);
  }

  /**
   * A freshly initialised model whose dimensions pass every kernel's check runs the corrected
   * pass and its head to success, whatever the input and the slots hold.
   */
  lemma FreshModelSucceeds(act: Activations, c: LstmModelConfig, input: seq<real>, hs: seq<seq<real>>, cs: seq<seq<real>>)
    requires 1 <= c.numLayers && c.inputDim * c.inputSize <= |input| && SlotsOf(hs, c) && SlotsOf(cs, c)
    requires Kernels.DimsOk(c.inputDim, c.inputSize, c.hiddenSize) && Kernels.DimsOk(1, c.inputDim * c.hiddenSize, c.outputSize)
    ensures var model := InitModel(c);
            && RunSucceeds(act, model, input, hs, cs, c.numLayers)
            && HeadRuns(model, Run(act, model, input, hs, cs, c.numLayers).x)
  {
    var model := InitModel(c);
    MulMono(1, c.inputDim, c.hiddenSize);
    ZeroParamsSucceed(act, model, input, hs, cs, c.numLayers);
    ZeroHeadRuns(model, Run(act, model, input, hs, cs, c.numLayers).x);
  }

  /**
   * A freshly initialised model stays at rest: with c_prev zero, one pass leaves every h and
   * c slot zero and the head outputs zeros (its bias).
   */
  lemma FreshModelStaysZero(act: Activations, c: LstmModelConfig, input: seq<real>, hs: seq<seq<real>>, cs: seq<seq<real>>)
    requires AnchoredAtZero(act) && 1 <= c.numLayers
    requires c.inputDim * c.inputSize <= |input| && SlotsOf(hs, c) && SlotsOf(cs, c)
    requires forall l :: 0 <= l < c.numLayers ==> AllZero(cs[l])
    ensures var model := InitModel(c);
            var p := Run(act, model, input, hs, cs, c.numLayers);
            && (forall l :: 0 <= l < c.numLayers ==> AllZero(p.hidden[l]) && AllZero(p.cell[l]))
            && AllZero(Affine(p.x, model.head.weights.weights, model.head.weights.bias,
                              1, c.inputDim * c.hiddenSize, c.outputSize))
  {
    var model := InitModel(c);
    ZeroParamsRun(act, model, input, hs, cs, c.numLayers);
    var p := Run(act, model, input, hs, cs, c.numLayers);
    AffineOfZero(p.x, model.head.weights.weights, model.head.weights.bias, 1, c.inputDim * c.hiddenSize, c.outputSize);
  }
}
