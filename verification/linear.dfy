/**
 * The affine head of linear.c (types of include/linear.h): a row-major [input_size,
 * output_size] weight matrix and an output_size bias, applied to one row on the checked
 * kernels of lib/math_nn.c.
 */
module Linear {
  import opened Status
  import opened Tensor
  import Kernels

  /** LinearLayerConfig. */
  datatype LinearConfig = LinearConfig(inputSize: nat, outputSize: nat)

  /** LinearLayerWeights. */
  datatype LinearWeights = LinearWeights(weights: seq<real>, bias: seq<real>)

  /** LinearLayer. */
  datatype LinearLayer = LinearLayer(config: LinearConfig, weights: LinearWeights)

  /** The sizes `init_linear_layer_weights` allocates. */
  predicate Shaped(l: LinearLayer) {
    && |l.weights.weights| == l.config.inputSize * l.config.outputSize
    && |l.weights.bias| == l.config.outputSize
  }

  /** `init_linear_layer`: the configuration as given, a zeroed matrix and a zeroed bias. */
  function InitLayer(inputSize: nat, outputSize: nat): (l: LinearLayer)
    ensures l.config == LinearConfig(inputSize, outputSize)
    ensures Shaped(l) && AllZero(l.weights.weights) && AllZero(l.weights.bias)
  {
    LinearLayer(LinearConfig(inputSize, outputSize),
                LinearWeights(Zeros(inputSize * outputSize), Zeros(outputSize)))
  }

  /**
   * `linear_layer_forward(layer, input, output)`: `matmul` of the one input row with the
   * weights into the first output_size cells of `output`, then `add` of the bias in place.
   * It succeeds exactly when the kernels' checks pass; then output cell j is row 0 of the
   * input dotted with column j of the matrix plus bias j, with zero weights the output is
   * the bias, and cells past output_size keep their values.
   */
  method Forward(layer: LinearLayer, input: seq<real>, out: seq<real>) returns (st: MathStatus, out': seq<real>)
    requires Shaped(layer)
    requires layer.config.inputSize <= |input| && layer.config.outputSize <= |out|
    ensures |out'| == |out|
    ensures var k, p := layer.config.inputSize, layer.config.outputSize;
            st == Success <==>
              Kernels.DimsOk(1, k, p) && Kernels.NoOverflow(input, layer.weights.weights, 1, k, p) && p <= MAX_DIM
    ensures st == Success ==>
              var k, p := layer.config.inputSize, layer.config.outputSize;
              && out'[..p] == Affine(input, layer.weights.weights, layer.weights.bias, 1, k, p)
              && out'[p ..] == out[p ..]
              && (forall j :: 0 <= j < p ==>
                    out'[j] == Dot(Row(input, 0, k), Col(layer.weights.weights, j, k, p), k) + layer.weights.bias[j])
              && (AllZero(layer.weights.weights) ==> out'[..p] == layer.weights.bias)
  {
    var k, p := layer.config.inputSize, layer.config.outputSize;
    var w, b := layer.weights.weights, layer.weights.bias;
    st, out' := Kernels.AffineInto(out, input, w, b, 1, k, p);
    if st == Success {
      var y := Affine(input, w, b, 1, k, p);
      assert out'[..p] == y && out'[p ..] == out[p ..];
      OneRow(input, w, b, k, p);
      if AllZero(w) {
        AffineOfZero(input, w, b, 1, k, p);
      }
    }
  }

  /** The affine map of one row, cell by cell. */
  lemma OneRow(x: seq<real>, w: seq<real>, b: seq<real>, k: nat, p: nat)
    requires k <= |x| && k * p <= |w| && p <= |b|
    ensures forall j :: 0 <= j < p ==>
              Affine(x, w, b, 1, k, p)[j] == Dot(Row(x, 0, k), Col(w, j, k, p), k) + b[j]
  {
    forall j | 0 <= j < p
      ensures Affine(x, w, b, 1, k, p)[j] == Dot(Row(x, 0, k), Col(w, j, k, p), k) + b[j]
    {
      AffineAt(x, w, b, 1, k, p, 0, j);
    }
  }

  /** The two heap arrays of a linear layer. */
  datatype LinearBuffer = WeightsBuf | BiasBuf

  const Buffers: set<LinearBuffer> := {WeightsBuf, BiasBuf}

  /** `free_linear_layer`: both arrays, with no flag for borrowed weights. */
  function FreeLayer(): (freed: set<LinearBuffer>)
    ensures forall b: LinearBuffer :: b in freed
  {
    EveryBuffer();
    Buffers
  }

  lemma EveryBuffer()
    ensures forall b: LinearBuffer :: b in Buffers
  {
    forall b: LinearBuffer
      ensures b in Buffers
    {
      match b
      case WeightsBuf =>
      case BiasBuf =>
    }
  }
}
