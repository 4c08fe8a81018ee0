/**
 * The scalar activations `sigmoid_act` and `tanh_act`.  The exponential and the hyperbolic
 * tangent of the C library are left abstract: an `Activations` value carries some positive
 * function standing for `expf` and some function standing for `tanhf`.  Everything proved
 * about the network holds for every such choice; the only facts ever assumed about them are
 * exp(0) = 1 and tanh(0) = 0 (`AnchoredAtZero`).
 */
module Activation {

  /** The values expf can take. */
  type Positive = r: real | r > 0.0 witness 1.0

  datatype Activations = Activations(exp: real -> Positive, tanh: real -> real)

  /** exp(0) = 1 and tanh(0) = 0, the two values the real functions take at zero. */
  predicate AnchoredAtZero(act: Activations) {
    act.exp(0.0) == 1.0 && act.tanh(0.0) == 0.0
  }

  /** `sigmoid_act(x) = 1 / (1 + exp(-x))`, always strictly between 0 and 1. */
  function Sigmoid(act: Activations, x: real): (r: real)
    ensures 0.0 < r < 1.0
  {
    1.0 / (1.0 + act.exp(-x))
  }

  /** `tanh_act(x) = tanhf(x)`. */
  function Tanh(act: Activations, x: real): real {
    act.tanh(x)
  }

  /** sigmoid(0) = 1 / (1 + e^0) = 0.5 exactly, as test_sigmoid_act asserts. */
  lemma SigmoidAtZero(act: Activations)
    requires act.exp(0.0) == 1.0
    ensures Sigmoid(act, 0.0) == 0.5
  {
  }

  /** sigmoid applied at each of the first `n` positions. */
  function Sigmoids(act: Activations, x: seq<real>, n: nat): (r: seq<real>)
    requires n <= |x|
    ensures |r| == n
  {
    seq(n, i requires 0 <= i < n => Sigmoid(act, x[i]))
  }

  /** Every entry of a sigmoid vector lies strictly between 0 and 1. */
  lemma SigmoidsInRange(act: Activations, x: seq<real>, n: nat, i: nat)
    requires n <= |x| && i < n
    ensures 0.0 < Sigmoids(act, x, n)[i] < 1.0
  {
    assert Sigmoids(act, x, n)[i] == Sigmoid(act, x[i]);
  }

  /** tanh applied at each of the first `n` positions. */
  function Tanhs(act: Activations, x: seq<real>, n: nat): (r: seq<real>)
    requires n <= |x|
    ensures |r| == n
  {
    seq(n, i requires 0 <= i < n => Tanh(act, x[i]))
  }
}
