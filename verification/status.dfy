/** Status codes, limits and the float ceiling shared by every kernel (include/math_nn.h). */
module Status {

  /** The `MathStatus` enum returned by the checked kernels of lib/math_nn.c and lib/util.c. */
  datatype MathStatus =
    | Success
    | NullPointer
    | InvalidDim
    | OverflowRisk
    | ExceedsMaxDim
    | InvalidRange
  {
    /** The integer value each enumerator has in C. */
    function Code(): (c: int)
      ensures c <= 0
      ensures c == 0 <==> this == Success
    {
      match this
      case Success => 0
      case NullPointer => -1
      case InvalidDim => -2
      case OverflowRisk => -3
      case ExceedsMaxDim => -4
      case InvalidRange => -5
    }
  }

  /** `MAX_DIM`: the largest dimension or element count a checked kernel accepts. */
  const MAX_DIM: int := 1024

  /** `FLT_MAX` of IEEE-754 binary32, (2 - 2^-23) * 2^127, written out as a real. */
  const FLT_MAX: real := 340282346638528859811704183484516925440.0

  /**
   * The first failure of two kernel calls made in sequence.  The layer code of this
   * repository discards every status; the model keeps the first non-success one so that a
   * contract can say what holds when every call of a forward pass succeeded.
   */
  function First(s: MathStatus, t: MathStatus): (r: MathStatus)
    ensures r == Success <==> s == Success && t == Success
    ensures r != Success ==> r == s || (s == Success && r == t)
  {
    if s != Success then s else t
  }

  /** Distinct enumerators have distinct C values, so a caller can tell every failure apart. */
  lemma CodesAreDistinct(s: MathStatus, t: MathStatus)
    ensures s.Code() == t.Code() ==> s == t
  {
  }
}
