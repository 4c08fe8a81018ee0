# embedded_nn in Dafny

A model of the inference core of embedded_nn, a small C runtime for recurrent networks on
embedded targets. The model covers five parts:

- **The checked tensor kernels** of `lib/math_nn.c`: `matmul`, `add`, `mul`,
  `sigmoid_act_vec` and `tanh_act_vec`. They validate their arguments in a fixed order and
  return a `MathStatus`.
- **The unchecked kernels** of the root `math_nn.c`, and the scaler `standard_scaler` of
  `lib/util.c`.
- **The GRU**:
  - the single-layer GRU of `lib/gru.c`;
  - the stacked GRU of `gru.c`;
  - the stacked GRU of `GRU_rewrite.c`.
- **The LSTM**:
  - the LSTM layer of `lib/lstm.c`;
  - the affine head of `linear.c`;
  - the three-layer LSTM driver of `lstm_3layer.c`: model construction, teardown, and the
    layer-chaining loop.
- **The checkpoint layout walk** `memory_map_weights`. It binds every parameter array of the
  LSTM model to a region of one flat float blob.

## Modelling choices

- **Values.** Floats are modelled as `real`.
  - `sigmoid_act` is 1/(1+exp(-x)). `exp` is a function that is only known to be positive.
  - `tanh_act` is a function about which nothing is known.
  - Both live in an `Activations` record that is passed to every operation.
  - Some results need exp(0) = 1 and tanh(0) = 0. These are stated as `AnchoredAtZero`.
- **Buffers.** A buffer is a value sequence, and a kernel returns the buffer's new contents.
- **Pointers.** Where the source tests for NULL, the pointer is a `Ptr` (`Null` or
  `Buf(data)`).
- **Statuses.** A layer's forward pass returns the first failing kernel status (`Status.First`).
  The C code discards these statuses. The model keeps them to state exactly when every
  kernel call succeeds and what holds then. Success is a condition on the dimensions, on
  MAX_DIM and on the FLT_MAX guard: `Kernels.Multiplies` for each `matmul`, gathered per
  pass in `AsWrittenRuns`/`CorrectedRuns`. `ZeroParamsRun` and
  `LstmModel.FreshModelSucceeds` show that zero parameters, as the init functions leave
  them, always meet it once the dimensions pass.
- **Accesses past the end of a buffer.** Most operations take buffer capacity as a
  precondition. Every caller in the core meets it: `gru.c`, `lib/gru.c` and the LSTM driver
  allocate the sizes the kernels read (for the driver, `LstmModel.SlotRoom`).
  - Three sites are different: they read or write past a buffer in the shipped code. The
    model gives each as a value of the result type instead of a precondition:
    - the slot l + 1 of `GRU_rewrite.c:172`, written at `:204`, and the copy of `:208`
      (`OutOfBounds`);
    - the swapped input-gate `matmul` of `lib/lstm.c:138` (`None`).
  - `Kernels.MatMulUnsized` is the `matmul` of that last site. Its operands may be shorter
    than its dimensions say. It is `None` exactly when its row-major scan reaches a read past
    the end before a product trips the FLT_MAX guard.
  - `Tensor.CopyInto` (memcpy) and `Checkpoint.Bind` are likewise defined only when the
    range fits.
- **In-place calls.** Several call sites pass a kernel the same buffer as input and output.
  `Aliasing` models memory as one flat sequence and shows that such calls compute the
  elementwise result.
- **Heap ownership.** Teardown is modelled as the set of heap arrays a call frees. The LSTM
  model carries a `weightsMapped` flag that records whether `memory_map_weights` pointed its
  parameters into a blob.
- **Where the code disagrees with its own comments or layout.** The model gives the code as
  written (`…AsWritten`, or the plain name where the layer has no other reading). It also gives
  the evidently intended version (`…Corrected`, or `Step`/`GatesOf`). Each difference has a
  row in the "## Findings" table. The row names a lemma that shows the difference, on a
  concrete input or for every input that has it.

## Model

| member | source | states |
|---|---|---|
| Status.Code | include/math_nn.h:7-14 | every status code is at most 0, and it is 0 exactly for MATH_SUCCESS |
| Status.CodesAreDistinct | include/math_nn.h:7-14 | two statuses with the same numeric code are the same status |
| Activation.Sigmoid | lib/math_nn.c:9-11 | sigmoid_act lies strictly between 0 and 1 |
| Activation.SigmoidAtZero | test/test_math_nn.c:6-9 | sigmoid_act(0) = 0.5 when exp(0) = 1 |
| Activation.Sigmoids | lib/math_nn.c:84-86 | the elementwise sigmoid of the first n entries has n entries |
| Activation.SigmoidsInRange | lib/math_nn.c:84-86 | every entry of an elementwise sigmoid lies strictly between 0 and 1 |
| Activation.Tanhs | lib/math_nn.c:95-97 | the elementwise tanh of the first n entries has n entries |
| Tensor.Zeros | lib/gru.c:20-31 | a calloc'd buffer: n entries, each 0 |
| Tensor.Row | lib/math_nn.c:40 | row i of a row-major [m, n] matrix: entry k is a[i*n+k] |
| Tensor.Col | lib/math_nn.c:40 | column j of a row-major [n, p] matrix has n entries |
| Tensor.ColAt | lib/math_nn.c:40 | entry k of column j is b[k*p+j], which lies inside b |
| Tensor.Product | lib/math_nn.c:36-47 | the [m, p] product has m*p entries |
| Tensor.ProductAt | lib/math_nn.c:36-46 | entry i*p+j of the product is row i of a dotted with column j of b |
| Tensor.ProductOfZero | lib/math_nn.c:36-46 | a product with a zero matrix is zero |
| Tensor.ProductOfPrefix | lib/gru.c:103 | the product reads only the first m*n entries of its left operand |
| Tensor.Sum | lib/math_nn.c:58-60 | the elementwise sum of the first n entries has n entries |
| Tensor.Hadamard | lib/math_nn.c:72-74 | the elementwise product of the first n entries has n entries |
| Tensor.SumOfZero | lib/math_nn.c:58-60 | adding a zero vector gives the other operand's first n entries |
| Tensor.Affine | linear.c:44-45 | x W + b has m*p entries |
| Tensor.AffineAt | linear.c:44-45 | entry i*p+j of x W + b is row i of x dotted with column j of W, plus b[i*p+j] |
| Tensor.AffineOfZero | linear.c:44-45 | with a zero matrix, x W + b is b |
| Tensor.FlattenLength | lstm_3layer.c:144-145 | l chunks of h floats laid end to end are l*h floats |
| Tensor.FlattenPrefix | lstm_3layer.c:144-145 | laying out fewer chunks gives a prefix |
| Tensor.FlattenAt | gru.c:125 | chunk k of a flattened buffer is floats k*h to k*h+h |
| Tensor.CopyInto | lib/gru.c:103 | memcpy of len floats to offset off: defined exactly when both buffers are long enough; it writes src's first len floats there and keeps the rest |
| Kernels.AccumulateCell | lib/math_nn.c:38-45 | the inner loop stops at the first step k where product > FLT_MAX - sum, and only then; until that step the cell holds the dot product of the first k terms |
| Kernels.ZeroTermsSafe | lib/math_nn.c:38-44 | when every product is zero the running sum stays 0 and no step trips the FLT_MAX guard |
| Kernels.ZeroCellSafe | lib/math_nn.c:38-44 | with a zero operand no step of cell (i, j) trips the guard |
| Kernels.ZeroRowSafe | lib/math_nn.c:37-46 | with a zero operand no cell of row i trips the guard |
| Kernels.ZeroOperandNoOverflow | lib/math_nn.c:36-47 | with either operand zero and of full size, matmul never trips the guard |
| Kernels.RowOfPrefix | lib/math_nn.c:39 | row i < m of a left operand depends only on its first m*n floats |
| Kernels.NoOverflowOfPrefix | lib/math_nn.c:36-47 | whether the guard trips depends only on the first m*n floats of the left operand |
| Kernels.MultiplyRow | lib/math_nn.c:37-46 | without overflow, row i holds row i of the product; otherwise the earlier cells of the row hold the product and the stopping cell holds the partial sum |
| Kernels.MultiplyRows | lib/math_nn.c:36-47 | success iff no step overflows, and then out = product + untouched tail; otherwise out is a valid OverflowStop state (a partial write) |
| Kernels.MatMul | lib/math_nn.c:23-49 | NULL out, a or b gives NullPointer before any other check; bad dimensions give InvalidDim with out untouched; with valid pointers and dimensions, Success iff no step overflows, with out[i*p+j] = Σ a[i*n+k] b[k*p+j] and cells past m*p kept, and OverflowRisk iff some step does, leaving a partial write |
| Kernels.EarlierStepsInRange | lib/math_nn.c:39-40 | once step k of a cell reads in range, so did every earlier step of that cell |
| Kernels.TripStopsScan | lib/math_nn.c:40-43 | a step the scan reaches that trips the FLT_MAX guard returns before any read out of range |
| Kernels.PassingScanStaysInside | lib/math_nn.c:36-47 | a scan whose every step passes never reads past an operand |
| Kernels.SizedInRange | lib/math_nn.c:40 | with a of m*n and b of n*p floats, every step's two reads are in range |
| Kernels.SizedNeverPast | lib/math_nn.c:36-47 | operands of the sizes the dimensions say are never read past |
| Kernels.ShortHasStepOutside | lib/math_nn.c:36-47 | with a shorter operand, some step of the scan does not pass |
| Kernels.CellSumOfZero | lib/math_nn.c:38-44 | with a zero left operand, a cell's running sum stays 0 |
| Kernels.ZeroNeverTrips | lib/math_nn.c:40-43 | with a zero left operand no step trips the guard |
| Kernels.OverflowBeforeShortRead | lib/math_nn.c:40-43 | for a = [1e20, 0, 0, 0] and b = [1e20, 0, 0] with sizes 1, 2, 2: the last step would read b[3], but the first product already trips the guard, so nothing is read past |
| Kernels.ScanCell | lib/math_nn.c:38-45 | one cell's loop: it finishes, trips at the first step that trips, or stops at the first step out of range; when it does not stop out of range, the sum is the cell's running sum |
| Kernels.ScanRow | lib/math_nn.c:37-46 | one row: a trip means the whole scan never reads past and some step trips; a stop out of range means the scan reads past |
| Kernels.ScanRows | lib/math_nn.c:36-47 | the scan ends out of range iff ReadsPast; finishing means every step passed and tripping means some step trips |
| Kernels.MatMulUnsized | lib/math_nn.c:23-49 | matmul on operands that may be shorter than the dimensions say: None iff the dimensions pass and the scan reads past; Success iff the operands have full size and nothing overflows, with the product and the tail; full-size operands that overflow give OverflowRisk; a short operand that is not read past gives OverflowRisk with a step that trips |
| Kernels.Add | lib/math_nn.c:54-62 | size > MAX_DIM gives InvalidDim and no writes; otherwise Success with out[i] = a[i] + b[i] for i < size, nothing written when size <= 0 |
| Kernels.Mul | lib/math_nn.c:68-76 | as Add, with out[i] = a[i] * b[i] |
| Kernels.SigmoidVec | lib/math_nn.c:80-88 | as Add, with out[i] = sigmoid(x[i]) |
| Kernels.TanhVec | lib/math_nn.c:91-99 | as Add, with out[i] = tanh(x[i]) |
| Kernels.AffineInto | linear.c:44-45 | matmul then in-place bias add: Success iff both kernels' checks pass, and then out = x W + b followed by the untouched tail |
| Kernels.TestRowsAndColumns | test/test_math_nn.c:20-21 | the rows and columns of the unit test's matrices |
| Kernels.SmallDot | lib/math_nn.c:39-44 | a three-term dot product with small terms passes the FLT_MAX guard |
| Kernels.TestDots | test/test_math_nn.c:19-24 | the test's four dot products are 58, 64, 139 and 154, and none overflows |
| Kernels.MatMulTestVector | test/test_math_nn.c:19-24 | the test's product [[1,2,3],[4,5,6]] x [[7,8],[9,10],[11,12]] is [58, 64, 139, 154] with no overflow |
| LegacyKernels.DotCell | math_nn.c:23-26 | the inner loop leaves the dot product of the row and the column |
| LegacyKernels.MatMulRow | math_nn.c:22-27 | the middle loop leaves row i of the product |
| LegacyKernels.MatMulRows | math_nn.c:21-28 | the outer loop leaves the product followed by the untouched tail |
| LegacyKernels.MatMul | math_nn.c:20-29 | the unchecked matmul computes the same product as the checked one, for any sizes (sizes <= 0 act as 0) |
| LegacyKernels.AffineInto | gru.c:159-160 | matmul then bias add: x W + b followed by the untouched tail |
| LegacyKernels.Add | math_nn.c:34-38 | out[i] = a[i] + b[i] for i < size with no size guard |
| LegacyKernels.Mul | math_nn.c:44-48 | out[i] = a[i] * b[i] for i < size with no size guard |
| LegacyKernels.SigmoidVec | math_nn.c:52-56 | out[i] = sigmoid(x[i]) for i < size |
| LegacyKernels.TanhVec | math_nn.c:59-63 | out[i] = tanh(x[i]) for i < size |
| Aliasing.InPlaceBinary | lib/math_nn.c:58-59 | add/mul on flat memory: cells outside the output region never change, and when no input region starts before the output within `size` cells (in particular out == a) the result is the elementwise map |
| Aliasing.InPlaceUnary | lib/math_nn.c:84-86 | the same for sigmoid_act_vec/tanh_act_vec, as used in place at lib/gru.c:123 |
| Scaler.Standardize | lib/util.c:21 | z = (x - mean) / std satisfies z * std + mean = x, and z = 0 iff x = mean |
| Scaler.Restore | lib/util.c:21 | the inverse map: standardising the restored value gives z back |
| Scaler.StandardizeAll | lib/util.c:20-22 | every output restores to its input under the one shared mean and std |
| Scaler.StandardScaler | lib/util.c:4-24 | NullPointer for a NULL out or in; then InvalidDim for size <= 0, ExceedsMaxDim for size > MAX_DIM, OverflowRisk for std == 0, in that order; out untouched on every error; Success exactly otherwise, with out[i] = (in[i] - mean) / std for i < size |
| GruCell.Blend | lib/gru.c:144-146 | the blend z*h_prev + (1-z)*n has len entries |
| GruCell.MixBetween | lib/gru.c:145 | a convex mix with 0 < z < 1 lies between its two ends |
| GruCell.BlendBetween | gru.c:151-153 | each blended entry lies between h_prev and the candidate |
| GruCell.GatesAsWritten | lib/gru.c:119-142 | the gates as the kernel calls compute them: each gate buffer holds only the hidden-side projection plus b_h, because the second matmul zeroes the buffer first |
| GruCell.StepAsWritten | lib/gru.c:119-146 | the new hidden state as the code computes it |
| GruCell.GatesOf | lib/gru.c:119-142 | the intended gates: sigmoid/tanh of x W_i + b_i + (h_prev or r*h_prev) W_h + b_h |
| GruCell.Step | lib/gru.c:119-146 | the intended GRU step |
| GruCell.AsWrittenIsStepWithoutInput | lib/gru.c:119-121 | with zero input-side parameters the code's step is the intended step, so the input side is all the code loses |
| GruCell.ZeroStaysZero | lib/gru.c:119-146 | with zero parameters and a zero h_prev, the code's step returns zeros |
| GruCell.StepZeroStaysZero | lib/gru.c:119-146 | with zero parameters and a zero h_prev, the intended step returns zeros for any input |
| GruCell.Affine1 | lib/math_nn.c:36-46 | a 1x1 affine map is x*w + b |
| GruCell.CandidateOnlyGates | lib/gru.c:131-142 | the intended gates of the one-unit example with input 1 |
| GruCell.CandidateOnlyGatesAsWritten | lib/gru.c:131-142 | the code's gates of the same example: the candidate is tanh(0) |
| GruCell.OverwriteLosesInput | lib/gru.c:119-121 | whenever tanh(1) != tanh(0), the intended step and the code's step differ on a one-unit layer |
| GruCell.BlendInto | lib/gru.c:144-146 | the blend loop writes the blend into the first len cells and keeps the rest |
| GruLayer.ShapedFits | lib/gru.c:15-32 | arrays of the allocated sizes are large enough for the forward pass |
| GruLayer.InitWeights | lib/gru.c:15-32 | all twelve arrays are zero, input side input_size*h, hidden side h*h, biases input_dim*h |
| GruLayer.InitRunState | lib/gru.c:34-45 | all buffers are zero, input input_dim*input_size, the rest input_dim*h |
| GruLayer.InitLayer | lib/gru.c:47-51 | the configuration as given, zeroed parameters and run state |
| GruLayer.BuffersPartition | lib/gru.c:53-75 | every array is either a run-state buffer or a parameter array, never both |
| GruLayer.FreeLayer | lib/gru.c:77-84 | the run state is always freed; the parameters are freed exactly when free_weights is set |
| GruLayer.GateAsWritten | lib/gru.c:119-123 | Success iff both matmuls pass the dimension check and the FLT_MAX guard and m*h <= MAX_DIM; then the gate buffer holds sigmoid(h_prev W_h + b_h) only |
| GruLayer.CandidateAsWritten | lib/gru.c:131-142 | Success iff m*h <= MAX_DIM and both matmuls (the second over r*h_prev) pass; then the candidate holds tanh((r*h_prev) W_hn + b_hn) only |
| GruLayer.Forward | lib/gru.c:87-146 | as written: parameters unchanged; the input buffer receives input_dim*input_size floats; Success iff AsWrittenRuns (all six matmuls pass, the candidate's over the code's reset gate, and m*h <= MAX_DIM); then the gate buffers hold the code's gates and the hidden buffer holds the code's step |
| GruLayer.SummedProjections | lib/gru.c:119-122 | both projections accumulated: Success iff both matmuls pass and m*h <= MAX_DIM, and then x W_i + b_i + h W_h + b_h |
| GruLayer.SummedGate | lib/gru.c:119-123 | an intended gate: Success iff both matmuls pass and m*h <= MAX_DIM, and then sigmoid of the summed projections |
| GruLayer.SummedCandidate | lib/gru.c:131-142 | the intended candidate: Success iff both matmuls pass and m*h <= MAX_DIM, and then tanh of x W_in + b_in + (r*h_prev) W_hn + b_hn |
| GruLayer.GatesOfPrefix | lib/gru.c:103 | the intended gates and step read only the first input_dim*input_size input floats |
| GruLayer.ForwardCorrected | lib/gru.c:87-146 | corrected: Success iff CorrectedRuns (all six matmuls pass, the candidate's over the intended reset gate, and m*h <= MAX_DIM); then the gate buffers hold GatesOf and the hidden buffer holds Step of the input |
| GruLayer.InputSidePrefix | lib/gru.c:103 | the input-side matmuls succeed on the copied input buffer exactly when they do on the input |
| GruLayer.ZeroParamsRun | lib/gru.c:15-32 | zero parameters, as init leaves them, never trip the guard: with valid dimensions and m*h <= MAX_DIM both passes succeed |
| GruStack.NewSlots | gru.c:111-157 | layer l's new slot is the code's step from its old slot |
| GruStack.Gate | gru.c:127-131 | on gru.c's legacy kernels a gate holds sigmoid(h_prev W_h + b_h) |
| GruStack.Candidate | gru.c:139-149 | the candidate holds tanh((r*h_prev) W_hn + b_hn) |
| GruStack.LayerStep | gru.c:127-153 | one layer's gate buffers and blend are the code's gates and step |
| GruStack.LayerOut | gru.c:127-153 | the blend goes to hidden_cell_temp and equals the code's step |
| GruStack.RunLayers | gru.c:111-157 | after the loop every slot holds NewSlots, and the input buffer starts with the last layer's new hidden state and keeps its tail |
| GruModel.InitConfig | gru.c:12-17 | the fixed configuration: 15 inputs, 64 hidden units, 4 outputs, 3 layers |
| GruModel.Block | gru.c:113-124 | block l of a stacked array: floats l*size to l*size+size |
| GruModel.LayerParams | gru.c:113-124 | layer l's parameters, sliced at l*h*h and l*h, fit a one-row layer |
| GruModel.Layers | gru.c:113-124 | the per-layer views of the stack fit the stepping code |
| GruModel.BlockOfFlatten | gru.c:113-124 | block l of chunks laid end to end is chunk l |
| GruModel.LayersOfStack | gru.c:23-34 | round trip: slicing a stack of per-layer parameters gives back every layer |
| GruModel.StackIsShaped | gru.c:23-34 | a stack of L layers has the allocated sizes |
| GruModel.StackedInputSide | gru.c:113-115 | layer l's input-side matrices sit at offset l*ni*h |
| GruModel.StackedHiddenSide | gru.c:116-118 | layer l's hidden-side matrices sit at offset l*h*h |
| GruModel.StackedBiases | gru.c:119-124 | layer l's biases sit at offset l*h |
| GruModel.LayerOfStack | gru.c:113-124 | slicing the stack at layer l gives layer l |
| GruModel.InitWeights | gru.c:19-37 | every array is zero; every stacked matrix is L*h*h, the biases L*h, W_out o*h, b_out o |
| GruModel.InitRunState | gru.c:39-50 | every buffer is zero; L hidden slots of h floats, an input buffer of h floats |
| GruModel.InitModel | gru.c:79-83 | the fixed configuration with zeroed weights and state; input_size <= hidden_size holds for it |
| GruModel.NarrowInputFits | gru.c:112 | layer 0 reads only the first input_size*h floats of its h*h slot |
| GruModel.LayersTakeInput | gru.c:112 | layer 0 multiplies with input_size columns and the later layers with hidden_size |
| GruModel.Project | gru.c:159-160 | y = x W_out + b_out |
| GruModel.Forward | gru.c:91-161 | weights unchanged; slot l is read as h_prev and overwritten with layer l's new state; the output is the last layer's new state times W_out plus b_out (b_out when there are no layers) |
| GruModel.FreshModelStaysZero | gru.c:79-161 | a freshly initialised model keeps zero slots and outputs zeros |
| GruModel.ZeroBlock | gru.c:23-34 | a block of a zero array is zero |
| GruModel.ZeroBlocks | gru.c:113-124 | every layer of a zero stack has zero parameters |
| GruModel.BuffersPartition | gru.c:52-77 | every array is a weight array or a run-state buffer, never both |
| GruModel.FreeWeights | gru.c:52-67 | frees exactly the fourteen weight arrays |
| GruModel.FreeRunState | gru.c:69-77 | frees exactly the seven run-state buffers |
| GruModel.FreeModel | gru.c:85-88 | frees every array of the model, twenty-one in all |
| GruRewrite.InputCapacity | GRU_rewrite.c:89 | the least input-buffer size that both an input and a hidden state fit in |
| GruRewrite.InitWeights | GRU_rewrite.c:59-79 | every array is zero; input side L*h*input_size, hidden side L*h*h |
| GruRewrite.InitRunState | GRU_rewrite.c:82-94 | every buffer is zero; h holds L slots of h floats; x holds the given capacity |
| GruRewrite.InitModel | GRU_rewrite.c:125-129 | the shipped configuration, zeroed, with x of input_size floats |
| GruRewrite.InitModelCorrected | GRU_rewrite.c:125-129 | the same model with x wide enough for a hidden state |
| GruRewrite.ShippedConfigFaults | GRU_rewrite.c:208 | with 15 inputs and 64 hidden units, layer 0's copy into x is the first access out of bounds |
| GruRewrite.Forward | GRU_rewrite.c:138-214 | as written: it goes out of bounds exactly when FaultOf says (writing slot L, or copying h floats into an input_size x), reporting the line and layer; it completes only with h = 0, and then y = b_out |
| GruRewrite.LayersAsWritten | GRU_rewrite.c:157-209 | the layer loop reports exactly FaultOf's first out-of-bounds access |
| GruRewrite.ForwardCorrected | GRU_rewrite.c:138-214 | corrected: weights unchanged, every slot holds NewSlots of the per-layer views, and y is the last slot times W_out plus b_out |
| GruRewrite.Output | GRU_rewrite.c:212-213 | y = (last layer's new state) W_out + b_out |
| GruRewrite.LoadInput | GRU_rewrite.c:155 | x receives the first input_size input floats and keeps the rest |
| GruRewrite.CorrectedLayers | GRU_rewrite.c:157-209 | with slot l read and written in place, the slots become NewSlots |
| GruRewrite.CorrectedFreshModelStaysZero | GRU_rewrite.c:125-214 | the corrected fresh model keeps zero slots and outputs zeros |
| GruRewrite.BuffersPartition | GRU_rewrite.c:97-122 | every array is a weight array or a run-state buffer, never both |
| GruRewrite.FreeWeights | GRU_rewrite.c:97-112 | frees exactly the fourteen weight arrays, W_out and b_out among them, and no run-state buffer |
| GruRewrite.FreeRunState | GRU_rewrite.c:115-122 | frees exactly the six run-state buffers |
| GruRewrite.FreeModel | GRU_rewrite.c:132-135 | frees every array, twenty in all |
| Linear.InitLayer | linear.c:9-25 | the configuration as given; weights input_size*output_size and bias output_size, all zero |
| Linear.Forward | linear.c:37-46 | Success iff the kernels' checks pass; then output[j] = Σ_k input[k] W[k*output_size+j] + bias[j], the output is the bias when W is zero, and cells past output_size are kept |
| Linear.OneRow | linear.c:44-45 | the one-row affine map, cell by cell |
| Linear.FreeLayer | linear.c:27-34 | both arrays are freed unconditionally |
| Linear.EveryBuffer | linear.c:27-30 | the layer has exactly two heap arrays |
| LstmCell.AddPrefix | lib/lstm.c:147 | `add(out, a, b, len)` on a longer buffer: the first len entries summed, the rest of a kept |
| LstmCell.Pre | lib/lstm.c:136-141 | an intended pre-activation x W_i + h_prev W_h + b_i + b_h has m*h entries |
| LstmCell.GatesOf | lib/lstm.c:136-166 | the four intended gates, each of m*h entries |
| LstmCell.CellOf | lib/lstm.c:169-172 | c = f*c_prev + i*g |
| LstmCell.HiddenOf | lib/lstm.c:174-176 | h = o*tanh(c) |
| LstmCell.InputPreAsWritten | lib/lstm.c:137-141 | the input gate as written, with the operands of the hidden-side matmul swapped |
| LstmCell.ForgetPreAsWritten | lib/lstm.c:145-149 | the forget gate as written, with its hidden side added over h entries only |
| LstmCell.GatesAsWritten | lib/lstm.c:137-166 | the four gates as the kernel calls compute them |
| LstmCell.ForgetOneRow | lib/lstm.c:147 | with input_dim = 1 the forget gate as written equals the intended one |
| LstmCell.CellBound | lib/lstm.c:170-172 | with sigmoid gates, \|c[k]\| <= \|c_prev[k]\| + \|g[k]\| |
| LstmCell.CellEntryBound | lib/lstm.c:170-172 | the same bound for one entry whenever both gates lie strictly between 0 and 1 |
| LstmCell.HiddenBound | lib/lstm.c:175-176 | the output gate only damps: \|h[k]\| <= \|tanh(c[k])\| |
| LstmCell.PreOfZero | lib/lstm.c:137-141 | with zero parameters a pre-activation is zero |
| LstmCell.ZeroStaysZero | lib/lstm.c:137-176 | with zero parameters and a zero c_prev: i = f = o = 1/2, g = 0, c = 0, h = 0 |
| LstmCell.ForgetSecondRowLosesHidden | lib/lstm.c:147 | with two rows the forget gate as written drops h_prev W_hf from row 1: the intended entry is 1, the code's is 0 |
| LstmLayer.InitWeights | lib/lstm.c:14-35 | sixteen zero arrays: input side input_size*h, hidden side h*h, biases input_dim*h |
| LstmLayer.InitRunState | lib/lstm.c:37-50 | seven zero buffers: input input_dim*input_size, the rest input_dim*h |
| LstmLayer.InitLayer | lib/lstm.c:52-56 | the configuration as given, zeroed parameters and run state |
| LstmLayer.BuffersPartition | lib/lstm.c:58-85 | every array is a run-state buffer or a parameter array, never both |
| LstmLayer.FreeLayer | lib/lstm.c:87-93 | the run state is always freed; the parameters are freed exactly when the flag is set |
| LstmLayer.MatMulInto | lib/lstm.c:137 | matmul on plain buffers: Success iff the dimensions pass and nothing overflows, and then the product followed by the tail |
| LstmLayer.PreInto | lib/lstm.c:137-141 | one gate's five kernel calls: Success iff both matmuls pass and m*h <= MAX_DIM; then the buffer holds both products, added over addLen, plus the two biases |
| LstmLayer.PreIntoIsPre | lib/lstm.c:139 | with addLen = m*h that is the intended pre-activation |
| LstmLayer.AddTerms | lib/lstm.c:139-141 | the three adds: Success iff len <= MAX_DIM, and then the hidden-side term added over addLen entries and both biases over all len |
| LstmLayer.RowsFit | lib/lstm.c:138 | with h > 0, input_dim rows of h floats fit in W_hi's h*h floats iff input_dim <= h |
| LstmLayer.SigmoidInPlace | lib/lstm.c:142 | in-place sigmoid: Success iff the length is at most MAX_DIM, and then the elementwise sigmoid |
| LstmLayer.TanhInPlace | lib/lstm.c:158 | in-place tanh, likewise |
| LstmLayer.GatesPassAsWritten | lib/lstm.c:137-166 | reads out of range exactly when the swapped input-gate matmul does; otherwise Success iff AsWrittenRuns (the eight matmuls, the swapped one included, pass and m*h <= MAX_DIM); a too-short operand that does not fault leaves a non-Success status; on success the gate buffers hold GatesAsWritten; the input and cell buffers are untouched |
| LstmLayer.GatesPassCorrected | lib/lstm.c:136-166 | corrected: Success iff CorrectedRuns (the eight matmuls pass and m*h <= MAX_DIM); then the gate buffers hold GatesOf |
| LstmLayer.MulAll | lib/lstm.c:170 | mul over a whole buffer |
| LstmLayer.AddAll | lib/lstm.c:172 | add over a whole buffer |
| LstmLayer.CellPassAsWritten | lib/lstm.c:170-176 | Success iff the length is at most MAX_DIM; then the node buffer holds i*g, the cell buffer holds tanh(c) (not c), the hidden buffer holds o*tanh(c) |
| LstmLayer.CellPassCorrected | lib/lstm.c:170-176 | corrected: Success iff the length is at most MAX_DIM; then the cell buffer keeps c and the hidden buffer holds o*tanh(c) |
| LstmLayer.Forward | lib/lstm.c:95-177 | as written: it reads past W_hi or h_prev exactly when the swapped matmul's scan reaches a read out of range before a product trips the FLT_MAX guard; that needs the dimension check to pass and input_dim > h or h_prev to lack h*h floats, and with a zero W_hi (as init leaves it) those suffice; otherwise parameters unchanged, input_size floats copied, Success iff AsWrittenRuns on the input buffer, and then the buffers hold the code's gates, i*g, tanh(c) and o*tanh(c) |
| LstmLayer.CellBufferIsNotCell | lib/lstm.c:175 | the cell buffer left behind differs from c as soon as tanh moves one entry |
| LstmLayer.StepCorrected | lib/lstm.c:136-176 | one corrected step on buffers that hold the input: Success iff CorrectedRuns, and then the buffers hold GatesOf, i*g, c and h |
| LstmLayer.ForwardCorrected | lib/lstm.c:95-177 | corrected: input_dim*input_size floats copied; Success iff CorrectedRuns on the input; then the buffers hold GatesOf, i*g, c = CellOf and h = HiddenOf |
| LstmLayer.InputPrefix | lib/lstm.c:116 | the gates read only the first m*n input floats |
| LstmLayer.RunsOfPrefix | lib/lstm.c:116 | whether the corrected pass succeeds depends only on the first m*n input floats |
| LstmLayer.ZeroParamsRun | lib/lstm.c:14-35 | zero parameters, as init leaves them, never trip the guard: with valid dimensions and m*h <= MAX_DIM the corrected pass succeeds, and the pass as written does when its swapped call reads within W_hi and h_prev |
| LstmLayer.StaleInputRow | lib/lstm.c:116 | with input_dim > 1, the input buffer after the copy differs from the input as soon as one float past the first row differs from the stale buffer |
| LstmModel.DemoConfig | lstm_3layer.c:127-133 | the driver's configuration: one row, three layers |
| LstmModel.LayerInputSize | lstm_3layer.c:34-37 | layer 0 takes input_size inputs and every later layer hidden_size |
| LstmModel.InitModel | lstm_3layer.c:23-42 | layer l is built with its input size, the head with input_dim*hidden_size inputs and output_size outputs, everything zero and owned |
| LstmModel.FreeLayers | lstm_3layer.c:46-48 | each layer frees its run state, and its parameters when the flag is set |
| LstmModel.FreeModelAsWritten | lstm_3layer.c:44-52 | as written: the layer array and the head's two arrays are always freed, whatever the flag |
| LstmModel.FreeModel | lstm_3layer.c:44-52 | corrected: the head's arrays are freed exactly when the flag is set |
| LstmModel.FreeAsWrittenOwnedModel | lstm_3layer.c:44-52 | on a model that owns its parameters, freeing with the flag set releases exactly its heap arrays |
| LstmModel.FreeAsWrittenFreesMappedHead | lstm_3layer.c:50 | on a mapped model, freeing with the flag clear still frees the head's mapped weights, which are not on the heap |
| LstmModel.FreeModelReleasesHeap | lstm_3layer.c:44-52 | corrected: with the flag set exactly when the parameters are owned, freeing releases exactly the model's heap arrays, mapped or not |
| LstmModel.DemoReadsPastHPrev | lstm_3layer.c:144-160 | in the driver's configuration, layer 0 is out of range (64*64 floats asked of an h_prev of 3*64), and its freshly initialised W_hi is zero, so the read past happens |
| LstmModel.SlotRoom | lstm_3layer.c:159-160 | chunk i*h still has room for the input_dim*h floats layer i reads as intended |
| LstmModel.From | lstm_3layer.c:159-160 | the pointer passed to layer i covers L*m*h - i*h floats, still at least m*h |
| LstmModel.ZeroHiddenStops | lstm_3layer.c:150-160 | with every W_hi zero, a loop that got past layers 0..k-1 met no out-of-range layer there |
| LstmModel.SlotsOverlap | lstm_3layer.c:157-170 | with input_dim = 2, h = 1 and two layers, layer 0's second row of h_prev is the first row layer 1 reads |
| LstmModel.LayerAsWritten | lstm_3layer.c:157-160 | one layer call: it reads past exactly when the swapped matmul's scan reaches an out-of-range read; that needs SwappedOutOfRange, and with a zero W_hi SwappedOutOfRange suffices; otherwise parameters unchanged, the input copied, the status (which the driver ignores) Success iff AsWrittenRuns, and on success the buffers the code leaves |
| LstmModel.LayerStepAsWritten | lstm_3layer.c:157-160 | layer i reads h_prev and c_prev from float i*h on; it reads past exactly when the scan over W_hi and that suffix reaches an out-of-range read, only if OutOfRangeAt, and always if OutOfRangeAt and W_hi is zero; otherwise Success iff AsWrittenRuns on those suffixes, and on success the buffers the code leaves |
| LstmModel.SlotsStep | lstm_3layer.c:163-170 | storing layer i's buffers into chunk i extends what holds for the earlier layers |
| LstmModel.LoopHoldsStep | lstm_3layer.c:157-170 | a layer that keeps its configuration and parameters, took its input from the layer before (the model input for layer 0) and did not stop the loop extends the loop invariant once its first h hidden and cell floats are stored in chunk i |
| LstmModel.LoopStepAsWritten | lstm_3layer.c:150-173 | one loop turn stops exactly when layer i's scan reads past (only if OutOfRangeAt, always if also W_hi is zero); otherwise it keeps the loop invariant |
| LstmModel.LoopAsWritten | lstm_3layer.c:150-173 | stops at the first layer whose scan reads past; that layer is OutOfRangeAt, and every earlier layer that was out of range has a non-zero W_hi; otherwise parameters unchanged, layer i > 0 fed the first h floats of layer i-1's hidden buffer, and chunk i of h_prev and c_prev holds the first h floats of layer i's hidden and cell buffers |
| LstmModel.RunAsWritten | lstm_3layer.c:150-178 | reports the first layer whose scan reads past, which is OutOfRangeAt; when every W_hi is zero (as init leaves them) it reads past iff some layer is OutOfRangeAt, and reports the first such layer; otherwise the loop's guarantees hold, the head succeeds iff HeadRuns on the last layer's hidden buffer, and then the output is the head applied to it |
| LstmModel.HeadAsWritten | lstm_3layer.c:176-178 | the head on the last layer's hidden buffer: Success iff HeadRuns (its matmul passes and output_size <= MAX_DIM), and then x W + b |
| LstmModel.Run | lstm_3layer.c:150-178 | the reference stacked LSTM: each layer steps on the previous layer's h, with its own h and c slots |
| LstmModel.LoopStepCorrected | lstm_3layer.c:150-173 | one corrected loop turn keeps the invariant: the status is Success iff RunSucceeds, and then the slots equal Run's |
| LstmModel.RunCorrected | lstm_3layer.c:150-178 | corrected: Success iff every layer's kernels pass on the input Run hands it (RunSucceeds) and the head does on Run's last h; then the h and c slots equal Run's and the output is the head applied to the last layer's h |
| LstmModel.FreshModelStaysZero | lstm_3layer.c:23-42 | a freshly initialised model with c_prev zero leaves every slot zero and outputs zeros |
| LstmModel.ZeroParamsSucceed | lstm_3layer.c:150-173 | with every layer's parameters zero and dimensions that pass, corrected layers 0..k-1 succeed whatever the input and slots hold |
| LstmModel.ZeroHeadRuns | linear.c:44-45 | a zero head matrix never trips the guard: the head succeeds once its dimensions pass |
| LstmModel.FreshModelSucceeds | lstm_3layer.c:23-42 | a freshly initialised model with dimensions that pass runs the corrected pass and its head to success |
| Checkpoint.Regions | lstm_3layer.c:54-121 | the layout has 16 regions per layer plus the head's two |
| Checkpoint.Walk | lstm_3layer.c:54-121 | the offset walk binds exactly the layout, and ptr_offset ends after the head's weights |
| Checkpoint.LayoutPrefixExtends | lstm_3layer.c:61-114 | each pointer bound in the walk is the next region of the layout |
| Checkpoint.FieldRegion | lstm_3layer.c:64-114 | region 16*l+f is field f of layer l: cell_size*h for the four input-side matrices, h*h for the hidden side, h for the biases |
| Checkpoint.HeadRegions | lstm_3layer.c:118-120 | the last two regions are the head's weights (output_size*h) and bias (output_size) |
| Checkpoint.LayoutContiguous | lstm_3layer.c:61-120 | the layout starts at 0, each region starts where the one before ends, and it ends at TotalLen |
| Checkpoint.NextRegion | lstm_3layer.c:61-120 | region k starts where region k-1 ends |
| Checkpoint.FieldStep | lstm_3layer.c:67-114 | within a layer, field f+1 starts where field f ends |
| Checkpoint.LayerStep | lstm_3layer.c:63-115 | layer l+1 starts where the last field of layer l ends |
| Checkpoint.HeadStep | lstm_3layer.c:115-118 | the head's weights start where the last layer ends |
| Checkpoint.LayoutDisjoint | lstm_3layer.c:61-120 | the regions are pairwise disjoint, in binding order |
| Checkpoint.InsideBlob | lstm_3layer.c:54-121 | every region lies inside the blob iff the blob holds TotalLen floats; nothing checks this |
| Checkpoint.LayerLenClosed | lstm_3layer.c:64-114 | a layer takes 4*cell*h + 4*h*h + 8*h floats |
| Checkpoint.TotalLenClosed | lstm_3layer.c:54-121 | the blob must hold (4nh + 4h² + 8h) + (L-1)(8h² + 8h) + oh + o floats |
| Checkpoint.DemoTotalLen | lstm_3layer.c:127-131 | the driver's configuration needs 88836 floats |
| Checkpoint.Fields | lstm_3layer.c:67-114 | a layer's sixteen arrays in binding order |
| Checkpoint.ParamsFrom | lstm_3layer.c:67-114 | the inverse of Fields |
| Checkpoint.FieldsInjective | lstm_3layer.c:67-114 | parameters with the same sixteen arrays are equal |
| Checkpoint.Parts | lstm_3layer.c:54-121 | every array of the model in binding order |
| Checkpoint.InsideBlobAt | lstm_3layer.c:54-121 | region k lies inside any blob of at least TotalLen floats |
| Checkpoint.RegionContents | lstm_3layer.c:67-120 | the floats of region k of a long enough blob |
| Checkpoint.FieldsFromBlob | lstm_3layer.c:67-114 | the contents of layer l's sixteen regions |
| Checkpoint.Bind | lstm_3layer.c:54-121 | memory_map_weights: defined iff the blob holds TotalLen floats; it keeps the configuration and run state, marks the parameters mapped, and points every array at its region |
| Checkpoint.BindBinds | lstm_3layer.c:67-120 | after binding, array k is region k of the blob |
| Checkpoint.BoundHead | lstm_3layer.c:118-120 | after binding, the head's weights and bias are the last two regions |
| Checkpoint.BoundField | lstm_3layer.c:67-114 | after binding, field f of layer l is its region |
| Checkpoint.PartOfLayer | lstm_3layer.c:67-114 | array 16*l+f of the model is field f of layer l |
| Checkpoint.FieldOfBlob | lstm_3layer.c:67-114 | field f of layer l bound from the blob is region 16*l+f |
| Checkpoint.BoundWeights | lstm_3layer.c:63-115 | binding gives layer l the parameters bound from the blob |
| Checkpoint.FlattenPlaces | lstm_3layer.c:61-120 | laid end to end, each part sits exactly at its region |
| Checkpoint.SerializeOfBind | lstm_3layer.c:54-121 | round trip: serialising a bound model gives back the blob up to TotalLen |
| Checkpoint.SerializePlaces | lstm_3layer.c:54-121 | a laid-out model's checkpoint is TotalLen floats with array k at region k |
| Checkpoint.BindHolding | lstm_3layer.c:54-121 | binding a blob that already holds the model's arrays changes only the mapped flag |
| Checkpoint.HoldingLayer | lstm_3layer.c:63-115 | binding such a blob leaves layer l as it was |
| Checkpoint.BindOfSerialize | lstm_3layer.c:54-121 | round trip: binding a model's own checkpoint gives the model back, now mapped |
| Checkpoint.ShapedIsLaidOut | lstm_3layer.c:23-42 | a model built by init_lstm_model with input_dim = 1 has exactly the arrays the layout binds |

## Left out

- The AUTOSAR/RTE shim of GRU_rewrite.c (`FITin_TMCAIShadow_Init`/`_Main`, the MemMap includes, the RTE writes) is host-runtime I/O and is not part of this model.
- model_export.py (PyTorch serialisation), main.c, and the `printf`/`malloc`/`calloc` scaffolding of the `lstm_3layer.c` driver are left out. They are demo drivers and I/O.
- `rms_norm` and `softmax` are declared in include/math_nn.h but implemented in no file, so they are not part of this model.
- IEEE-754 rounding, NaN and infinity are not modelled: values are reals. `expf` and `tanhf` are abstract functions; the model relies only on exp > 0, plus exp(0) = 1 and tanh(0) = 0 where a lemma asks for `AnchoredAtZero`. FLT_MAX is the binary32 value (2 - 2^-23) * 2^127, written out exactly.
- 32-bit overflow of the size products (`m * p`, `num_layers * hidden_size * hidden_size`) is not modelled, because sizes are unbounded naturals. Layer and model configurations have `nat` fields, so negative sizes reach only the kernels, which take `int`.
- Allocation failure is not modelled: every `calloc` returns a fresh zeroed buffer.
- The C forward passes discard the kernels' statuses. The model returns the first failing status as an extra result, and states when it is Success and what holds then.
- GruRewrite.Forward: GRU_rewrite.c:212 names `h_next` outside the loop that declares it, so the file does not compile as written. The model reads it as the last layer's `h_next`. Since the pass completes only when the hidden size is 0, y is then b_out.
- GruRewrite.ForwardCorrected and GruModel.Forward keep the gate computation of the files as written (GruCell.StepAsWritten): the second `matmul` into each gate buffer replaces the input projection. The intended step (GruCell.Step) is stated for one layer, in GruLayer.ForwardCorrected. A stacked pass built on it is not part of this model.
- GruModel.Forward requires input_size <= hidden_size. The initial `memcpy` at gru.c:109 copies input_size floats into an input buffer of hidden_size floats, and the file never checks this; the shipped configuration satisfies it.
- LstmLayer.Forward, LstmModel.LoopAsWritten and LstmModel.RunAsWritten require input_dim >= 1 and at least one layer. The driver always uses input_dim = 1 and three layers.
- Checkpoint.ShapedIsLaidOut: the sizes `init_lstm_model` allocates match the layout `memory_map_weights` binds only when input_dim = 1. The walk binds h floats per bias, but init allocates input_dim*h.
- LstmModel.RunCorrected uses one slot of input_dim*h floats per layer for h_prev and c_prev. The driver as written steps by hidden_size (see "## Findings"), and the two agree when input_dim = 1.
- After `memory_map_weights`, the heap arrays the layers' parameter pointers held before are no longer reachable, so they leak. The model records only the `weightsMapped` flag and does not track leaked arrays.
- The hidden-state buffers of gru.c and GRU_rewrite.c are held as a sequence of per-layer slots. Tensor.Flatten and Tensor.FlattenAt relate the slots to the flat layout.

## Findings

| source | as written | input that shows it | evidently intended | confidence | as-written member | corrected member |
|---|---|---|---|---|---|---|
| lib/gru.c:119-121 | `matmul` zeroes its output before accumulating, so the hidden-side `matmul` into each gate buffer replaces the input projection and its bias (likewise gru.c:127-129, GRU_rewrite.c:175-177) | one unit, only W_in = 1, input 1, h_prev 0: the code's candidate is tanh(0) and the intended one is tanh(1) | each gate sums x W_i + b_i and h_prev W_h + b_h | high (not executed) | GruCell.OverwriteLosesInput | GruLayer.ForwardCorrected |
| GRU_rewrite.c:172 | layer l writes its new state to slot l + 1 of a buffer of num_layers slots | any configuration with hidden_size > 0 and one layer: layer 0 writes past the L*h buffer | layer l writes back into slot l, as gru.c:156 does | high (not executed) | GruRewrite.Forward | GruRewrite.ForwardCorrected |
| GRU_rewrite.c:208 | hidden_size floats are copied into x, which holds input_size floats | the shipped configuration (15 inputs, 64 hidden): layer 0's copy overruns x | x sized for both an input and a hidden state | high (not executed) | GruRewrite.ShippedConfigFaults | GruRewrite.ForwardCorrected |
| lib/lstm.c:138 | `matmul(hidden_state_buffer, W_hi, h_prev, …)` has its operands swapped and reads h*h floats from h_prev | the driver's configuration: layer 0 reads 64*64 floats from an h_prev of 3*64, and with W_hi zero no product trips the guard first (with large enough W_hi entries the guard can return before the read, Kernels.OverflowBeforeShortRead) | `matmul(…, h_prev, W_hi, …)`, as for the other three gates | high (not executed) | LstmModel.DemoReadsPastHPrev | LstmLayer.ForwardCorrected |
| lib/lstm.c:116 | `memcpy` copies input_size floats into the input buffer, not input_dim*input_size, and the gates read all input_dim rows | input_dim = 2, input_size = 1, input [1, 2], buffer left at [0, 0]: the gates read [1, 0] instead of [1, 2] | copy input_dim*input_size floats | medium (not executed; the shipped driver has input_dim = 1) | LstmLayer.StaleInputRow | LstmLayer.ForwardCorrected |
| lstm_3layer.c:157-170 | layer i gets h_prev and c_prev at float i*hidden_size, reads input_dim*hidden_size floats there, and only hidden_size floats are stored back | input_dim = 2, h = 1, two layers: h_prev float 1 is both layer 0's second row and layer 1's first row | slots of input_dim*hidden_size floats per layer, stored back whole | medium (not executed; the shipped driver has input_dim = 1) | LstmModel.SlotsOverlap | LstmModel.RunCorrected |
| lib/lstm.c:147 | the forget gate's hidden-side term is added over hidden_size entries, not input_dim*hidden_size | input_dim = 2, h = 1, W_hf = [1], h_prev = [0, 1]: entry 1 is 0 instead of 1 | the add over input_dim*hidden_size, as for the other gates | medium (not executed; the shipped driver has input_dim = 1) | LstmCell.ForgetSecondRowLosesHidden | LstmLayer.ForwardCorrected |
| lib/lstm.c:175 | tanh is applied to cell_state_buffer in place, and lstm_3layer.c:168-170 copies that buffer into c_prev as the next cell state | any entry where tanh(c) != c | tanh(c) kept in scratch, the cell buffer keeping c | high (not executed) | LstmLayer.CellBufferIsNotCell | LstmLayer.ForwardCorrected |
| lstm_3layer.c:50 | the head's arrays are freed whatever free_weights says, even after memory_map_weights pointed them into the blob | a mapped model freed with free_weights = false | free the head's arrays under the same flag as the layers' parameters | high (not executed) | LstmModel.FreeAsWrittenFreesMappedHead | LstmModel.FreeModelReleasesHeap |
