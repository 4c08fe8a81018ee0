/**
 * The layer loop shared by the stacked GRU models of gru.c and GRU_rewrite.c.  Both run
 * the legacy kernels of math_nn.c with one row per call and slice per-layer parameters out
 * of stacked arrays; each layer reads its previous hidden state from slot l of the
 * hidden-state buffer, and its new hidden state becomes the next layer's input.
 *
 * The hidden-state buffer of L slots of h floats is held as the sequence of its slots;
 * `Tensor.Flatten` lays them end to end and `Tensor.FlattenAt` places slot l at l * h.
 */
module GruStack {
  import opened Tensor
  import opened Activation
  import opened GruCell
  import LegacyKernels

  /** Every layer's parameters fit a one-row step of hidden width h. */
  predicate LayersFit(layers: seq<GruParams>, h: nat) {
    forall l :: 0 <= l < |layers| ==> HiddenFits(layers[l], 1, h)
  }

  /** `L` slots of `h` floats each. */
  predicate SlotsShaped(slots: seq<seq<real>>, L: nat, h: nat) {
    |slots| == L && forall l :: 0 <= l < L ==> |slots[l]| == h
  }

  /** Slot k after one pass: layer k's step from the value slot k had before the pass. */
  function NewSlots(act: Activations, layers: seq<GruParams>, hidden: seq<seq<real>>, h: nat): (r: seq<seq<real>>)
    requires LayersFit(layers, h) && SlotsShaped(hidden, |layers|, h)
    ensures SlotsShaped(r, |layers|, h)
  {
    seq(|layers|, k requires 0 <= k < |layers| => StepAsWritten(act, layers[k], hidden[k], 1, h))
  }

  /** A gate as both files compute it with the legacy kernels, one row, `sigmoid_act_vec` at the end. */
  method Gate(act: Activations, out: seq<real>, x: seq<real>, wi: seq<real>, bi: seq<real>,
              hPrev: seq<real>, wh: seq<real>, bh: seq<real>, n: nat, h: nat)
    returns (r: seq<real>)
    requires |out| == h && n <= |x| && n * h <= |wi| && h <= |bi|
    requires h <= |hPrev| && h * h <= |wh| && h <= |bh|
    ensures r == Sigmoids(act, Affine(hPrev, wh, bh, 1, h, h), h)
  {
    var r1 := LegacyKernels.AffineInto(out, x, wi, bi, 1, n, h);
    var r2 := LegacyKernels.AffineInto(r1, hPrev, wh, bh, 1, h, h);
    r := LegacyKernels.SigmoidVec(act, r2, r2, h);
  }

  /**
   * The candidate as both files compute it: input side, then r_h_prev[i] = r[i] * h_prev[i]
   * (an inline loop in both files, the loop of `mul`), hidden side over r_h_prev, tanh.
   */
  method Candidate(act: Activations, out: seq<real>, x: seq<real>, win: seq<real>, bin: seq<real>,
                   r: seq<real>, hPrev: seq<real>, whn: seq<real>, bhn: seq<real>, n: nat, h: nat)
    returns (c: seq<real>)
    requires |out| == h && n <= |x| && n * h <= |win| && h <= |bin|
    requires h <= |r| && h <= |hPrev| && h * h <= |whn| && h <= |bhn|
    ensures c == Tanhs(act, Affine(Hadamard(r, hPrev, h), whn, bhn, 1, h, h), h)
  {
    var c1 := LegacyKernels.AffineInto(out, x, win, bin, 1, n, h);
    var rh := LegacyKernels.Mul(Zeros(h), r, hPrev, h);
    assert rh == Hadamard(r, hPrev, h);
    var c2 := LegacyKernels.AffineInto(c1, rh, whn, bhn, 1, h, h);
    assert c2 == Affine(rh, whn, bhn, 1, h, h);
    c := LegacyKernels.TanhVec(act, c2, c2, h);
  }

  /** One layer of the loop body: the three gates and the blend, from input `x` of width `n` and h_prev. */
  method LayerStep(act: Activations, w: GruParams, x: seq<real>, hPrev: seq<real>, n: nat, h: nat,
                   rb: seq<real>, zb: seq<real>, cb: seq<real>, tb: seq<real>)
    returns (r: seq<real>, z: seq<real>, c: seq<real>, hNew: seq<real>)
    requires InputFits(w, 1, n, h) && HiddenFits(w, 1, h) && n <= |x| && |hPrev| == h
    requires |rb| == h && |zb| == h && |cb| == h && |tb| == h
    ensures Gates(r, z, c) == GatesAsWritten(act, w, hPrev, 1, h)
    ensures hNew == StepAsWritten(act, w, hPrev, 1, h)
  {
    r := Gate(act, rb, x, w.wir, w.bir, hPrev, w.whr, w.bhr, n, h);
    z := Gate(act, zb, x, w.wiz, w.biz, hPrev, w.whz, w.bhz, n, h);
    c := Candidate(act, cb, x, w.win, w.bin, r, hPrev, w.whn, w.bhn, n, h);
    hNew := BlendInto(tb, z, hPrev, c, h);
  }

  /** The buffers the layer loop works on. */
  datatype Scratch = Scratch(reset: seq<real>, update: seq<real>, candidate: seq<real>, temp: seq<real>)

  predicate ScratchShaped(s: Scratch, h: nat) {
    |s.reset| == h && |s.update| == h && |s.candidate| == h && |s.temp| == h
  }

  /** One layer of the loop body on the scratch buffers, giving the layer's new hidden state. */
  method LayerOut(act: Activations, w: GruParams, x: seq<real>, hPrev: seq<real>, n: nat, h: nat, s: Scratch)
    returns (s': Scratch, hNew: seq<real>)
    requires InputFits(w, 1, n, h) && HiddenFits(w, 1, h) && n <= |x| && |hPrev| == h && ScratchShaped(s, h)
    ensures ScratchShaped(s', h) && s'.temp == hNew
    ensures hNew == StepAsWritten(act, w, hPrev, 1, h)
  {
    var r, z, c, t := LayerStep(act, w, x, hPrev, n, h, s.reset, s.update, s.candidate, s.temp);
    s', hNew := Scratch(r, z, c, t), t;
  }

  /**
   * The layer loop: slot l is read as h_prev and written with layer l's new hidden state,
   * which is also copied to the front of the input buffer `x`.  Layer 0 multiplies an input
   * of width `n0`, every later layer one of width `nRest`.
   */
  method RunLayers(act: Activations, layers: seq<GruParams>, hidden: seq<seq<real>>, x: seq<real>, s: Scratch,
                   n0: nat, nRest: nat, h: nat)
    returns (hidden': seq<seq<real>>, x': seq<real>, s': Scratch)
    requires LayersFit(layers, h) && SlotsShaped(hidden, |layers|, h) && ScratchShaped(s, h)
    requires forall l :: 0 <= l < |layers| ==> InputFits(layers[l], 1, if l == 0 then n0 else nRest, h)
    requires n0 <= |x| && nRest <= |x| && h <= |x|
    ensures hidden' == NewSlots(act, layers, hidden, h)
    ensures |x'| == |x| && ScratchShaped(s', h)
    ensures |layers| == 0 ==> x' == x
    ensures |layers| > 0 ==> x' == hidden'[|layers| - 1] + x[h ..]
  {
    var L := |layers|;
    hidden', x', s' := hidden, x, s;
    var l := 0;
    while l < L
      invariant 0 <= l <= L && SlotsShaped(hidden', L, h) && |x'| == |x| && ScratchShaped(s', h)
      invariant forall k :: 0 <= k < l ==> hidden'[k] == StepAsWritten(act, layers[k], hidden[k], 1, h)
      invariant forall k :: l <= k < L ==> hidden'[k] == hidden[k]
      invariant l == 0 ==> x' == x
      invariant l > 0 ==> x' == hidden'[l - 1] + x[h ..]
    {
      var n := if l == 0 then n0 else nRest;
      assert InputFits(layers[l], 1, n, h);
      var t;
      s', t := LayerOut(act, layers[l], x', hidden'[l], n, h, s');
      x' := t + x'[h ..];
      hidden' := hidden'[l := t];
      l := l + 1;
    }
  }
}
