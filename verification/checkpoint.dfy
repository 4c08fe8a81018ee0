/**
 * The checkpoint layout of lstm_3layer.c (`memory_map_weights`): every parameter array of
 * the LSTM model is bound to a region of one flat float blob, walking a running offset
 * through the layers in order (W_ii, W_if, W_ig, W_io of cell_size * h floats, W_hi .. W_ho
 * of h * h, then b_ii .. b_ho of h each), and then the head's weights (output_size * h) and
 * bias (output_size).  The blob's length is never checked.
 */
module Checkpoint {
  import opened Tensor
  import opened LstmCell
  import LstmLayer
  import Linear
  import LstmModel

  /** A region of the blob: `len` floats from float `start`. */
  datatype Region = Region(start: nat, len: nat) {
    function End(): nat {
      start + len
    }
  }

  /** Length of field f of a layer whose input side is `cell` wide. */
  function FieldLen(cell: nat, h: nat, f: nat): nat
    requires f < 16
  {
    if f < 4 then cell * h else if f < 8 then h * h else h
  }

  /** Where field f starts within its layer: the total length of the fields before it. */
  function FieldOffset(cell: nat, h: nat, f: nat): nat
    requires f <= 16
  {
    if f == 0 then 0 else FieldOffset(cell, h, f - 1) + FieldLen(cell, h, f - 1)
  }

  /** Floats layer l takes. */
  function LayerLen(c: LstmModel.LstmModelConfig, l: nat): nat {
    FieldOffset(LstmModel.LayerInputSize(c, l), c.hiddenSize, 16)
  }

  /** Where layer l starts: the total length of the layers before it. */
  function LayerBase(c: LstmModel.LstmModelConfig, l: nat): nat {
    if l == 0 then 0 else LayerBase(c, l - 1) + LayerLen(c, l - 1)
  }

  /** Where the head's weights start. */
  function HeadBase(c: LstmModel.LstmModelConfig): nat {
    LayerBase(c, c.numLayers)
  }

  /** Floats the whole layout takes, head bias included. */
  function TotalLen(c: LstmModel.LstmModelConfig): nat {
    HeadBase(c) + c.outputSize * c.hiddenSize + c.outputSize
  }

  /** Regions bound: sixteen per layer, then the head's two. */
  function RegionCount(c: LstmModel.LstmModelConfig): nat {
    16 * c.numLayers + 2
  }

  /** Region k of the layout: field k % 16 of layer k / 16, then the head's weights and bias. */
  function RegionOf(c: LstmModel.LstmModelConfig, k: nat): Region
    requires k < RegionCount(c)
  {
    var h, L := c.hiddenSize, c.numLayers;
    if k < 16 * L then
      var l, f := k / 16, k % 16;
      var cell := LstmModel.LayerInputSize(c, l);
      Region(LayerBase(c, l) + FieldOffset(cell, h, f), FieldLen(cell, h, f))
    else if k == 16 * L then Region(HeadBase(c), c.outputSize * h)
    else Region(HeadBase(c) + c.outputSize * h, c.outputSize)
  }

  /** The whole layout. */
  function Regions(c: LstmModel.LstmModelConfig): (rs: seq<Region>)
    ensures |rs| == RegionCount(c)
  {
    seq(RegionCount(c), k requires 0 <= k < RegionCount(c) => RegionOf(c, k))
  }

  /** Index 16 * l + f is field f of layer l. */
  lemma IndexOf(l: nat, f: nat)
    requires f < 16
    ensures (16 * l + f) / 16 == l && (16 * l + f) % 16 == f
  {
  }

  // ---------------------------------------------------------------------------
  // The offset walk

  /**
   * `memory_map_weights` as an offset walk: the region each pointer is set to, in binding
   * order, and the final value of ptr_offset (the head's bias is bound without advancing it).
   * The walk binds exactly the layout of `Regions`.
   */
  method Walk(c: LstmModel.LstmModelConfig) returns (regions: seq<Region>, offset: nat)
    ensures regions == Regions(c)
    ensures offset == HeadBase(c) + c.outputSize * c.hiddenSize
  {
    var h, L := c.hiddenSize, c.numLayers;
    regions, offset := [], 0;
    for l := 0 to L
      invariant |regions| == 16 * l && offset == LayerBase(c, l)
      invariant LayoutPrefix(c, regions)
    {
      var cell := if l == 0 then c.inputSize else h;
      for f := 0 to 16
        invariant |regions| == 16 * l + f
        invariant offset == LayerBase(c, l) + FieldOffset(cell, h, f)
        invariant LayoutPrefix(c, regions)
      {
        var len := if f < 4 then cell * h else if f < 8 then h * h else h;
        FieldRegion(c, l, f);
        LayoutPrefixExtends(c, regions, Region(offset, len));
        regions := regions + [Region(offset, len)];
        offset := offset + len;
      }
    }
    HeadRegions(c);
    LayoutPrefixExtends(c, regions, Region(offset, c.outputSize * h));
    regions := regions + [Region(offset, c.outputSize * h)];
    offset := offset + c.outputSize * h;
    LayoutPrefixExtends(c, regions, Region(offset, c.outputSize));
    regions := regions + [Region(offset, c.outputSize)];
    assert forall k :: 0 <= k < |regions| ==> regions[k] == Regions(c)[k];
  }

  /** The regions walked so far are the first ones of the layout. */
  predicate LayoutPrefix(c: LstmModel.LstmModelConfig, regions: seq<Region>) {
    |regions| <= RegionCount(c) && forall k :: 0 <= k < |regions| ==> regions[k] == RegionOf(c, k)
  }

  /** Appending the next region of the layout keeps a layout prefix. */
  lemma LayoutPrefixExtends(c: LstmModel.LstmModelConfig, regions: seq<Region>, r: Region)
    requires LayoutPrefix(c, regions) && |regions| < RegionCount(c) && r == RegionOf(c, |regions|)
    ensures LayoutPrefix(c, regions + [r])
  {
  }

  /** Region 16 * l + f is field f of layer l, at its offset within the layer. */
  lemma FieldRegion(c: LstmModel.LstmModelConfig, l: nat, f: nat)
    requires l < c.numLayers && f < 16
    ensures 16 * l + f < RegionCount(c)
    ensures var cell := if l == 0 then c.inputSize else c.hiddenSize;
            RegionOf(c, 16 * l + f) ==
            Region(LayerBase(c, l) + FieldOffset(cell, c.hiddenSize, f), FieldLen(cell, c.hiddenSize, f))
  {
    IndexOf(l, f);
  }

  /** The last two regions are the head's weights and bias. */
  lemma HeadRegions(c: LstmModel.LstmModelConfig)
    ensures RegionOf(c, 16 * c.numLayers) == Region(HeadBase(c), c.outputSize * c.hiddenSize)
    ensures RegionOf(c, 16 * c.numLayers + 1) ==
            Region(HeadBase(c) + c.outputSize * c.hiddenSize, c.outputSize)
  {
  }

  // ---------------------------------------------------------------------------
  // Properties of the layout

  /** Each region starts where the one before ends. */
  predicate Contiguous(rs: seq<Region>) {
    forall k :: 0 < k < |rs| ==> rs[k].start == rs[k - 1].End()
  }

  /** The layout starts at float 0, each region starts where the one before ends, and it ends at `TotalLen`. */
  lemma LayoutContiguous(c: LstmModel.LstmModelConfig)
    ensures Regions(c)[0].start == 0
    ensures Contiguous(Regions(c))
    ensures Regions(c)[RegionCount(c) - 1].End() == TotalLen(c)
  {
    var rs, L := Regions(c), c.numLayers;
    if 0 < L {
      IndexOf(0, 0);
    }
    forall k | 0 < k < |rs|
      ensures rs[k].start == rs[k - 1].End()
    {
      NextRegion(c, k);
    }
  }

  /** Region k of the layout starts where region k - 1 ends. */
  lemma NextRegion(c: LstmModel.LstmModelConfig, k: nat)
    requires 0 < k < RegionCount(c)
    ensures RegionOf(c, k).start == RegionOf(c, k - 1).End()
  {
    var L := c.numLayers;
    var j := k - 1;
    if k < 16 * L {
      var l, f := j / 16, j % 16;
      assert j == 16 * l + f && l < L;
      if f + 1 < 16 {
        FieldStep(c, l, f);
        assert k == 16 * l + f + 1;
      } else {
        LayerStep(c, l);
        assert k == 16 * (l + 1) && j == 16 * l + 15;
      }
    } else if k == 16 * L {
      HeadStep(c);
      assert j == 16 * (L - 1) + 15;
    } else {
      HeadRegions(c);
    }
  }

  /** Within a layer, field f + 1 starts where field f ends. */
  lemma FieldStep(c: LstmModel.LstmModelConfig, l: nat, f: nat)
    requires l < c.numLayers && f + 1 < 16
    ensures 16 * l + f + 1 < RegionCount(c)
    ensures RegionOf(c, 16 * l + f + 1).start == RegionOf(c, 16 * l + f).End()
  {
    FieldRegion(c, l, f);
    FieldRegion(c, l, f + 1);
  }

  /** Layer l + 1 starts where the last field of layer l ends. */
  lemma LayerStep(c: LstmModel.LstmModelConfig, l: nat)
    requires l + 1 < c.numLayers
    ensures RegionOf(c, 16 * (l + 1)).start == RegionOf(c, 16 * l + 15).End()
  {
    FieldRegion(c, l, 15);
    FieldRegion(c, l + 1, 0);
  }

  /** The head's weights start where the last field of the last layer ends. */
  lemma HeadStep(c: LstmModel.LstmModelConfig)
    requires 0 < c.numLayers
    ensures RegionOf(c, 16 * c.numLayers).start ==
            RegionOf(c, 16 * (c.numLayers - 1) + 15).End()
  {
    var L, h := c.numLayers, c.hiddenSize;
    var cell := LstmModel.LayerInputSize(c, L - 1);
    FieldRegion(c, L - 1, 15);
    HeadRegions(c);
    var last := RegionOf(c, 16 * (L - 1) + 15);
    assert last.start == LayerBase(c, L - 1) + FieldOffset(cell, h, 15);
    assert last.len == FieldLen(cell, h, 15);
    assert FieldOffset(cell, h, 16) == FieldOffset(cell, h, 15) + FieldLen(cell, h, 15);
    assert HeadBase(c) == LayerBase(c, L - 1) + FieldOffset(cell, h, 16);
  }

  /** In a contiguous layout, region i ends no later than region j > i starts. */
  lemma {:induction false} EndsBefore(rs: seq<Region>, i: nat, j: nat)
    requires Contiguous(rs) && i < j < |rs|
    ensures rs[i].End() <= rs[j].start
    decreases j - i
  {
    if i + 1 < j {
      EndsBefore(rs, i + 1, j);
    }
  }

  /** The regions are pairwise disjoint, in binding order. */
  lemma LayoutDisjoint(c: LstmModel.LstmModelConfig)
    ensures var rs := Regions(c);
            forall i, j :: 0 <= i < j < |rs| ==> rs[i].End() <= rs[j].start
  {
    var rs := Regions(c);
    LayoutContiguous(c);
    forall i, j | 0 <= i < j < |rs|
      ensures rs[i].End() <= rs[j].start
    {
      EndsBefore(rs, i, j);
    }
  }

  /**
   * Every bound region lies inside a blob of `blobLen` floats exactly when the blob holds
   * `TotalLen` floats; nothing checks this before the pointers are used.
   */
  lemma InsideBlob(c: LstmModel.LstmModelConfig, blobLen: nat)
    ensures (forall k :: 0 <= k < RegionCount(c) ==> Regions(c)[k].End() <= blobLen) <==> TotalLen(c) <= blobLen
  {
    var rs := Regions(c);
    var last := RegionCount(c) - 1;
    LayoutContiguous(c);
    if TotalLen(c) <= blobLen {
      forall k | 0 <= k < last
        ensures rs[k].End() <= blobLen
      {
        EndsBefore(rs, k, last);
      }
    }
  }

  /** Field offsets in closed form: 4 input-side matrices, then 4 hidden-side ones, then 8 biases. */
  lemma {:induction false} FieldOffsetClosed(cell: nat, h: nat, f: nat)
    requires f <= 16
    ensures f <= 4 ==> FieldOffset(cell, h, f) == f * (cell * h)
    ensures 4 < f <= 8 ==> FieldOffset(cell, h, f) == 4 * (cell * h) + (f - 4) * (h * h)
    ensures 8 < f ==> FieldOffset(cell, h, f) == 4 * (cell * h) + 4 * (h * h) + (f - 8) * h
  {
    if f > 0 {
      FieldOffsetClosed(cell, h, f - 1);
      if f <= 4 {
        OneMore(f, cell * h);
      } else if f <= 8 {
        OneMore(f - 4, h * h);
      } else {
        OneMore(f - 8, h);
      }
    }
  }

  lemma OneMore(k: nat, x: nat)
    requires 0 < k
    ensures (k - 1) * x + x == k * x
  {
  }

  /** A layer whose input side is `cell` wide takes 4 * cell * h + 4 * h * h + 8 * h floats. */
  lemma LayerLenClosed(c: LstmModel.LstmModelConfig, l: nat)
    ensures LayerLen(c, l) == 4 * (LstmModel.LayerInputSize(c, l) * c.hiddenSize) + 4 * (c.hiddenSize * c.hiddenSize) + 8 * c.hiddenSize
  {
    FieldOffsetClosed(LstmModel.LayerInputSize(c, l), c.hiddenSize, 16);
  }

  /** Layer l > 0 starts after layer 0 and l - 1 layers of hidden-size input. */
  lemma {:induction false} LayerBaseClosed(c: LstmModel.LstmModelConfig, l: nat)
    requires 0 < l
    ensures LayerBase(c, l) == LayerLen(c, 0) + (l - 1) * LayerLen(c, 1)
  {
    if l > 1 {
      LayerBaseClosed(c, l - 1);
      assert LayerLen(c, l - 1) == LayerLen(c, 1);
      OneMore(l - 1, LayerLen(c, 1));
    }
  }

  /**
   * The blob a configuration with at least one layer needs:
   * (4 n h + 4 h^2 + 8 h) + (L - 1)(8 h^2 + 8 h) + o h + o floats.
   */
  lemma TotalLenClosed(c: LstmModel.LstmModelConfig)
    requires 0 < c.numLayers
    ensures var n, h, o, L := c.inputSize, c.hiddenSize, c.outputSize, c.numLayers;
            TotalLen(c) == (4 * (n * h) + 4 * (h * h) + 8 * h) + (L - 1) * (8 * (h * h) + 8 * h) + o * h + o
  {
    LayerBaseClosed(c, c.numLayers);
    LayerLenClosed(c, 0);
    LayerLenClosed(c, 1);
  }

  /** The driver's configuration needs a blob of 88836 floats. */
  lemma DemoTotalLen()
    ensures TotalLen(LstmModel.DemoConfig()) == 88836
  {
    TotalLenClosed(LstmModel.DemoConfig());
  }

  // ---------------------------------------------------------------------------
  // Binding and serialising

  /** The sixteen parameter arrays of a layer in binding order. */
  function Fields(w: LstmParams): (fs: seq<seq<real>>)
    ensures |fs| == 16
  {
    [w.wii, w.wif, w.wig, w.wio, w.whi, w.whf, w.whg, w.who,
     w.bii, w.bif, w.big, w.bio, w.bhi, w.bhf, w.bhg, w.bho]
  }

  /** A layer's parameters from its sixteen arrays in binding order; the inverse of `Fields`. */
  function ParamsFrom(fs: seq<seq<real>>): (w: LstmParams)
    requires |fs| == 16
    ensures Fields(w) == fs
  {
    LstmParams(fs[0], fs[1], fs[2], fs[3], fs[4], fs[5], fs[6], fs[7],
               fs[8], fs[9], fs[10], fs[11], fs[12], fs[13], fs[14], fs[15])
  }

  /** A model whose layer array has num_layers entries. */
  predicate Bindable(model: LstmModel.LstmModel) {
    |model.layers| == model.config.numLayers
  }

  /** Array k of a model in binding order. */
  function PartAt(model: LstmModel.LstmModel, k: nat): seq<real>
    requires Bindable(model) && k < RegionCount(model.config)
  {
    var L := model.config.numLayers;
    if k < 16 * L then Fields(model.layers[k / 16].weights)[k % 16]
    else if k == 16 * L then model.head.weights.weights
    else model.head.weights.bias
  }

  /** Every array of the model in binding order. */
  function Parts(model: LstmModel.LstmModel): (ps: seq<seq<real>>)
    requires Bindable(model)
    ensures |ps| == RegionCount(model.config)
  {
    seq(RegionCount(model.config), k requires 0 <= k < RegionCount(model.config) => PartAt(model, k))
  }

  /** Each array of the model has the length of its region of the layout. */
  predicate LaidOut(model: LstmModel.LstmModel)
    requires Bindable(model)
  {
    forall k :: 0 <= k < RegionCount(model.config) ==> |PartAt(model, k)| == RegionOf(model.config, k).len
  }

  /** The checkpoint a model's parameters make: its arrays end to end in binding order. */
  function Serialize(model: LstmModel.LstmModel): seq<real>
    requires Bindable(model)
  {
    Flatten(Parts(model), RegionCount(model.config))
  }

  /** The floats of region r of a blob. */
  function Contents(blob: seq<real>, r: Region): seq<real>
    requires r.End() <= |blob|
  {
    blob[r.start .. r.End()]
  }

  /** Region k of the layout lies inside any blob of at least `TotalLen` floats. */
  lemma InsideBlobAt(c: LstmModel.LstmModelConfig, blobLen: nat, k: nat)
    requires TotalLen(c) <= blobLen && k < RegionCount(c)
    ensures RegionOf(c, k).End() <= blobLen
  {
    InsideBlob(c, blobLen);
    assert Regions(c)[k] == RegionOf(c, k);
  }

  /** The floats region k of the layout covers in a long enough blob. */
  function RegionContents(c: LstmModel.LstmModelConfig, blob: seq<real>, k: nat): (r: seq<real>)
    requires TotalLen(c) <= |blob| && k < RegionCount(c)
    ensures RegionOf(c, k).End() <= |blob| && r == Contents(blob, RegionOf(c, k))
  {
    InsideBlobAt(c, |blob|, k);
    Contents(blob, RegionOf(c, k))
  }

  /** The contents of layer l's sixteen regions. */
  function FieldsFromBlob(c: LstmModel.LstmModelConfig, blob: seq<real>, l: nat): (fs: seq<seq<real>>)
    requires l < c.numLayers && TotalLen(c) <= |blob|
    ensures |fs| == 16
  {
    seq(16, f requires 0 <= f < 16 => RegionContents(c, blob, 16 * l + f))
  }

  /** Parameters of layer l bound from the blob. */
  function LayerFromBlob(c: LstmModel.LstmModelConfig, blob: seq<real>, l: nat): LstmParams
    requires l < c.numLayers && TotalLen(c) <= |blob|
  {
    ParamsFrom(FieldsFromBlob(c, blob, l))
  }

  /** Layer l of the model with its parameters bound from the blob. */
  function BoundLayer(model: LstmModel.LstmModel, blob: seq<real>, l: nat): LstmLayer.LstmLayer
    requires Bindable(model) && l < model.config.numLayers && TotalLen(model.config) <= |blob|
  {
    model.layers[l].(weights := LayerFromBlob(model.config, blob, l))
  }

  /**
   * `memory_map_weights(model, blob)`: every parameter pointer of every layer and of the head
   * is pointed at its region of the blob, so the parameters are no longer heap arrays; the
   * run state and the configuration are untouched.  `None` when the blob is shorter than the
   * layout, so that some bound region runs past its end.
   */
  function Bind(model: LstmModel.LstmModel, blob: seq<real>): (r: Option<LstmModel.LstmModel>)
    requires Bindable(model)
    ensures r.Some? <==> TotalLen(model.config) <= |blob|
    ensures r.Some? ==>
              && r.value.config == model.config && r.value.weightsMapped && Bindable(r.value)
              && r.value.head.config == model.head.config
              && forall l :: 0 <= l < model.config.numLayers ==>
                   r.value.layers[l].config == model.layers[l].config && r.value.layers[l].state == model.layers[l].state
  {
    var c, L := model.config, model.config.numLayers;
    if |blob| < TotalLen(c) then None
    else
      var layers := seq(L, l requires 0 <= l < L => BoundLayer(model, blob, l));
      var F := 16 * L;
      var head := model.head.(weights := Linear.LinearWeights(RegionContents(c, blob, F), RegionContents(c, blob, F + 1)));
      Some(LstmModel.LstmModel(c, layers, head, true))
  }

  /** After binding, array k of the model is the contents of region k of the blob. */
  lemma BindBinds(model: LstmModel.LstmModel, blob: seq<real>, k: nat)
    requires Bindable(model) && TotalLen(model.config) <= |blob| && k < RegionCount(model.config)
    ensures RegionOf(model.config, k).End() <= |blob|
    ensures PartAt(Bind(model, blob).value, k) == Contents(blob, RegionOf(model.config, k))
  {
    if k < 16 * model.config.numLayers {
      var l, f := k / 16, k % 16;
      assert k == 16 * l + f;
      BoundField(model, blob, l, f);
    } else {
      BoundHead(model, blob, k);
    }
  }

  /** After binding, the head's weights and bias are the contents of the last two regions. */
  lemma BoundHead(model: LstmModel.LstmModel, blob: seq<real>, k: nat)
    requires Bindable(model) && TotalLen(model.config) <= |blob|
    requires 16 * model.config.numLayers <= k < RegionCount(model.config)
    ensures RegionOf(model.config, k).End() <= |blob|
    ensures PartAt(Bind(model, blob).value, k) == Contents(blob, RegionOf(model.config, k))
  {
    var c := model.config;
    var F := 16 * c.numLayers;
    InsideBlobAt(c, |blob|, k);
    var m := Bind(model, blob).value;
    assert m.head.weights == Linear.LinearWeights(RegionContents(c, blob, F), RegionContents(c, blob, F + 1));
  }

  /** After binding, field f of layer l is the contents of its region. */
  lemma BoundField(model: LstmModel.LstmModel, blob: seq<real>, l: nat, f: nat)
    requires Bindable(model) && TotalLen(model.config) <= |blob| && l < model.config.numLayers && f < 16
    ensures 16 * l + f < RegionCount(model.config)
    ensures RegionOf(model.config, 16 * l + f).End() <= |blob|
    ensures PartAt(Bind(model, blob).value, 16 * l + f) ==
            Contents(blob, RegionOf(model.config, 16 * l + f))
  {
    var m := Bind(model, blob).value;
    PartOfLayer(m, l, f);
    BoundWeights(model, blob, l);
    FieldOfBlob(model.config, blob, l, f);
  }

  /** Array 16 * l + f of a model is field f of layer l. */
  lemma PartOfLayer(model: LstmModel.LstmModel, l: nat, f: nat)
    requires Bindable(model) && l < model.config.numLayers && f < 16
    ensures 16 * l + f < RegionCount(model.config)
    ensures PartAt(model, 16 * l + f) == Fields(model.layers[l].weights)[f]
  {
    IndexOf(l, f);
  }

  /** Field f of layer l bound from the blob is the contents of region 16 * l + f. */
  lemma FieldOfBlob(c: LstmModel.LstmModelConfig, blob: seq<real>, l: nat, f: nat)
    requires TotalLen(c) <= |blob| && l < c.numLayers && f < 16
    ensures 16 * l + f < RegionCount(c)
    ensures RegionOf(c, 16 * l + f).End() <= |blob|
    ensures Fields(LayerFromBlob(c, blob, l))[f] == Contents(blob, RegionOf(c, 16 * l + f))
  {
    var k := 16 * l + f;
    InsideBlobAt(c, |blob|, k);
    assert FieldsFromBlob(c, blob, l)[f] == RegionContents(c, blob, k);
  }

  /** Binding gives layer l the parameters bound from the blob. */
  lemma BoundWeights(model: LstmModel.LstmModel, blob: seq<real>, l: nat)
    requires Bindable(model) && TotalLen(model.config) <= |blob| && l < model.config.numLayers
    ensures Bind(model, blob).value.layers[l].weights == LayerFromBlob(model.config, blob, l)
  {
    assert Bind(model, blob).value.layers[l] == BoundLayer(model, blob, l);
  }

  /** The layout starts at 0 and is contiguous. */
  predicate Tiles(rs: seq<Region>) {
    (|rs| > 0 ==> rs[0].start == 0) && Contiguous(rs)
  }

  /** Each part has the length of its region. */
  predicate Fill(parts: seq<seq<real>>, rs: seq<Region>) {
    |parts| == |rs| && forall k :: 0 <= k < |rs| ==> |parts[k]| == rs[k].len
  }

  /** Laying out the first n parts of a tiling takes floats up to the end of region n - 1. */
  lemma {:induction false} FlattenEnd(parts: seq<seq<real>>, rs: seq<Region>, n: nat)
    requires Tiles(rs) && Fill(parts, rs) && n <= |rs|
    ensures |Flatten(parts, n)| == if n == 0 then 0 else rs[n - 1].End()
  {
    if n > 0 {
      FlattenEnd(parts, rs, n - 1);
    }
  }

  /** Laid end to end, each part sits exactly at its region. */
  lemma FlattenPlaces(parts: seq<seq<real>>, rs: seq<Region>, k: nat)
    requires Tiles(rs) && Fill(parts, rs) && k < |rs|
    ensures rs[k].End() <= |Flatten(parts, |rs|)|
    ensures Flatten(parts, |rs|)[rs[k].start .. rs[k].End()] == parts[k]
  {
    var before, upTo, all := Flatten(parts, k), Flatten(parts, k + 1), Flatten(parts, |rs|);
    var lo, hi := rs[k].start, rs[k].End();
    FlattenEnd(parts, rs, k);
    FlattenEnd(parts, rs, k + 1);
    FlattenPrefix(parts, k + 1, |rs|);
    assert |before| == lo by {
      if k > 0 {
        assert rs[k].start == rs[k - 1].End();
      }
    }
    assert upTo == before + parts[k];
    assert |upTo| == hi;
    assert upTo == all[..hi];
    assert upTo[lo .. hi] == parts[k];
    assert all[lo .. hi] == upTo[lo .. hi];
  }

  /** The contents of a tiling's first n regions, laid end to end, are the blob up to region n - 1's end. */
  lemma {:induction false} FlattenSlices(blob: seq<real>, rs: seq<Region>, parts: seq<seq<real>>, n: nat)
    requires Tiles(rs) && |parts| == |rs| && n <= |rs|
    requires forall k :: 0 <= k < |rs| ==> rs[k].End() <= |blob| && parts[k] == Contents(blob, rs[k])
    ensures Flatten(parts, n) == blob[..if n == 0 then 0 else rs[n - 1].End()]
  {
    if n > 0 {
      FlattenSlices(blob, rs, parts, n - 1);
      var a := if n == 1 then 0 else rs[n - 2].End();
      assert rs[n - 1].start == a;
      assert blob[..a] + blob[a .. rs[n - 1].End()] == blob[..rs[n - 1].End()];
    }
  }

  /** Serialising a bound model gives back the blob up to the layout's end. */
  lemma SerializeOfBind(model: LstmModel.LstmModel, blob: seq<real>)
    requires Bindable(model) && TotalLen(model.config) <= |blob|
    ensures Serialize(Bind(model, blob).value) == blob[..TotalLen(model.config)]
  {
    var c := model.config;
    var m := Bind(model, blob).value;
    var rs := Regions(c);
    LayoutContiguous(c);
    forall k | 0 <= k < |rs|
      ensures rs[k].End() <= |blob| && Parts(m)[k] == Contents(blob, rs[k])
    {
      assert rs[k] == RegionOf(c, k);
      BindBinds(model, blob, k);
    }
    FlattenSlices(blob, rs, Parts(m), |rs|);
  }

  /** A laid-out model's checkpoint is `TotalLen` floats, with array k at region k. */
  lemma SerializePlaces(model: LstmModel.LstmModel)
    requires Bindable(model) && LaidOut(model)
    ensures |Serialize(model)| == TotalLen(model.config)
    ensures forall k :: 0 <= k < RegionCount(model.config) ==>
              RegionOf(model.config, k).End() <= |Serialize(model)|
              && Contents(Serialize(model), RegionOf(model.config, k)) == PartAt(model, k)
  {
    var c := model.config;
    var rs, ps := Regions(c), Parts(model);
    LayoutContiguous(c);
    assert Fill(ps, rs) by {
      forall k | 0 <= k < |rs|
        ensures |ps[k]| == rs[k].len
      {
        assert rs[k] == RegionOf(c, k);
      }
    }
    FlattenEnd(ps, rs, |rs|);
    forall k | 0 <= k < |rs|
      ensures rs[k].End() <= |Serialize(model)| && Contents(Serialize(model), rs[k]) == PartAt(model, k)
    {
      FlattenPlaces(ps, rs, k);
    }
    forall k | 0 <= k < |rs|
      ensures RegionOf(c, k) == rs[k]
    {
    }
  }

  /** Parameters with the same sixteen arrays are the same parameters. */
  lemma FieldsInjective(v: LstmParams, w: LstmParams)
    requires Fields(v) == Fields(w)
    ensures v == w
  {
    assert ParamsFrom(Fields(v)) == v && ParamsFrom(Fields(w)) == w;
  }

  /** The blob holds each of the model's arrays at its region. */
  predicate Holds(model: LstmModel.LstmModel, blob: seq<real>)
    requires Bindable(model)
  {
    forall k :: 0 <= k < RegionCount(model.config) ==>
      RegionOf(model.config, k).End() <= |blob| && Contents(blob, RegionOf(model.config, k)) == PartAt(model, k)
  }

  /** Binding a blob that already holds a model's arrays at their regions changes only the mapped flag. */
  lemma BindHolding(model: LstmModel.LstmModel, blob: seq<real>)
    requires Bindable(model) && TotalLen(model.config) <= |blob| && Holds(model, blob)
    ensures Bind(model, blob) == Some(model.(weightsMapped := true))
  {
    var c, L := model.config, model.config.numLayers;
    var m := Bind(model, blob).value;
    forall l | 0 <= l < L
      ensures m.layers[l] == model.layers[l]
    {
      HoldingLayer(model, blob, l);
    }
    var F := 16 * L;
    BindBinds(model, blob, F);
    BindBinds(model, blob, F + 1);
    assert m.layers == model.layers;
  }

  /** Binding such a blob leaves layer l as it was. */
  lemma HoldingLayer(model: LstmModel.LstmModel, blob: seq<real>, l: nat)
    requires Bindable(model) && TotalLen(model.config) <= |blob| && Holds(model, blob)
    requires l < model.config.numLayers
    ensures Bind(model, blob).value.layers[l] == model.layers[l]
  {
    var m := Bind(model, blob).value;
    forall f | 0 <= f < 16
      ensures Fields(m.layers[l].weights)[f] == Fields(model.layers[l].weights)[f]
    {
      BoundField(model, blob, l, f);
      PartOfLayer(m, l, f);
      PartOfLayer(model, l, f);
    }
    FieldsInjective(m.layers[l].weights, model.layers[l].weights);
  }

  /** Binding a model's own checkpoint gives the model back, now mapped. */
  lemma BindOfSerialize(model: LstmModel.LstmModel)
    requires Bindable(model) && LaidOut(model)
    ensures Bind(model, Serialize(model)) == Some(model.(weightsMapped := true))
  {
    SerializePlaces(model);
    assert Holds(model, Serialize(model));
    BindHolding(model, Serialize(model));
  }

  /** A shaped model of one row per call has exactly the arrays the layout binds. */
  lemma ShapedIsLaidOut(model: LstmModel.LstmModel)
    requires LstmModel.Shaped(model) && model.config.inputDim == 1
    ensures Bindable(model) && LaidOut(model)
  {
    var c, L := model.config, model.config.numLayers;
    forall k | 0 <= k < RegionCount(c)
      ensures |PartAt(model, k)| == RegionOf(c, k).len
    {
      if k < 16 * L {
        var l := k / 16;
        assert model.layers[l].config == LstmModel.LayerConfig(c, l);
      } else {
        assert 1 * c.hiddenSize * c.outputSize == c.outputSize * c.hiddenSize;
      }
    }
  }
}
