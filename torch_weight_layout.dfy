/** `keras_reload_stacked_state_dict`: the per-layer weight lists of a PyTorch state dict
    are paired, in order, with Keras layer names and loaded into the Keras model after
    their layout is converted: torch keeps convolution kernels as (out, in, h, w) and
    Keras as (h, w, in, out), and torch dense kernels are the transpose of Keras ones.
    Extra conversions can be attached to layer-name suffixes or layer classes. */
module TorchWeightLayout {
  import opened Wrappers
  import opened PySeq
  import opened Tensors
  import opened OrderedDicts

  /** The Keras layer classes the conversion distinguishes. `DepthwiseConv2D` is a subclass
      of `Conv2D`. */
  datatype LayerKind = DepthwiseConv2D | Conv2D | PReLU | Conv1D | Dense | OtherLayer

  /** `isinstance(layer, cls)` for a layer of the given kind. */
  predicate IsInstance(kind: LayerKind, cls: LayerKind)
  {
    kind == cls || (kind == DepthwiseConv2D && cls == Conv2D)
  }

  /** A key of `additional_transfer`: a layer-name suffix or a layer class. */
  datatype Matcher = NameSuffix(suffix: string) | KindIs(cls: LayerKind)

  /** An `additional_transfer` entry: a matcher and the conversion applied to the whole
      weight list. */
  datatype Transfer = Transfer(matcher: Matcher, apply: seq<Tensor> -> seq<Tensor>)

  lemma LayoutPermutations()
    ensures IsPerm([2, 3, 0, 1], 4) && IsPerm([2, 3, 1, 0], 4) && IsPerm([2, 1, 0], 3)
  {
    var p: seq<nat> := [2, 3, 0, 1];
    assert p[2] == 0 && p[3] == 1 && p[0] == 2 && p[1] == 3;
    var q: seq<nat> := [2, 3, 1, 0];
    assert q[3] == 0 && q[2] == 1 && q[0] == 2 && q[1] == 3;
    var u: seq<nat> := [2, 1, 0];
    assert u[2] == 0 && u[1] == 1 && u[0] == 2;
  }

  /** `np.transpose(x, p)`: a permutation of the wrong length raises ValueError. */
  function NpTranspose(t: Tensor, p: seq<nat>): (r: Result<Tensor>)
    requires IsPerm(p, |p|)
    ensures r.Ok? <==> |t.shape| == |p|
    ensures r.Ok? ==> r.value == Transpose(t, p)
  {
    if |t.shape| == |p| then Ok(Transpose(t, p)) else Err(ValueError)
  }

  /** The fixed layout conversion of one layer's weights; the class checks run in order, so
      a depthwise kernel never meets the Conv2D rule. Reading `torch_weight[0]` of an empty
      list raises IndexError. */
  function Layout(kind: LayerKind, ws: seq<Tensor>): (r: Result<seq<Tensor>>)
    ensures kind == OtherLayer ==> r == Ok(ws)
    ensures kind != OtherLayer ==> (r.Ok? ==> |ws| > 0)
    ensures kind == PReLU || kind == Dense ==> (r.Ok? <==> |ws| > 0)
    ensures kind == DepthwiseConv2D || kind == Conv2D ==> (r.Ok? <==> |ws| > 0 && |ws[0].shape| == 4)
    ensures kind == Conv1D ==> (r.Ok? <==> |ws| > 0 && |ws[0].shape| == 3)
    ensures r.Ok? ==> |r.value| == |ws|
    ensures r.Ok? && kind != Conv2D ==> forall i :: 1 <= i < |ws| ==> r.value[i] == ws[i]
    ensures r.Ok? && kind == Conv2D ==>
      ((|ws| > 1 ==> r.value[1] == ws[1]) && (|ws| > 2 ==> r.value[2] == Squeeze(ws[2]))
        && forall i :: 3 <= i < |ws| ==> r.value[i] == ws[i])
  {
    LayoutPermutations();
    if kind == OtherLayer then Ok(ws)
    else if |ws| == 0 then Err(IndexError)
    else
      match kind
      case DepthwiseConv2D =>
        var k :- NpTranspose(ws[0], [2, 3, 0, 1]);
        Ok(ws[0 := k])
      case Conv2D =>
        var k :- NpTranspose(ws[0], [2, 3, 1, 0]);
        var ws2 := ws[0 := k];
        if |ws2| > 2 then Ok(ws2[2 := Squeeze(ws2[2])]) else Ok(ws2)
      case PReLU => Ok(ws[0 := ExpandDims0(ExpandDims0(ws[0]))])
      case Conv1D =>
        var k :- NpTranspose(ws[0], [2, 1, 0]);
        Ok(ws[0 := k])
      case Dense => Ok(ws[0 := T(ws[0])])
  }

  /** A torch (out, in, h, w) convolution kernel becomes a Keras (h, w, in, out) kernel, and
      each element moves with its index. */
  lemma Conv2DKernelLayout(ws: seq<Tensor>, o: nat, i: nat, h: nat, w: nat)
    requires |ws| > 0 && |ws[0].shape| == 4
    requires InBounds(ws[0].shape, [o, i, h, w])
    ensures Layout(Conv2D, ws).Ok?
    ensures var k := Layout(Conv2D, ws).value[0];
      k.shape == [ws[0].shape[2], ws[0].shape[3], ws[0].shape[1], ws[0].shape[0]]
      && k.at([h, w, i, o]) == ws[0].at([o, i, h, w])
  {
    LayoutPermutations();
    var p: seq<nat> := [2, 3, 1, 0];
    var q: seq<nat> := [o, i, h, w];
    TransposeAt(ws[0], p, q);
    assert Permute(q, p) == [h, w, i, o];
    assert Permute(ws[0].shape, p) == [ws[0].shape[2], ws[0].shape[3], ws[0].shape[1], ws[0].shape[0]];
  }

  /** A depthwise kernel (channels, multiplier, h, w) becomes (h, w, channels, multiplier). */
  lemma DepthwiseKernelLayout(ws: seq<Tensor>, c: nat, m: nat, h: nat, w: nat)
    requires |ws| > 0 && |ws[0].shape| == 4
    requires InBounds(ws[0].shape, [c, m, h, w])
    ensures Layout(DepthwiseConv2D, ws).Ok?
    ensures var k := Layout(DepthwiseConv2D, ws).value[0];
      k.shape == [ws[0].shape[2], ws[0].shape[3], ws[0].shape[0], ws[0].shape[1]]
      && k.at([h, w, c, m]) == ws[0].at([c, m, h, w])
  {
    LayoutPermutations();
    var p: seq<nat> := [2, 3, 0, 1];
    var q: seq<nat> := [c, m, h, w];
    TransposeAt(ws[0], p, q);
    assert Permute(q, p) == [h, w, c, m];
    assert Permute(ws[0].shape, p) == [ws[0].shape[2], ws[0].shape[3], ws[0].shape[0], ws[0].shape[1]];
  }

  /** A dense kernel (out, in) becomes (in, out), entry by entry. */
  lemma DenseKernelLayout(ws: seq<Tensor>, o: nat, i: nat)
    requires |ws| > 0 && |ws[0].shape| == 2
    requires InBounds(ws[0].shape, [o, i])
    ensures Layout(Dense, ws).Ok?
    ensures var k := Layout(Dense, ws).value[0];
      k.shape == [ws[0].shape[1], ws[0].shape[0]] && k.at([i, o]) == ws[0].at([o, i])
  {
    var p := Reversal(2);
    var q: seq<nat> := [o, i];
    TransposeAt(ws[0], p, q);
    assert Permute(q, p) == [i, o];
  }

  /** A torch Conv1D kernel (out, in, w) becomes (w, in, out). */
  lemma Conv1DKernelLayout(ws: seq<Tensor>)
    requires |ws| > 0 && |ws[0].shape| == 3
    ensures Layout(Conv1D, ws).Ok?
    ensures Layout(Conv1D, ws).value[0].shape == [ws[0].shape[2], ws[0].shape[1], ws[0].shape[0]]
  {
    LayoutPermutations();
  }

  /** A PReLU slope gains two leading unit axes. */
  lemma PReLULayout(ws: seq<Tensor>, q: seq<nat>)
    requires |ws| > 0
    ensures Layout(PReLU, ws).Ok?
    ensures Layout(PReLU, ws).value[0].shape == [1, 1] + ws[0].shape
    ensures Layout(PReLU, ws).value[0].at([0, 0] + q) == ws[0].at(q)
  {
    var once := ExpandDims0(ws[0]);
    assert [0, 0] + q == [0] + ([0] + q);
    assert [1] + ([1] + ws[0].shape) == [1, 1] + ws[0].shape;
  }

  predicate Matches(m: Matcher, layerName: string, kind: LayerKind)
  {
    match m
    case NameSuffix(s) => EndsWith(layerName, s)
    case KindIs(cls) => IsInstance(kind, cls)
  }

  /** The extra conversions, each applied in dict order when it matches the layer. */
  function ApplyTransfers(ws: seq<Tensor>, layerName: string, kind: LayerKind, transfers: seq<Transfer>): (r: seq<Tensor>)
    ensures (forall i :: 0 <= i < |transfers| ==> !Matches(transfers[i].matcher, layerName, kind)) ==> r == ws
    decreases |transfers|
  {
    if transfers == [] then ws
    else
      var ws2 := if Matches(transfers[0].matcher, layerName, kind) then transfers[0].apply(ws) else ws;
      assert forall i :: 1 <= i < |transfers| ==> transfers[i] == transfers[1..][i - 1];
      ApplyTransfers(ws2, layerName, kind, transfers[1..])
  }

  /** Transfers keyed by `Conv2D` also reach depthwise layers. */
  lemma DepthwiseMatchesConv2D(layerName: string)
    ensures Matches(KindIs(Conv2D), layerName, DepthwiseConv2D)
    ensures !Matches(KindIs(DepthwiseConv2D), layerName, Conv2D)
  {
  }

  function Convert(kind: LayerKind, ws: seq<Tensor>, layerName: string, transfers: seq<Transfer>): (r: Result<seq<Tensor>>)
  {
    var laid :- Layout(kind, ws);
    Ok(ApplyTransfers(laid, layerName, kind, transfers))
  }

  function Shapes(ws: seq<Tensor>): (r: seq<seq<nat>>)
    ensures |r| == |ws| && forall i :: 0 <= i < |ws| ==> r[i] == ws[i].shape
  {
    seq(|ws|, i requires 0 <= i < |ws| => ws[i].shape)
  }

  /** One pair of the loop: `get_layer` (ValueError for an unknown name), the conversion,
      and `set_weights`, which raises ValueError unless the count and every shape agree. The
      weights are updated, or the error is reported with the weights unchanged. */
  function Step(weights: map<string, seq<Tensor>>, kinds: map<string, LayerKind>, torch: seq<Tensor>,
                layer: string, transfers: seq<Transfer>): (r: (map<string, seq<Tensor>>, Option<PyError>))
    ensures r.1.Some? ==> r.0 == weights
    ensures r.1.None? ==>
      (layer in weights && r.0.Keys == weights.Keys
        && Shapes(r.0[layer]) == Shapes(weights[layer])
        && forall n :: n in weights && n != layer ==> r.0[n] == weights[n])
  {
    if layer !in kinds || layer !in weights then (weights, Some(ValueError))
    else
      match Convert(kinds[layer], torch, layer, transfers)
      case Err(e) => (weights, Some(e))
      case Ok(ws) =>
        if Shapes(ws) != Shapes(weights[layer]) then (weights, Some(ValueError))
        else (weights[layer := ws], None)
  }

  /** The model weights after the first k pairs of `zip(stacked keys, layer names)`, and
      the error that stopped the loop, if any. */
  function ReloadUpTo(weights: map<string, seq<Tensor>>, kinds: map<string, LayerKind>,
                      stacked: ODict<string, seq<Tensor>>, names: seq<string>, transfers: seq<Transfer>, k: nat)
    : (r: (map<string, seq<Tensor>>, Option<PyError>))
    requires k <= |stacked.keys| && k <= |names|
    decreases k, 1
  {
    if k == 0 then (weights, None) else ReloadThrough(weights, kinds, stacked, names, transfers, k - 1)
  }

  /** The same after pairs 0..i: pair i runs only when the earlier ones succeeded. */
  function ReloadThrough(weights: map<string, seq<Tensor>>, kinds: map<string, LayerKind>,
                         stacked: ODict<string, seq<Tensor>>, names: seq<string>, transfers: seq<Transfer>, i: nat)
    : (r: (map<string, seq<Tensor>>, Option<PyError>))
    requires i < |stacked.keys| && i < |names|
    decreases i + 1, 0
  {
    var prev := ReloadUpTo(weights, kinds, stacked, names, transfers, i);
    if prev.1.Some? then prev else Pair(prev.0, kinds, stacked, names, transfers, i)
  }

  /** Pair i of the loop: the stacked entry under the i-th key (KeyError when the key has
      no value) loaded into the layer `names[i]`. */
  function Pair(weights: map<string, seq<Tensor>>, kinds: map<string, LayerKind>,
                stacked: ODict<string, seq<Tensor>>, names: seq<string>, transfers: seq<Transfer>, i: nat)
    : (r: (map<string, seq<Tensor>>, Option<PyError>))
    requires i < |stacked.keys| && i < |names|
  {
    if stacked.keys[i] !in stacked.vals then (weights, Some(KeyError))
    else Step(weights, kinds, stacked.vals[stacked.keys[i]], names[i], transfers)
  }

  /** Reloading never changes which layers exist or the shape of any weight; layers that
      were not paired keep their weights. */
  lemma {:induction false} ReloadKeepsShapes(weights: map<string, seq<Tensor>>, kinds: map<string, LayerKind>,
                                            stacked: ODict<string, seq<Tensor>>, names: seq<string>,
                                            transfers: seq<Transfer>, k: nat)
    requires k <= |stacked.keys| && k <= |names|
    ensures var r := ReloadUpTo(weights, kinds, stacked, names, transfers, k).0;
      r.Keys == weights.Keys
      && (forall n :: n in weights ==> Shapes(r[n]) == Shapes(weights[n]))
      && (forall n :: n in weights && n !in names[..k] ==> r[n] == weights[n])
  {
    if k > 0 {
      ReloadKeepsShapes(weights, kinds, stacked, names, transfers, k - 1);
      ReloadStepKeeps(weights, kinds, stacked, names, transfers, k);
      PrefixSnoc(names, k);
      var cur := ReloadUpTo(weights, kinds, stacked, names, transfers, k).0;
      forall n | n in weights && n !in names[..k]
        ensures cur[n] == weights[n]
      {
        assert n !in names[..k - 1] && n != names[k - 1];
      }
    }
  }

  /** One pair changes at most the weights of its own layer, and no shape. */
  lemma ReloadStepKeeps(weights: map<string, seq<Tensor>>, kinds: map<string, LayerKind>,
                        stacked: ODict<string, seq<Tensor>>, names: seq<string>,
                        transfers: seq<Transfer>, k: nat)
    requires 0 < k <= |stacked.keys| && k <= |names|
    ensures var prev := ReloadUpTo(weights, kinds, stacked, names, transfers, k - 1).0;
      var cur := ReloadUpTo(weights, kinds, stacked, names, transfers, k).0;
      cur.Keys == prev.Keys
      && (forall n :: n in prev ==> Shapes(cur[n]) == Shapes(prev[n]))
      && (forall n :: n in prev && n != names[k - 1] ==> cur[n] == prev[n])
  {
    var prev := ReloadUpTo(weights, kinds, stacked, names, transfers, k - 1);
    if prev.1.None? {
      ReloadStep(weights, kinds, stacked, names, transfers, k - 1);
      var kk := stacked.keys[k - 1];
      if kk in stacked.vals {
        var r := Step(prev.0, kinds, stacked.vals[kk], names[k - 1], transfers);
        if r.1.None? {
          forall n | n in prev.0
            ensures Shapes(r.0[n]) == Shapes(prev.0[n])
          {
            if n != names[k - 1] {
              assert r.0[n] == prev.0[n];
            }
          }
        }
      }
    }
  }

  /** A layer of an unlisted class with no matching transfer receives the torch weights
      as they are. */
  lemma OtherLayerLoadsAsIs(weights: map<string, seq<Tensor>>, kinds: map<string, LayerKind>, torch: seq<Tensor>,
                            layer: string, transfers: seq<Transfer>)
    requires layer in kinds && kinds[layer] == OtherLayer && layer in weights
    requires forall i :: 0 <= i < |transfers| ==> !Matches(transfers[i].matcher, layer, OtherLayer)
    requires Shapes(torch) == Shapes(weights[layer])
    ensures Step(weights, kinds, torch, layer, transfers) == (weights[layer := torch], None)
  {
  }

  /** `save_name`: `None` means `{model.name}.h5`, and an empty name means no save. */
  function SaveTarget(modelName: string, saveName: Option<string>): (r: Option<string>)
    ensures saveName.None? ==> r == Some(modelName + ".h5")
    ensures saveName.Some? ==> (r.None? <==> saveName.value == "")
  {
    var s := if saveName.Some? then saveName.value else modelName + ".h5";
    if |s| != 0 then Some(s) else None
  }

  /** The Keras model: its layer classes, and the weight lists it holds. */
  class KerasModel {
    const name: string
    const kinds: map<string, LayerKind>
    var weights: map<string, seq<Tensor>>

    constructor (name: string, kinds: map<string, LayerKind>, weights: map<string, seq<Tensor>>)
      ensures this.name == name && this.kinds == kinds && this.weights == weights
    {
      this.name := name;
      this.kinds := kinds;
      this.weights := weights;
    }

    /** `keras_reload_stacked_state_dict`. Returns the file the model is saved to, or the
        error that stopped the loop, with the pairs before it already loaded. */
    method ReloadStackedStateDict(stacked: ODict<string, seq<Tensor>>, names: seq<string>,
                                  transfers: seq<Transfer>, saveName: Option<string>)
      returns (r: Result<Option<string>>)
      modifies this
      ensures var n := if |stacked.keys| <= |names| then |stacked.keys| else |names|;
        var res := ReloadUpTo(old(weights), kinds, stacked, names, transfers, n);
        weights == res.0
        && (res.1.Some? ==> r == Err(res.1.value))
        && (res.1.None? ==> r == Ok(SaveTarget(name, saveName)))
    {
      var ws, e := LoadPairs(weights, kinds, stacked, names, transfers);
      weights := ws;
      if e.Some? {
        return Err(e.value);
      }
      return Ok(SaveTarget(name, saveName));
    }
  }

  /** The loop over `zip(stacked keys, layer names)`, stopping at the first error. */
  method LoadPairs(weights: map<string, seq<Tensor>>, kinds: map<string, LayerKind>,
                   stacked: ODict<string, seq<Tensor>>, names: seq<string>, transfers: seq<Transfer>)
    returns (ws: map<string, seq<Tensor>>, e: Option<PyError>)
    ensures var n := if |stacked.keys| <= |names| then |stacked.keys| else |names|;
      (ws, e) == ReloadUpTo(weights, kinds, stacked, names, transfers, n)
  {
    var n := if |stacked.keys| <= |names| then |stacked.keys| else |names|;
    ws := weights;
    var i := 0;
    while i < n
      invariant 0 <= i <= n
      invariant ReloadUpTo(weights, kinds, stacked, names, transfers, i) == (ws, None)
    {
      var next := LoadPair(weights, kinds, stacked, names, transfers, i, ws, n);
      if next.1.Some? {
        return next.0, next.1;
      }
      ws := next.0;
      i := i + 1;
    }
    e := None;
  }

  /** One pass of the loop body: the i-th pair is loaded into the weights the earlier
      pairs left; an error there is also the outcome of all n pairs. */
  method LoadPair(weights: map<string, seq<Tensor>>, kinds: map<string, LayerKind>,
                  stacked: ODict<string, seq<Tensor>>, names: seq<string>, transfers: seq<Transfer>,
                  i: nat, ws: map<string, seq<Tensor>>, n: nat)
    returns (next: (map<string, seq<Tensor>>, Option<PyError>))
    requires i < n <= |stacked.keys| && n <= |names|
    requires ReloadUpTo(weights, kinds, stacked, names, transfers, i) == (ws, None)
    ensures next == ReloadUpTo(weights, kinds, stacked, names, transfers, i + 1)
    ensures next.1.Some? ==> next == ReloadUpTo(weights, kinds, stacked, names, transfers, n)
  {
    ReloadStep(weights, kinds, stacked, names, transfers, i);
    next := Pair(ws, kinds, stacked, names, transfers, i);
    if next.1.Some? {
      ReloadErrorPersists(weights, kinds, stacked, names, transfers, i + 1, n);
    }
  }

  /** One more pair of the loop. */
  lemma ReloadStep(weights: map<string, seq<Tensor>>, kinds: map<string, LayerKind>,
                   stacked: ODict<string, seq<Tensor>>, names: seq<string>, transfers: seq<Transfer>, k: nat)
    requires k < |stacked.keys| && k < |names|
    requires ReloadUpTo(weights, kinds, stacked, names, transfers, k).1.None?
    ensures var prev := ReloadUpTo(weights, kinds, stacked, names, transfers, k).0;
      ReloadUpTo(weights, kinds, stacked, names, transfers, k + 1) == Pair(prev, kinds, stacked, names, transfers, k)
  {
  }

  lemma {:induction false} ReloadErrorPersists(weights: map<string, seq<Tensor>>, kinds: map<string, LayerKind>,
                                              stacked: ODict<string, seq<Tensor>>, names: seq<string>,
                                              transfers: seq<Transfer>, k: nat, m: nat)
    requires k <= m <= |stacked.keys| && m <= |names|
    requires ReloadUpTo(weights, kinds, stacked, names, transfers, k).1.Some?
    ensures ReloadUpTo(weights, kinds, stacked, names, transfers, m) == ReloadUpTo(weights, kinds, stacked, names, transfers, k)
    decreases m - k
  {
    if k < m {
      ReloadErrorPersists(weights, kinds, stacked, names, transfers, k, m - 1);
    }
  }
}
