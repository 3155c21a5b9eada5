/** CMT (`cmt/cmt.py`): the shape bookkeeping of `BiasPositionalEmbedding.build` (the bias
    weight's shape and the query / key-value grid sizes recovered from the attention
    shape), the width defaults of `light_mhsa_with_multi_head_relative_position_embedding`,
    and the attention shape each stage builds its embedding for. */
module Cmt {
  import opened Wrappers
  import opened PyMath
  import opened PySeq
  import Beit

  /** `axis`: one axis or a list of them. */
  datatype AxisArg = OneAxis(axis: int) | AxisList(axes: seq<int>)

  /** A scalar axis is treated as a one-element list. */
  function AxesOf(axis: AxisArg): seq<int>
  {
    match axis
    case OneAxis(a) => [a]
    case AxisList(axes) => axes
  }

  /** `ii` addresses an entry of a list of length n, negative indices from the end. */
  predicate InRange(ii: int, n: nat)
  {
    -(n as int) <= ii < n
  }

  /** The entry `ii` addresses. */
  function Norm(ii: int, n: nat): (k: nat)
    requires InRange(ii, n)
    ensures k < n
  {
    if ii < 0 then n + ii else ii
  }

  /** Some listed axis addresses entry k. */
  predicate Covered(axes: seq<int>, k: nat, n: nat)
  {
    exists ii :: ii in axes && InRange(ii, n) && Norm(ii, n) == k
  }

  /** The bias shape `build` chooses: the last dimension alone for an `axis` of -1 or of
      the last index; otherwise, without the batch entry, the input size at each listed
      axis and 1 elsewhere. An axis out of range is an IndexError. */
  function BiasShapeSpec(axis: AxisArg, shape: seq<Option<int>>): (r: Result<seq<Option<int>>>)
  {
    if axis == OneAxis(-1) || axis == OneAxis(|shape| - 1) then
      if |shape| == 0 then Err(IndexError) else Ok([shape[|shape| - 1]])
    else
      var axes := AxesOf(axis);
      if exists i :: 0 <= i < |axes| && !InRange(axes[i], |shape|) then Err(IndexError)
      else if |shape| == 0 then Ok([])
      else Ok(BiasEntries(axes, shape))
  }

  /** Without the batch entry: the input size at each covered axis and 1 elsewhere. */
  function BiasEntries(axes: seq<int>, shape: seq<Option<int>>): (bb: seq<Option<int>>)
    requires |shape| > 0
    ensures |bb| == |shape| - 1
    ensures forall j :: 0 <= j < |bb| ==> bb[j] == if Covered(axes, j + 1, |shape|) then shape[j + 1] else Some(1)
  {
    seq(|shape| - 1, j requires 0 <= j < |shape| - 1 =>
      if Covered(axes, j + 1, |shape|) then shape[j + 1] else Some(1))
  }

  /** The list `bb_shape` after the first `i` listed axes have been written. */
  function Filled(shape: seq<Option<int>>, axes: seq<int>): (bb: seq<Option<int>>)
    requires forall i :: 0 <= i < |axes| ==> InRange(axes[i], |shape|)
    ensures |bb| == |shape|
    ensures forall k :: 0 <= k < |shape| ==> bb[k] == if Covered(axes, k, |shape|) then shape[k] else Some(1)
  {
    if axes == [] then seq(|shape|, _ => Some(1))
    else
      var n := |axes| - 1;
      var front := Filled(shape, axes[..n]);
      assert forall k :: 0 <= k < |shape| ==>
        (Covered(axes, k, |shape|) <==> Covered(axes[..n], k, |shape|) || Norm(axes[n], |shape|) == k) by {
        assert axes == axes[..n] + [axes[n]];
      }
      front[Norm(axes[n], |shape|) := shape[Norm(axes[n], |shape|)]]
  }

  /** The shape computation of `build`, with its loop writing `bb_shape` in place. */
  method BuildBiasShape(axis: AxisArg, shape: seq<Option<int>>) returns (r: Result<seq<Option<int>>>)
    ensures r == BiasShapeSpec(axis, shape)
  {
    if axis == OneAxis(-1) || axis == OneAxis(|shape| - 1) {
      if |shape| == 0 {
        return Err(IndexError);
      }
      return Ok([shape[|shape| - 1]]);
    }
    var filled := FillAxes(shape, AxesOf(axis));
    if filled.Err? {
      ghost var m :| 0 <= m < |AxesOf(axis)| && !InRange(AxesOf(axis)[m], |shape|);
      SpecOutOfRange(axis, shape, m);
      return Err(IndexError);
    }
    if |shape| == 0 {
      SpecEmptyShape(axis, shape);
      return Ok([]);
    }
    SpecOfFilled(axis, shape);
    r := Ok(filled.value[1..]);
  }

  /** The loop writing the input size at each listed axis into a list of ones; the
      first axis out of range raises IndexError. */
  method FillAxes(shape: seq<Option<int>>, axes: seq<int>) returns (r: Result<seq<Option<int>>>)
    ensures r.Err? ==> r.error == IndexError && exists m :: 0 <= m < |axes| && !InRange(axes[m], |shape|)
    ensures r.Ok? ==> (forall m :: 0 <= m < |axes| ==> InRange(axes[m], |shape|)) && r.value == Filled(shape, axes)
  {
    var bb: seq<Option<int>> := Filled(shape, []);
    var i := 0;
    assert axes[..0] == [];
    while i < |axes|
      invariant 0 <= i <= |axes|
      invariant forall m :: 0 <= m < i ==> InRange(axes[m], |shape|)
      invariant bb == Filled(shape, axes[..i])
    {
      if !InRange(axes[i], |shape|) {
        return Err(IndexError);
      }
      var k := Norm(axes[i], |shape|);
      FilledStep(shape, axes, i);
      bb := bb[k := shape[k]];
      i := i + 1;
    }
    assert axes[..i] == axes;
    return Ok(bb);
  }

  /** A listed axis out of range is an IndexError. */
  lemma SpecOutOfRange(axis: AxisArg, shape: seq<Option<int>>, i: nat)
    requires !(axis == OneAxis(-1) || axis == OneAxis(|shape| - 1))
    requires i < |AxesOf(axis)| && !InRange(AxesOf(axis)[i], |shape|)
    ensures BiasShapeSpec(axis, shape) == Err(IndexError)
  {
  }

  /** An empty shape whose listed axes all passed gives an empty bias shape. */
  lemma SpecEmptyShape(axis: AxisArg, shape: seq<Option<int>>)
    requires !(axis == OneAxis(-1) || axis == OneAxis(|shape| - 1))
    requires forall m :: 0 <= m < |AxesOf(axis)| ==> InRange(AxesOf(axis)[m], |shape|)
    requires |shape| == 0
    ensures BiasShapeSpec(axis, shape) == Ok([])
  {
  }

  /** Writing one more listed axis into `bb_shape`. */
  lemma FilledStep(shape: seq<Option<int>>, axes: seq<int>, i: nat)
    requires i < |axes| && forall m :: 0 <= m <= i ==> InRange(axes[m], |shape|)
    ensures Filled(shape, axes[..i + 1]) ==
      Filled(shape, axes[..i])[Norm(axes[i], |shape|) := shape[Norm(axes[i], |shape|)]]
  {
    assert axes[..i + 1][..i] == axes[..i];
  }

  /** Once every axis is in range, the specified shape is the filled list without its
      batch entry. */
  lemma SpecOfFilled(axis: AxisArg, shape: seq<Option<int>>)
    requires !(axis == OneAxis(-1) || axis == OneAxis(|shape| - 1))
    requires forall m :: 0 <= m < |AxesOf(axis)| ==> InRange(AxesOf(axis)[m], |shape|)
    requires |shape| > 0
    ensures BiasShapeSpec(axis, shape) == Ok(Filled(shape, AxesOf(axis))[1..])
  {
    var axes := AxesOf(axis);
    var bb := Filled(shape, axes);
    var spec := BiasEntries(axes, shape);
    forall j | 0 <= j < |shape| - 1
      ensures spec[j] == bb[1..][j]
    {
      assert bb[1..][j] == bb[j + 1];
    }
    assert spec == bb[1..];
  }

  /** The default `axis=[1, 2, 3]` on a 4-D shape keeps everything but the batch entry. */
  lemma DefaultAxisKeepsShape(shape: seq<Option<int>>)
    requires |shape| == 4
    ensures BiasShapeSpec(AxisList([1, 2, 3]), shape) == Ok(shape[1..])
  {
    var axes := [1, 2, 3];
    assert Norm(1, 4) == 1 && Norm(2, 4) == 2 && Norm(3, 4) == 3;
    assert Covered(axes, 1, 4) && Covered(axes, 2, 4) && Covered(axes, 3, 4);
    assert BiasShapeSpec(AxisList(axes), shape).value == shape[1..];
  }

  /** With a last-axis `axis` the bias is one vector over the last dimension. */
  lemma LastAxisBias(axis: AxisArg, shape: seq<Option<int>>)
    requires |shape| >= 1
    requires axis == OneAxis(-1) || axis == OneAxis(|shape| - 1)
    ensures BiasShapeSpec(axis, shape) == Ok([shape[|shape| - 1]])
  {
  }

  /** `float(input_shape[i])` needs a known size. */
  function SizeAt(shape: seq<Option<int>>, i: int): (r: Result<int>)
    ensures r.Ok? <==> Index(shape, i).Ok? && Index(shape, i).value.Some?
    ensures r.Ok? ==> r.value == Index(shape, i).value.value
  {
    var d :- Index(shape, i);
    if d.None? then Err(TypeError) else Ok(d.value)
  }

  /** `int((float(q) / float(k)) ** 0.5)`: the square root of a negative ratio is complex,
      which `int` refuses. */
  function SrRatio(q: int, k: int): (r: Result<nat>)
    ensures k == 0 ==> r == Err(ZeroDivisionError)
    ensures r.Ok? <==> k != 0 && (q == 0 || (q > 0) == (k > 0))
    ensures q >= 0 && k > 0 ==> r.Ok? && r.value * r.value <= q / k < (r.value + 1) * (r.value + 1)
  {
    if k == 0 then Err(ZeroDivisionError)
    else if q != 0 && (q > 0) != (k > 0) then Err(TypeError)
    else if k > 0 then DivNonneg(q, k); Ok(ISqrt(q / k))
    else DivNonneg(-q, -k); Ok(ISqrt((-q) / (-k)))
  }

  lemma DivNonneg(a: int, b: int)
    requires a >= 0 && b > 0
    ensures a / b >= 0
  {
  }

  /** The grid sizes stored by `build`. */
  datatype AttnSizes = AttnSizes(queryHh: int, queryWw: int, kvHh: int, kvWw: int)

  /** `query_hh`, `query_ww`, `kv_hh`, `kv_ww` from `[batch, heads, queries, keys]`. */
  function AttnGrid(attnHeight: int, shape: seq<Option<int>>): (r: Result<AttnSizes>)
    ensures r.Ok? <==>
      && SizeAt(shape, 2).Ok? && SizeAt(shape, 3).Ok?
      && var q, k := SizeAt(shape, 2).value, SizeAt(shape, 3).value;
        && (attnHeight == -1 ==> q > 0) && attnHeight != 0
        && SrRatio(q, k).Ok? && SrRatio(q, k).value > 0
        && FloorDiv(if attnHeight == -1 then ISqrt(q) else attnHeight, SrRatio(q, k).value) != 0
    ensures r.Ok? && attnHeight != -1 ==> r.value.queryHh == attnHeight
    ensures r.Ok? && attnHeight == -1 ==>
      r.value.queryHh * r.value.queryHh <= SizeAt(shape, 2).value < (r.value.queryHh + 1) * (r.value.queryHh + 1)
    ensures r.Ok? ==> r.value.queryHh != 0 && r.value.queryWw == TruncDiv(SizeAt(shape, 2).value, r.value.queryHh)
    ensures r.Ok? && SizeAt(shape, 2).value >= 0 && r.value.queryHh > 0 ==>
      r.value.queryWw == SizeAt(shape, 2).value / r.value.queryHh
    ensures r.Ok? ==> r.value.kvHh != 0 && r.value.kvWw == TruncDiv(SizeAt(shape, 3).value, r.value.kvHh)
    ensures r.Ok? && SizeAt(shape, 3).value >= 0 && r.value.kvHh > 0 ==>
      r.value.kvWw == SizeAt(shape, 3).value / r.value.kvHh
    ensures r.Ok? ==> SrRatio(SizeAt(shape, 2).value, SizeAt(shape, 3).value).Ok?
    ensures r.Ok? ==>
      (var sr := SrRatio(SizeAt(shape, 2).value, SizeAt(shape, 3).value).value;
       sr > 0 && r.value.kvHh == FloorDiv(r.value.queryHh, sr))
  {
    var q :- SizeAt(shape, 2);
    var qh :- if attnHeight == -1 then FloatSqrtFloor(q) else Ok(attnHeight);
    var qw :- FloatDivTrunc(q, qh);
    var k :- SizeAt(shape, 3);
    var sr :- SrRatio(q, k);
    var kh :- if sr == 0 then Err(ZeroDivisionError) else Ok(FloorDiv(qh, sr));
    var kw :- FloatDivTrunc(k, kh);
    Ok(AttnSizes(qh, qw, kh, kw))
  }

  /** The attention shape a stage builds its embedding for,
      `[None, heads, h * w, (h // sr) * (w // sr)]`. */
  function StageAttnShape(heads: int, h: nat, w: nat, sr: nat): (s: seq<Option<int>>)
    requires sr > 0
    ensures |s| == 4
  {
    [None, Some(heads), Some(h * w), Some((h / sr) * (w / sr))]
  }

  /** The integer facts behind `StageGrid`. */
  lemma StageArith(h: nat, w: nat, sr: nat)
    requires h > 0 && w > 0 && sr > 0 && h % sr == 0 && w % sr == 0
    ensures h / sr > 0 && w / sr > 0 && (h / sr) * (w / sr) > 0
    ensures (h * w) / h == w
    ensures (h * w) / ((h / sr) * (w / sr)) == sr * sr
    ensures ((h / sr) * (w / sr)) / (h / sr) == w / sr
  {
    var a := h / sr;
    var b := w / sr;
    assert h == a * sr && w == b * sr;
    var k := a * b;
    MulPos(a, b);
    assert h * w == (sr * sr) * k by {
      assert h * w == (a * sr) * (b * sr);
    }
    ExactDiv(w, h);
    assert h * w == w * h;
    ExactDiv(sr * sr, k);
    ExactDiv(b, a);
    assert k == b * a;
  }

  /** For a stage whose grid divides by its reduction ratio, `build` recovers the grid:
      queries on h x w, keys and values on (h / sr) x (w / sr), and the bias covers
      heads x queries x keys. */
  lemma StageGrid(heads: int, h: nat, w: nat, sr: nat)
    requires h > 0 && w > 0 && sr > 0 && h % sr == 0 && w % sr == 0
    ensures AttnGrid(h, StageAttnShape(heads, h, w, sr)) == Ok(AttnSizes(h, w, h / sr, w / sr))
    ensures BiasShapeSpec(AxisList([1, 2, 3]), StageAttnShape(heads, h, w, sr)) ==
      Ok([Some(heads), Some(h * w), Some((h / sr) * (w / sr))])
  {
    var shape := StageAttnShape(heads, h, w, sr);
    DefaultAxisKeepsShape(shape);
    StageArith(h, w, sr);
    var q := h * w;
    var k := (h / sr) * (w / sr);
    assert SizeAt(shape, 2) == Ok(q) && SizeAt(shape, 3) == Ok(k);
    assert FloatDivTrunc(q, h) == Ok(w);
    ISqrtUnique(sr * sr, sr);
    assert SrRatio(q, k) == Ok(sr);
    assert FloorDiv(h, sr) == h / sr;
    assert FloatDivTrunc(k, h / sr) == Ok(w / sr);
  }

  lemma MulPos(a: nat, b: nat)
    requires a > 0 && b > 0
    ensures a * b > 0
  {
  }

  /** `key_dim`, `out_shape` and the embedding width of the light multi-head attention:
      `out_shape` falls back to the input channels when it is not given or there is no
      output projection. */
  function MhsaDims(keyDim: int, channels: int, numHeads: int, outShape: Option<int>, outWeight: bool)
    : (r: Result<(int, int, int)>)
    ensures r.Ok? <==> Beit.AttentionKeyDim(keyDim, channels, numHeads).Ok?
    ensures r.Ok? ==> r.value.0 == Beit.AttentionKeyDim(keyDim, channels, numHeads).value
    ensures r.Ok? ==> r.value.1 == (if outShape.None? || !outWeight then channels else outShape.value)
    ensures r.Ok? ==> r.value.2 == numHeads * r.value.0
  {
    var kd :- Beit.AttentionKeyDim(keyDim, channels, numHeads);
    var out := if outShape.None? || !outWeight then channels else outShape.value;
    Ok((kd, out, numHeads * kd))
  }

  /** `BiasPositionalEmbedding`: a learned bias added to the attention scores. */
  class BiasPositionalEmbedding {
    const axis: AxisArg
    const attnHeight: int
    /** The shape of the bias weight `bb`, once built. */
    var bbShape: Option<seq<Option<int>>>
    /** The grid sizes, once built. */
    var sizes: Option<AttnSizes>

    constructor(axis: AxisArg, attnHeight: int)
      ensures this.axis == axis && this.attnHeight == attnHeight
      ensures bbShape.None? && sizes.None?
    {
      this.axis := axis;
      this.attnHeight := attnHeight;
      bbShape := None;
      sizes := None;
    }

    /** `build`: the weight is created before the grid sizes are computed, so a failure
        in the sizes leaves the weight in place. */
    method Build(inputShape: seq<Option<int>>) returns (err: Option<PyError>)
      modifies this
      ensures var b := BiasShapeSpec(axis, inputShape);
        var g := AttnGrid(attnHeight, inputShape);
        (b.Err? ==> err == Some(b.error) && bbShape == old(bbShape) && sizes == old(sizes)) &&
        (b.Ok? ==> bbShape == Some(b.value)) &&
        (b.Ok? && g.Err? ==> err == Some(g.error) && sizes == old(sizes)) &&
        (b.Ok? && g.Ok? ==> err.None? && sizes == Some(g.value))
    {
      var b := BuildBiasShape(axis, inputShape);
      if b.Err? {
        return Some(b.error);
      }
      bbShape := Some(b.value);
      var g := AttnGrid(attnHeight, inputShape);
      if g.Err? {
        return Some(g.error);
      }
      sizes := Some(g.value);
      err := None;
    }
  }
}
