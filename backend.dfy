/** The backend switch: which image data format is in force, how an input shape is
    re-ordered to put its channel axis where that format wants it, and the shape
    bookkeeping around a numpy image resize. A dimension of an input shape is a Python
    `int` or `None` (unknown). */
module Backend {
  import opened Wrappers
  import opened Tensors
  import opened PySeq

  datatype ImageDataFormat = ChannelsLast | ChannelsFirst

  /** TensorFlow reports the format it is configured with; the torch backend has no such
      setting. */
  datatype BackendKind = TensorFlow(configured: ImageDataFormat) | Torch

  type Dim = Option<int>

  function ImageDataFormatOf(b: BackendKind): (f: ImageDataFormat)
    ensures b.Torch? ==> f == ChannelsFirst
    ensures b.TensorFlow? ==> f == b.configured
  {
    match b
    case TensorFlow(fmt) => fmt
    case Torch => ChannelsFirst
  }

  predicate HasUnknown(shape: seq<Dim>)
  {
    exists i :: 0 <= i < |shape| && shape[i].None?
  }

  /** `min(enumerate(shape), key=lambda xx: xx[1] is None)`: `False` sorts before `True`
      and `min` keeps the first of equal keys, so this is the first known entry, or
      entry 0 when every entry is unknown. */
  function FirstKnown(shape: seq<Dim>): (c: nat)
    requires |shape| > 0
    ensures c < |shape|
    ensures forall j :: 0 <= j < c ==> shape[j].None?
    ensures shape[c].None? ==> c == 0 && forall j :: 0 <= j < |shape| ==> shape[j].None?
  {
    if shape[0].Some? || |shape| == 1 then 0
    else
      var c := FirstKnown(shape[1..]);
      if shape[1 + c].Some? then 1 + c else 0
  }

  /** `min(enumerate(shape), key=lambda xx: xx[1])` on a shape with no unknown entry:
      the first position holding the least value. */
  function FirstArgMin(shape: seq<Dim>): (c: nat)
    requires |shape| > 0 && !HasUnknown(shape)
    ensures c < |shape|
    ensures forall j :: 0 <= j < |shape| ==> shape[c].value <= shape[j].value
    ensures forall j :: 0 <= j < c ==> shape[c].value < shape[j].value
  {
    if |shape| == 1 then 0
    else
      var c := FirstArgMin(shape[..|shape| - 1]);
      if shape[|shape| - 1].value < shape[c].value then |shape| - 1 else c
  }

  /** The axis taken to hold the channels of a shape that is not 4-D. */
  function ChannelAxis(shape: seq<Dim>): (c: nat)
    requires |shape| > 0
    ensures c < |shape|
  {
    if HasUnknown(shape) then FirstKnown(shape) else FirstArgMin(shape)
  }

  /** `align_input_shape_by_image_data_format` under a given data format.
      A 4-D shape is taken as given and only loses its batch entry; otherwise the channel
      entry moves to the end (channels last) or the front (channels first). An empty
      shape makes `min` raise ValueError, and a 1-D one makes the final `aligned[1]`
      lookup raise IndexError. */
  function AlignInputShape(shape: seq<Dim>, fmt: ImageDataFormat): (r: Result<seq<Dim>>)
    ensures |shape| == 4 ==> r == Ok(shape[1..])
    ensures r.Err? <==> |shape| < 2
    ensures |shape| == 0 ==> r == Err(ValueError)
    ensures |shape| == 1 ==> r == Err(IndexError)
    ensures r.Ok? ==> |r.value| == if |shape| == 4 then 3 else |shape|
    ensures r.Ok? && |shape| != 4 && fmt == ChannelsLast ==>
      var c := ChannelAxis(shape);
      r.value[|shape| - 1] == shape[c] && r.value[..|shape| - 1] == RemoveAt(shape, c)
    ensures r.Ok? && |shape| != 4 && fmt == ChannelsFirst ==>
      var c := ChannelAxis(shape);
      r.value[0] == shape[c] && r.value[1..] == RemoveAt(shape, c)
  {
    if |shape| == 4 then Ok(shape[1..])
    else if |shape| == 0 then Err(ValueError)
    else
      var c := ChannelAxis(shape);
      var block := RemoveAt(shape, c);
      var aligned := if fmt == ChannelsLast then block + [shape[c]] else [shape[c]] + block;
      if |aligned| < 2 then Err(IndexError) else Ok(aligned)
  }

  /** Re-aligning keeps every entry: the result is a re-ordering of the shape. */
  lemma AlignIsPermutation(shape: seq<Dim>, fmt: ImageDataFormat)
    requires |shape| >= 2 && |shape| != 4
    ensures AlignInputShape(shape, fmt).Ok?
    ensures multiset(AlignInputShape(shape, fmt).value) == multiset(shape)
  {
    var c := ChannelAxis(shape);
    assert shape == shape[..c] + [shape[c]] + shape[c + 1..];
  }

  /** The four examples documented on the function, under the torch backend. */
  lemma AlignDocumentedExamples()
    ensures AlignInputShape([Some(224), Some(224), Some(3)], ImageDataFormatOf(Torch))
      == Ok([Some(3), Some(224), Some(224)])
    ensures AlignInputShape([Some(3), Some(224), Some(224)], ImageDataFormatOf(Torch))
      == Ok([Some(3), Some(224), Some(224)])
    ensures AlignInputShape([None, None, Some(3)], ImageDataFormatOf(Torch))
      == Ok([Some(3), None, None])
    ensures AlignInputShape([None, Some(224), Some(224), Some(3)], ImageDataFormatOf(Torch))
      == Ok([Some(224), Some(224), Some(3)])
  {
    MovesChannelsToFront();
    KeepsChannelsFirst();
    MovesChannelsPastUnknowns();
  }

  lemma MovesChannelsToFront()
    ensures AlignInputShape([Some(224), Some(224), Some(3)], ChannelsFirst)
      == Ok([Some(3), Some(224), Some(224)])
  {
    var a: seq<Dim> := [Some(224), Some(224), Some(3)];
    assert !HasUnknown(a);
    assert ChannelAxis(a) == 2;
    assert [a[2]] + RemoveAt(a, 2) == [Some(3), Some(224), Some(224)];
  }

  lemma KeepsChannelsFirst()
    ensures AlignInputShape([Some(3), Some(224), Some(224)], ChannelsFirst)
      == Ok([Some(3), Some(224), Some(224)])
  {
    var b: seq<Dim> := [Some(3), Some(224), Some(224)];
    assert !HasUnknown(b);
    assert ChannelAxis(b) == 0;
    assert [b[0]] + RemoveAt(b, 0) == b;
  }

  lemma MovesChannelsPastUnknowns()
    ensures AlignInputShape([None, None, Some(3)], ChannelsFirst) == Ok([Some(3), None, None])
  {
    var d: seq<Dim> := [None, None, Some(3)];
    assert HasUnknown(d) by { assert d[0].None?; }
    assert ChannelAxis(d) == 2;
    assert [d[2]] + RemoveAt(d, 2) == [Some(3), None, None];
  }

  /** The entries other than c all exceed entry c. */
  predicate UniqueMinAt(shape: seq<Dim>, c: nat)
    requires c < |shape| && !HasUnknown(shape)
  {
    forall j :: 0 <= j < |shape| && j != c ==> shape[c].value < shape[j].value
  }

  /** Every entry of the aligned shape other than the channel entry comes from some
      other position of the input. */
  lemma AlignedEntry(shape: seq<Dim>, fmt: ImageDataFormat, j: nat)
    requires |shape| >= 2 && |shape| != 4
    requires j < |shape|
    ensures AlignInputShape(shape, fmt).Ok?
    ensures var c := ChannelAxis(shape);
      var c2 := if fmt == ChannelsLast then |shape| - 1 else 0;
      j != c2 ==> exists k :: 0 <= k < |shape| && k != c && AlignInputShape(shape, fmt).value[j] == shape[k]
  {
    var c := ChannelAxis(shape);
    var r := AlignInputShape(shape, fmt).value;
    var c2 := if fmt == ChannelsLast then |shape| - 1 else 0;
    if j != c2 {
      var j2 := if fmt == ChannelsLast then j else j - 1;
      assert r[j] == RemoveAt(shape, c)[j2];
      var k := if j2 < c then j2 else j2 + 1;
      assert r[j] == shape[k];
    }
  }

  /** A fully known shape whose least entry is unique is left as it is by a second
      alignment. */
  lemma AlignIdempotentKnown(shape: seq<Dim>, fmt: ImageDataFormat)
    requires |shape| >= 2 && |shape| != 4 && !HasUnknown(shape)
    requires UniqueMinAt(shape, ChannelAxis(shape))
    ensures AlignInputShape(shape, fmt).Ok?
    ensures AlignInputShape(AlignInputShape(shape, fmt).value, fmt) == AlignInputShape(shape, fmt)
  {
    var r := AlignInputShape(shape, fmt).value;
    var c2 := if fmt == ChannelsLast then |shape| - 1 else 0;
    AlignedUniqueMin(shape, fmt);
    UniqueMinIsChannel(r, c2);
    AlignChannelInPlace(r, fmt);
  }

  /** After one alignment of such a shape the channel entry sits at its target place and is
      still the unique least entry. */
  lemma AlignedUniqueMin(shape: seq<Dim>, fmt: ImageDataFormat)
    requires |shape| >= 2 && |shape| != 4 && !HasUnknown(shape)
    requires UniqueMinAt(shape, ChannelAxis(shape))
    ensures AlignInputShape(shape, fmt).Ok?
    ensures var r := AlignInputShape(shape, fmt).value;
      var c2 := if fmt == ChannelsLast then |shape| - 1 else 0;
      |r| == |shape| && !HasUnknown(r) && UniqueMinAt(r, c2)
  {
    var c := ChannelAxis(shape);
    var r := AlignInputShape(shape, fmt).value;
    var c2 := if fmt == ChannelsLast then |shape| - 1 else 0;
    assert r[c2] == shape[c];
    forall j | 0 <= j < |shape| && j != c2
      ensures r[j].Some? && shape[c].value < r[j].value
    {
      AlignedEntry(shape, fmt, j);
    }
  }

  /** In a fully known shape, the position of the unique least entry is the channel axis. */
  lemma UniqueMinIsChannel(r: seq<Dim>, c2: nat)
    requires c2 < |r| && !HasUnknown(r) && UniqueMinAt(r, c2)
    ensures ChannelAxis(r) == c2
  {
    var c3 := ChannelAxis(r);
    assert r[c3].value <= r[c2].value;
  }

  /** A shape whose channel axis is already at its target place is left as it is. */
  lemma AlignChannelInPlace(r: seq<Dim>, fmt: ImageDataFormat)
    requires |r| >= 2 && |r| != 4
    requires ChannelAxis(r) == if fmt == ChannelsLast then |r| - 1 else 0
    ensures AlignInputShape(r, fmt) == Ok(r)
  {
    var c2 := ChannelAxis(r);
    var block := RemoveAt(r, c2);
    if fmt == ChannelsLast {
      assert block + [r[c2]] == r;
    } else {
      assert [r[c2]] + block == r;
    }
  }

  /** Under channels first a shape with an unknown entry is also left as it is. */
  lemma AlignIdempotentUnknownFirst(shape: seq<Dim>)
    requires |shape| >= 2 && |shape| != 4 && HasUnknown(shape)
    ensures AlignInputShape(shape, ChannelsFirst).Ok?
    ensures AlignInputShape(AlignInputShape(shape, ChannelsFirst).value, ChannelsFirst)
      == AlignInputShape(shape, ChannelsFirst)
  {
    var c := ChannelAxis(shape);
    var r := AlignInputShape(shape, ChannelsFirst).value;
    AlignIsPermutation(shape, ChannelsFirst);
    var i :| 0 <= i < |shape| && shape[i].None?;
    assert shape[i] in multiset(r);
    assert HasUnknown(r);
    assert FirstKnown(r) == 0;
    assert [r[0]] + RemoveAt(r, 0) == r;
  }

  /** Under channels last the same does not hold: the known entries can swap back. */
  lemma AlignNotIdempotentUnknownLast()
    ensures AlignInputShape([None, Some(5), Some(3)], ChannelsLast) == Ok([None, Some(3), Some(5)])
    ensures AlignInputShape([None, Some(3), Some(5)], ChannelsLast) == Ok([None, Some(5), Some(3)])
  {
    var a: seq<Dim> := [None, Some(5), Some(3)];
    assert HasUnknown(a) by { assert a[0].None?; }
    assert ChannelAxis(a) == 1;
    assert RemoveAt(a, 1) + [a[1]] == [None, Some(3), Some(5)];
    var b: seq<Dim> := [None, Some(3), Some(5)];
    assert HasUnknown(b) by { assert b[0].None?; }
    assert ChannelAxis(b) == 1;
    assert RemoveAt(b, 1) + [b[1]] == [None, Some(5), Some(3)];
  }

  /** The shape of `functional.resize` output: the two spatial axes of a 4-D batch take
      the target size; they are axes 1, 2 in channels-last and 2, 3 in channels-first
      layout. */
  function ResizeSpatial(s: seq<nat>, th: nat, tw: nat, fmt: ImageDataFormat): (r: seq<nat>)
    requires |s| == 4
    ensures |r| == 4
  {
    if fmt == ChannelsLast then [s[0], th, tw, s[3]] else [s[0], s[1], th, tw]
  }

  /** The shape `numpy_image_resize` returns for an input of the given shape. The image is
      lifted to a 4-D batch, transposed into the backend's layout, resized, transposed
      back and squeezed to its original rank. A rank outside [2, 4] is refused before any
      work; formatting that error message reads an undefined name, so the exception that
      escapes is a NameError. */
  function ImageResizeShape(s: seq<nat>, th: nat, tw: nat, sourceChannelsLast: bool, fmt: ImageDataFormat)
    : (r: Result<seq<nat>>)
    ensures r.Ok? <==> 2 <= |s| <= 4
    ensures r.Err? ==> r.error == NameError
  {
    var n := |s|;
    if n < 2 || n > 4 then Err(NameError)
    else if sourceChannelsLast then
      var x := if n == 4 then s else if n == 3 then [1] + s else [1] + s + [1];
      var y := if fmt == ChannelsLast then x else Permute(x, [0, 3, 1, 2]);
      var z := ResizeSpatial(y, th, tw, fmt);
      var w := if fmt == ChannelsLast then z else Permute(z, [0, 2, 3, 1]);
      Ok(if n == 4 then w else if n == 3 then w[1..] else [w[1], w[2]])
    else
      var x := if n == 4 then s else if n == 3 then [1] + s else [1, 1] + s;
      var y := if fmt == ChannelsLast then Permute(x, [0, 2, 3, 1]) else x;
      var z := ResizeSpatial(y, th, tw, fmt);
      var w := if fmt == ChannelsLast then Permute(z, [0, 3, 1, 2]) else z;
      Ok(if n == 4 then w else if n == 3 then w[1..] else w[2..])
  }

  /** Where the two spatial axes of an image of rank n sit in the source layout. */
  function SpatialStart(n: nat, sourceChannelsLast: bool): nat
    requires 2 <= n <= 4
  {
    if sourceChannelsLast then (if n == 2 then 0 else n - 3) else n - 2
  }

  /** Whatever the backend layout, the result has the input's rank, its two spatial axes
      hold the target size and every other axis is unchanged. */
  lemma ImageResizeKeepsRank(s: seq<nat>, th: nat, tw: nat, sourceChannelsLast: bool, fmt: ImageDataFormat)
    requires 2 <= |s| <= 4
    ensures var k := SpatialStart(|s|, sourceChannelsLast);
      k + 2 <= |s| &&
      ImageResizeShape(s, th, tw, sourceChannelsLast, fmt) == Ok(s[..k] + [th, tw] + s[k + 2..])
  {
    var n := |s|;
    var r := ImageResizeShape(s, th, tw, sourceChannelsLast, fmt).value;
    if sourceChannelsLast {
      if n == 4 {
        assert r == [s[0], th, tw, s[3]];
        assert s[..1] + [th, tw] + s[3..] == r;
      } else if n == 3 {
        assert r == [th, tw, s[2]];
        assert s[..0] + [th, tw] + s[2..] == r;
      } else {
        assert r == [th, tw];
        assert s[..0] + [th, tw] + s[2..] == r;
      }
    } else {
      if n == 4 {
        assert r == [s[0], s[1], th, tw];
        assert s[..2] + [th, tw] + s[4..] == r;
      } else if n == 3 {
        assert r == [s[0], th, tw];
        assert s[..1] + [th, tw] + s[3..] == [s[0], th, tw];
      } else {
        assert r == [th, tw];
        assert s[..0] + [th, tw] + s[2..] == [th, tw];
      }
    }
  }
}
