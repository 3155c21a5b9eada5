/** The index arithmetic of the torch backend's `split`, `repeat`, `gather` and
    `unstack`. Each works on one axis; the data along that axis is a sequence, and a
    tensor is the `Tensors` model. */
module Functional {
  import opened Wrappers
  import opened PyMath
  import opened PySeq
  import opened Tensors

  /** `num_or_size_splits`: a piece count, or a list of sizes whose entries may be
      `None`. */
  datatype SplitArg = Count(k: int) | Sizes(sizes: seq<Option<int>>)

  /** `None` and -1 both read as an unknown size, written 0. */
  function NormaliseSize(d: Option<int>): int
  {
    if d.None? || d.value == -1 then 0 else d.value
  }

  /** How many entries of the argument as given are a literal 0 (`None == 0` is false). */
  function LiteralZeros(sizes: seq<Option<int>>): (z: nat)
    ensures z <= |sizes|
  {
    Occurrences(sizes, Some(0))
  }

  /** How many entries equal x. */
  function Occurrences<T(==)>(s: seq<T>, x: T): (c: nat)
    ensures c <= |s|
  {
    if s == [] then 0 else (if s[0] == x then 1 else 0) + Occurrences(s[1..], x)
  }

  /** The piece sizes `split` computes for an axis of length n. */
  function SplitSizes(n: nat, arg: SplitArg): (r: Result<seq<int>>)
    ensures arg.Count? ==> r == CountSizes(n, arg.k)
    ensures arg.Sizes? ==> r == ListSizes(n, arg.sizes)
  {
    match arg
    case Count(k) => CountSizes(n, k)
    case Sizes(sizes) => ListSizes(n, sizes)
  }

  /** An int count k gives k copies of ceil(n / k); a zero count divides by zero and a
      negative one gives no pieces. */
  function CountSizes(n: nat, k: int): (r: Result<seq<int>>)
    ensures r.Ok? <==> k != 0
    ensures k == 0 ==> r == Err(ZeroDivisionError)
    ensures k < 0 ==> r == Ok([])
    ensures k > 0 ==> r.Ok? && |r.value| == k && forall i :: 0 <= i < k ==> r.value[i] == CeilDiv(n, k)
  {
    if k == 0 then Err(ZeroDivisionError)
    else if k < 0 then Ok([])
    else Ok(SumConst(k, CeilDiv(n, k)))
  }

  /** A size list has `None` and -1 mapped to 0. Two literal zeros in the list as given
      fail the assertion; a single literal zero makes every 0 of the mapped list take
      what is left of n. */
  function ListSizes(n: nat, sizes: seq<Option<int>>): (r: Result<seq<int>>)
    ensures r.Ok? <==> LiteralZeros(sizes) < 2
    ensures r.Err? ==> r.error == AssertionError
    ensures r.Ok? ==> |r.value| == |sizes|
    ensures LiteralZeros(sizes) == 0 ==>
      r.Ok? && forall i :: 0 <= i < |sizes| ==> r.value[i] == NormaliseSize(sizes[i])
  {
    var mapped := MappedSizes(sizes);
    var zeros := LiteralZeros(sizes);
    if zeros >= 2 then Err(AssertionError)
    else if zeros == 1 then Ok(FillUnknown(mapped, n - Sum(mapped)))
    else Ok(mapped)
  }

  function MappedSizes(sizes: seq<Option<int>>): (r: seq<int>)
    ensures |r| == |sizes| && forall i :: 0 <= i < |sizes| ==> r[i] == NormaliseSize(sizes[i])
  {
    seq(|sizes|, i requires 0 <= i < |sizes| => NormaliseSize(sizes[i]))
  }

  /** Every unknown (0) size takes the value `rest`. */
  function FillUnknown(mapped: seq<int>, rest: int): (r: seq<int>)
    ensures |r| == |mapped|
    ensures forall i :: 0 <= i < |mapped| ==> r[i] == if mapped[i] == 0 then rest else mapped[i]
  {
    seq(|mapped|, i requires 0 <= i < |mapped| => if mapped[i] == 0 then rest else mapped[i])
  }

  /** The pieces: piece i is the Python slice between the sums of the sizes before it
      and up to it. */
  function SplitSeq<T>(xs: seq<T>, sizes: seq<int>): (pieces: seq<seq<T>>)
    ensures |pieces| == |sizes|
  {
    seq(|sizes|, i requires 0 <= i < |sizes| => Slice(xs, Sum(sizes[..i]), Sum(sizes[..i + 1])))
  }

  /** Pieces laid end to end. */
  function Flatten<T>(pieces: seq<seq<T>>): seq<T>
  {
    if pieces == [] then [] else Flatten(pieces[..|pieces| - 1]) + pieces[|pieces| - 1]
  }

  function Min(a: int, b: int): int { if a <= b then a else b }

  /** With sizes that are not negative the pieces are contiguous, do not overlap, start at
      0 and together hold the first Sum(sizes) elements (all of them when that reaches
      the length). */
  lemma {:induction false} SplitFlatten<T>(xs: seq<T>, sizes: seq<int>)
    requires forall i :: 0 <= i < |sizes| ==> sizes[i] >= 0
    ensures Sum(sizes) >= 0
    ensures Flatten(SplitSeq(xs, sizes)) == xs[..Min(Sum(sizes), |xs|)]
    decreases |sizes|
  {
    if sizes != [] {
      var m := |sizes| - 1;
      var front := sizes[..m];
      SplitFlatten(xs, front);
      SumPrefixStep(sizes, m);
      assert sizes[..m + 1] == sizes;
      var ps := SplitSeq(xs, sizes);
      SplitSeqPrefix(xs, sizes);
      SplitSeqLast(xs, sizes);
      SliceExtends(xs, Sum(front), Sum(sizes));
      assert Flatten(ps) == Flatten(ps[..m]) + ps[m];
    }
  }

  /** Dropping the last size drops the last piece and keeps the others. */
  lemma SplitSeqPrefix<T>(xs: seq<T>, sizes: seq<int>)
    requires |sizes| > 0
    ensures SplitSeq(xs, sizes)[..|sizes| - 1] == SplitSeq(xs, sizes[..|sizes| - 1])
  {
    var m := |sizes| - 1;
    var front := sizes[..m];
    var ps, qs := SplitSeq(xs, sizes), SplitSeq(xs, front);
    forall i | 0 <= i < m
      ensures ps[i] == qs[i]
    {
      assert sizes[..i] == front[..i] && sizes[..i + 1] == front[..i + 1];
      assert ps[i] == Slice(xs, Sum(sizes[..i]), Sum(sizes[..i + 1]));
      assert qs[i] == Slice(xs, Sum(front[..i]), Sum(front[..i + 1]));
    }
    assert |ps[..m]| == |qs|;
  }

  /** The last piece runs from the sum of the other sizes to the sum of all. */
  lemma SplitSeqLast<T>(xs: seq<T>, sizes: seq<int>)
    requires |sizes| > 0
    ensures SplitSeq(xs, sizes)[|sizes| - 1] == Slice(xs, Sum(sizes[..|sizes| - 1]), Sum(sizes))
  {
    assert sizes[..|sizes|] == sizes;
  }

  /** A prefix of the first a elements followed by the slice from a to b is the prefix of
      the first b elements. */
  lemma SliceExtends<T>(xs: seq<T>, a: int, b: int)
    requires 0 <= a <= b
    ensures xs[..Min(a, |xs|)] + Slice(xs, a, b) == xs[..Min(b, |xs|)]
  {
    if a < |xs| && a < Min(b, |xs|) {
      assert xs[..Min(a, |xs|)] + xs[a..Min(b, |xs|)] == xs[..Min(b, |xs|)];
    }
  }

  function SumConst(k: nat, s: int): (r: seq<int>)
    ensures |r| == k && forall i :: 0 <= i < k ==> r[i] == s
  {
    seq(k, _ => s)
  }

  lemma {:induction false} SumOfConst(k: nat, s: int)
    ensures Sum(SumConst(k, s)) == k * s
  {
    if k > 0 {
      SumOfConst(k - 1, s);
      assert SumConst(k, s)[1..] == SumConst(k - 1, s);
    }
  }

  lemma CeilDivNonneg(n: nat, k: int)
    requires k > 0
    ensures CeilDiv(n, k) >= 0 && CeilDiv(n, k) * k >= n
  {
  }

  /** Piece i of k equal sizes s covers [min(i * s, n), min((i + 1) * s, n)). */
  lemma SplitConstPiece<T>(xs: seq<T>, k: nat, s: nat, i: nat)
    requires i < k
    ensures var pieces := SplitSeq(xs, SumConst(k, s));
      pieces[i] == xs[Min(i * s, |xs|)..Min((i + 1) * s, |xs|)]
  {
    var sizes := SumConst(k, s);
    assert sizes[..i] == SumConst(i, s);
    assert sizes[..i + 1] == SumConst(i + 1, s);
    SumOfConst(i, s);
    SumOfConst(i + 1, s);
    assert (i + 1) * s == i * s + s;
    MulNonneg(i, s);
  }

  /** An int count k > 0 gives exactly k pieces; with s = ceil(n / k), piece i covers
      [min(i * s, n), min((i + 1) * s, n)), and together they cover the whole axis. */
  lemma SplitCount<T>(xs: seq<T>, k: int)
    requires k > 0
    ensures SplitSizes(|xs|, Count(k)).Ok?
    ensures var pieces := SplitSeq(xs, SplitSizes(|xs|, Count(k)).value);
      var s := CeilDiv(|xs|, k);
      && s >= 0
      && |pieces| == k
      && (forall i :: 0 <= i < k ==> pieces[i] == xs[Min(i * s, |xs|)..Min((i + 1) * s, |xs|)])
      && Flatten(pieces) == xs
  {
    var n := |xs|;
    var s := CeilDiv(n, k);
    CeilDivNonneg(n, k);
    var sizes := SplitSizes(n, Count(k)).value;
    forall i | 0 <= i < k
      ensures SplitSeq(xs, sizes)[i] == xs[Min(i * s, n)..Min((i + 1) * s, n)]
    {
      SplitConstPiece(xs, k, s, i);
    }
    SplitFlatten(xs, sizes);
    SumOfConst(k, s);
  }

  lemma MulNonneg(a: nat, b: nat)
    ensures a * b >= 0
  {
  }

  /** The example in the source: an axis of 5 split 3 ways gives pieces of 2, 2 and 1. */
  lemma SplitFiveThree<T>(xs: seq<T>)
    requires |xs| == 5
    ensures var pieces := SplitSeq(xs, SplitSizes(5, Count(3)).value);
      |pieces| == 3 && |pieces[0]| == 2 && |pieces[1]| == 2 && |pieces[2]| == 1
  {
    assert CeilDiv(5, 3) == 2;
    SplitCount(xs, 3);
  }

  /** A list with exactly one literal 0 and no `None` or -1 is filled so that the sizes
      add up to the axis length. */
  lemma SplitSingleZeroCovers(n: nat, sizes: seq<Option<int>>)
    requires LiteralZeros(sizes) == 1
    requires forall i :: 0 <= i < |sizes| ==> sizes[i].Some? && sizes[i].value != -1
    ensures SplitSizes(n, Sizes(sizes)).Ok?
    ensures Sum(SplitSizes(n, Sizes(sizes)).value) == n
  {
    var mapped := MappedSizes(sizes);
    var rest := n - Sum(mapped);
    ListSizesOneZero(n, sizes);
    var filled := SplitSizes(n, Sizes(sizes)).value;
    var z := FindFirst(sizes, Some(0));
    OnlyOne(sizes, Some(0), z);
    forall i | 0 <= i < |sizes|
      ensures filled[i] == mapped[z := rest][i]
    {
      if i != z {
        assert mapped[i] == sizes[i].value != 0;
      }
    }
    assert filled == mapped[z := rest];
    SumUpdate(mapped, z, rest);
  }

  /** The size list as evidently intended, following `tf.split`: `None`, -1 and 0 all
      mark the one size to infer, so the unknown count is taken on the mapped list. */
  function ListSizesIntended(n: nat, sizes: seq<Option<int>>): (r: Result<seq<int>>)
    ensures r.Ok? <==> Occurrences(MappedSizes(sizes), 0) < 2
    ensures r.Ok? ==> |r.value| == |sizes|
    ensures Occurrences(MappedSizes(sizes), 0) == 0 ==> r == Ok(MappedSizes(sizes))
  {
    var mapped := MappedSizes(sizes);
    var zeros := Occurrences(mapped, 0);
    if zeros >= 2 then Err(AssertionError)
    else if zeros == 1 then Ok(FillUnknown(mapped, n - Sum(mapped)))
    else Ok(mapped)
  }

  lemma IntendedOneUnknown(n: nat, sizes: seq<Option<int>>)
    requires Occurrences(MappedSizes(sizes), 0) == 1
    ensures ListSizesIntended(n, sizes) == Ok(FillUnknown(MappedSizes(sizes), n - Sum(MappedSizes(sizes))))
  {
  }

  /** With exactly one size to infer, whether written `None`, -1 or 0, the intended sizes
      add up to the axis length. */
  lemma IntendedSizesCover(n: nat, sizes: seq<Option<int>>)
    requires Occurrences(MappedSizes(sizes), 0) == 1
    ensures ListSizesIntended(n, sizes).Ok?
    ensures Sum(ListSizesIntended(n, sizes).value) == n
  {
    var mapped := MappedSizes(sizes);
    var rest := n - Sum(mapped);
    IntendedOneUnknown(n, sizes);
    var filled := ListSizesIntended(n, sizes).value;
    var z := FindFirst(mapped, 0);
    OnlyOne(mapped, 0, z);
    assert filled == mapped[z := rest];
    SumUpdate(mapped, z, rest);
  }

  /** `split(x, [1, -1])` as written: the -1 becomes a 0 that is never filled, because
      the unknown count looks for literal zeros only, so the second piece is empty and
      the pieces leave all but the first element out. The intended sizes are
      [1, n - 1], whose pieces cover the axis. */
  lemma SplitMinusOneAsWritten<T>(xs: seq<T>)
    requires |xs| >= 2
    ensures ListSizes(|xs|, [Some(1), Some(-1)]) == Ok([1, 0])
    ensures SplitSeq(xs, [1, 0]) == [xs[..1], []]
    ensures ListSizesIntended(|xs|, [Some(1), Some(-1)]) == Ok([1, |xs| - 1])
    ensures SplitSeq(xs, [1, |xs| - 1]) == [xs[..1], xs[1..]]
  {
    MinusOneSizes(|xs|);
    SplitTwo(xs, 1, 0);
    SplitTwo(xs, 1, |xs| - 1);
    assert Slice(xs, 0, 1) == xs[..1];
    assert Slice(xs, 1, 1) == [];
    assert Slice(xs, 1, |xs|) == xs[1..];
  }

  /** The sizes `[1, -1]` give, as written and as intended. */
  lemma MinusOneSizes(n: nat)
    requires n >= 1
    ensures ListSizes(n, [Some(1), Some(-1)]) == Ok([1, 0])
    ensures ListSizesIntended(n, [Some(1), Some(-1)]) == Ok([1, n - 1])
  {
    var sizes: seq<Option<int>> := [Some(1), Some(-1)];
    assert MappedSizes(sizes) == [1, 0];
    assert LiteralZeros(sizes) == 0 by {
      assert sizes[1..][1..] == [];
    }
    assert Occurrences([1, 0], 0) == 1 by {
      assert [1, 0][1..] == [0];
      assert [0][1..] == [];
    }
    assert Sum([1, 0]) == 1 by {
      assert [1, 0][1..] == [0];
      assert [0][1..] == [];
    }
    IntendedOneUnknown(n, sizes);
    assert FillUnknown([1, 0], n - 1) == [1, n - 1];
  }

  /** Two sizes a and b cut the pieces [0, a) and [a, a + b). */
  lemma SplitTwo<T>(xs: seq<T>, a: int, b: int)
    ensures SplitSeq(xs, [a, b]) == [Slice(xs, 0, a), Slice(xs, a, a + b)]
  {
    var s := [a, b];
    assert s[..0] == [] && s[..1] == [a] && s[..2] == s;
    assert Sum([a]) == a by {
      assert [a][1..] == [];
    }
    assert Sum(s) == a + b by {
      assert s[1..] == [b];
      assert s[1..][1..] == [];
    }
  }

  /** With exactly one literal 0, every size that reads as unknown (`None`, -1 or 0)
      becomes what the known sizes leave of the axis, and every other size is kept. */
  lemma ListSizesOneZero(n: nat, sizes: seq<Option<int>>)
    requires LiteralZeros(sizes) == 1
    ensures ListSizes(n, sizes).Ok? && |ListSizes(n, sizes).value| == |sizes|
    ensures forall i :: 0 <= i < |sizes| ==>
      ListSizes(n, sizes).value[i] ==
        if NormaliseSize(sizes[i]) == 0 then n - Sum(MappedSizes(sizes)) else NormaliseSize(sizes[i])
  {
  }

  /** The first position holding x. */
  function FindFirst<T(==)>(s: seq<T>, x: T): (z: nat)
    requires Occurrences(s, x) > 0
    ensures z < |s| && s[z] == x
  {
    if s[0] == x then 0 else 1 + FindFirst(s[1..], x)
  }

  /** An entry equal to x anywhere is counted. */
  lemma {:induction false} Counted<T>(s: seq<T>, x: T, i: nat)
    requires i < |s| && s[i] == x
    ensures Occurrences(s, x) >= 1
  {
    if i > 0 && s[0] != x {
      assert s[1..][i - 1] == s[i];
      Counted(s[1..], x, i - 1);
    }
  }

  /** When x occurs once, at z, no other entry equals x. */
  lemma {:induction false} OnlyOne<T>(s: seq<T>, x: T, z: nat)
    requires Occurrences(s, x) == 1
    requires z < |s| && s[z] == x
    ensures forall i :: 0 <= i < |s| && i != z ==> s[i] != x
  {
    if z == 0 {
      forall i | 0 < i < |s|
        ensures s[i] != x
      {
        assert s[1..][i - 1] == s[i];
        if s[i] == x {
          Counted(s[1..], x, i - 1);
        }
      }
    } else {
      assert s[1..][z - 1] == x;
      Counted(s[1..], x, z - 1);
      OnlyOne(s[1..], x, z - 1);
      forall i | 0 < i < |s| && i != z
        ensures s[i] != x
      {
        assert s[1..][i - 1] == s[i];
      }
    }
  }

  lemma {:induction false} SumUpdate(s: seq<int>, z: nat, v: int)
    requires z < |s|
    ensures Sum(s[z := v]) == Sum(s) - s[z] + v
  {
    if z == 0 {
      assert s[z := v][1..] == s[1..];
    } else {
      SumUpdate(s[1..], z - 1, v);
      assert s[z := v][1..] == s[1..][z - 1 := v];
    }
  }

  /** The axis `split` reads the size from, and the axis it slices. Only -1 is turned
      into the last axis; another negative axis is read from the end of the shape, but
      the list of leading full slices it builds is empty, so axis 0 is sliced. */
  function SplitAxis(shape: seq<nat>, axis: int): (r: Result<(nat, nat)>)
    ensures r.Ok? ==> r.value.1 < |shape|
    ensures 0 <= axis < |shape| ==> r == Ok((shape[axis], axis))
    ensures axis == -1 && |shape| > 0 ==> r == Ok((shape[|shape| - 1], |shape| - 1))
    ensures axis < -1 && -|shape| <= axis ==> r == Ok((shape[|shape| + axis], 0))
    ensures (axis >= |shape| || axis < -|shape|) ==> r == Err(IndexError)
  {
    var a := if axis == -1 then |shape| - 1 else axis;
    var size :- Index(shape, a);
    Ok((size, if a < 0 then 0 else a))
  }

  /** The shapes of the pieces `split` returns. */
  function SplitShapes(shape: seq<nat>, arg: SplitArg, axis: int): (r: Result<seq<seq<nat>>>)
    ensures r.Ok? <==> SplitAxis(shape, axis).Ok? && SplitSizes(SplitAxis(shape, axis).value.0, arg).Ok?
    ensures r.Ok? ==> forall j :: 0 <= j < |r.value| ==> |r.value[j]| == |shape|
    ensures r.Ok? ==>
      var (size, sliced) := SplitAxis(shape, axis).value;
      var sizes := SplitSizes(size, arg).value;
      && |r.value| == |sizes|
      && forall j :: 0 <= j < |sizes| ==>
        && r.value[j][sliced] == |SplitSeq(seq(shape[sliced], i => i), sizes)[j]|
        && forall d :: 0 <= d < |shape| && d != sliced ==> r.value[j][d] == shape[d]
  {
    var (size, sliced) :- SplitAxis(shape, axis);
    var sizes :- SplitSizes(size, arg);
    var axisRange := seq(shape[sliced], i => i);
    var pieces := SplitSeq(axisRange, sizes);
    Ok(seq(|pieces|, j requires 0 <= j < |pieces| => shape[sliced := |pieces[j]|]))
  }

  /** Splitting axis -2 of a [2, 6, 4] tensor in 3 reads 6 from axis 1 and slices axis 0
      into pieces of 2, 0 and 0 rows. */
  lemma SplitNegativeAxisSlicesFirst()
    ensures SplitShapes([2, 6, 4], Count(3), -2) == Ok([[2, 6, 4], [0, 6, 4], [0, 6, 4]])
  {
    var shape: seq<nat> := [2, 6, 4];
    assert SplitAxis(shape, -2) == Ok((6, 0));
    assert CeilDiv(6, 3) == 2;
    var sizes := SplitSizes(6, Count(3)).value;
    assert sizes == [2, 2, 2];
    assert sizes[..0] == [] && sizes[..1] == [2] && sizes[..2] == [2, 2] && sizes[..3] == [2, 2, 2];
    assert Sum([2]) == 2 && Sum([2, 2]) == 4 && Sum([2, 2, 2]) == 6;
    var axisRange := seq(shape[0], i => i);
    var pieces := SplitSeq(axisRange, sizes);
    assert |axisRange| == 2;
    assert |pieces[0]| == 2 && |pieces[1]| == 0 && |pieces[2]| == 0;
    var shapes := seq(|pieces|, j requires 0 <= j < |pieces| => shape[0 := |pieces[j]|]);
    assert shapes[0] == [2, 6, 4];
    assert shapes[1] == [0, 6, 4];
    assert shapes[2] == [0, 6, 4];
    assert shapes == [[2, 6, 4], [0, 6, 4], [0, 6, 4]];
  }

  /** The axis `split` evidently means, following `tf.split`: every negative axis counts
      from the end, and the axis the size is read from is the axis that is sliced. */
  function SplitAxisIntended(shape: seq<nat>, axis: int): (r: Result<(nat, nat)>)
    ensures r.Ok? <==> -|shape| <= axis < |shape|
    ensures r.Ok? ==> r.value.1 < |shape| && r.value.0 == shape[r.value.1]
    ensures r.Ok? ==> r.value.1 == if axis < 0 then |shape| + axis else axis
  {
    var a := if axis < 0 then |shape| + axis else axis;
    if 0 <= a < |shape| then Ok((shape[a], a)) else Err(IndexError)
  }

  /** The two readings agree on every axis except the negative ones below -1, where the
      written `split` slices axis 0 while reading the size of axis `rank + axis`; they
      differ exactly when that is not axis 0 itself. */
  lemma SplitAxisIntendedAgrees(shape: seq<nat>, axis: int)
    ensures axis >= -1 ==> SplitAxis(shape, axis) == SplitAxisIntended(shape, axis)
    ensures -|shape| <= axis < -1 ==>
      && SplitAxis(shape, axis).value.0 == SplitAxisIntended(shape, axis).value.0
      && SplitAxis(shape, axis).value.1 == 0
      && SplitAxisIntended(shape, axis).value.1 == |shape| + axis
    ensures -|shape| < axis < -1 ==> SplitAxis(shape, axis) != SplitAxisIntended(shape, axis)
  {
  }

  /** The class-token split of a `[batch, heads, tokens, channels]` tensor on axis -2:
      as written it reads the token count but slices the batch axis, and the sizes are
      `[1, 0]`; as intended it slices the token axis into the class token and the rest. */
  lemma ClassTokenSplit(shape: seq<nat>)
    requires |shape| == 4 && shape[2] >= 1
    ensures SplitAxis(shape, -2) == Ok((shape[2], 0))
    ensures ListSizes(shape[2], [Some(1), Some(-1)]) == Ok([1, 0])
    ensures SplitAxisIntended(shape, -2) == Ok((shape[2], 2))
    ensures ListSizesIntended(shape[2], [Some(1), Some(-1)]) == Ok([1, shape[2] - 1])
  {
    MinusOneSizes(shape[2]);
  }

  /** `tf.repeat` along one axis: each element r times in a row. */
  function RepeatEach<T>(xs: seq<T>, r: nat): seq<T>
  {
    if xs == [] then [] else seq(r, _ => xs[0]) + RepeatEach(xs[1..], r)
  }

  /** The torch backend's `repeat`: unsqueeze after the axis, expand that new axis to r
      copies and view the two axes as one. Element j of the result is copy j mod r of
      element j div r. */
  function RepeatByExpand<T>(xs: seq<T>, r: nat): (out: seq<T>)
    ensures |out| == |xs| * r
    ensures forall j :: 0 <= j < |out| ==> r > 0 && j / r < |xs| && out[j] == xs[j / r]
  {
    if r == 0 then []
    else
      RepeatIndexBounds(|xs|, r);
      seq(|xs| * r, j requires 0 <= j < |xs| * r => xs[j / r])
  }

  /** Every position of n blocks of r copies lies in one of the n blocks. */
  lemma RepeatIndexBounds(n: nat, r: nat)
    requires r > 0
    ensures forall j :: 0 <= j < n * r ==> j / r < n
  {
    forall j | 0 <= j < n * r
      ensures j / r < n
    {
      DivBelow(j, r, n);
    }
  }

  lemma DivBelow(j: nat, r: nat, n: nat)
    requires r > 0 && j < n * r
    ensures j / r < n
  {
  }

  /** Copy c of element i of `tf.repeat` sits at i * r + c. */
  lemma {:induction false} RepeatEachAt<T>(xs: seq<T>, r: nat, i: nat, c: nat)
    requires i < |xs| && c < r
    ensures |RepeatEach(xs, r)| == |xs| * r
    ensures i * r + c < |xs| * r && RepeatEach(xs, r)[i * r + c] == xs[i]
    decreases i
  {
    RepeatEachLength(xs, r);
    DivBelowMul(i, c, r, |xs|);
    if i > 0 {
      RepeatEachAt(xs[1..], r, i - 1, c);
      assert i * r + c == r + ((i - 1) * r + c);
    }
  }

  lemma {:induction false} RepeatEachLength<T>(xs: seq<T>, r: nat)
    ensures |RepeatEach(xs, r)| == |xs| * r
  {
    if xs != [] {
      RepeatEachLength(xs[1..], r);
      assert |xs| * r == r + (|xs| - 1) * r;
    }
  }

  lemma DivMod(j: nat, r: nat)
    requires r > 0
    ensures j == (j / r) * r + j % r && 0 <= j % r < r
  {
  }

  lemma DivBelowMul(i: nat, c: nat, r: nat, n: nat)
    requires i < n && c < r
    ensures i * r + c < n * r
  {
    assert i * r + c < i * r + r == (i + 1) * r <= n * r;
  }

  /** The torch construction gives the same elements as `tf.repeat`. */
  lemma RepeatMatchesTf<T>(xs: seq<T>, r: nat)
    ensures RepeatByExpand(xs, r) == RepeatEach(xs, r)
  {
    var a, b := RepeatByExpand(xs, r), RepeatEach(xs, r);
    RepeatEachLength(xs, r);
    assert |a| == |b|;
    forall j | 0 <= j < |a|
      ensures a[j] == b[j]
    {
      RepeatAtIndex(xs, r, j);
    }
  }

  lemma RepeatAtIndex<T>(xs: seq<T>, r: nat, j: nat)
    requires j < |xs| * r
    ensures j < |RepeatEach(xs, r)| && RepeatByExpand(xs, r)[j] == RepeatEach(xs, r)[j]
  {
    var i, c := j / r, j % r;
    DivMod(j, r);
    DivBelow(j, r, |xs|);
    RepeatEachAt(xs, r, i, c);
  }

  /** The shape `repeat` returns: the axis grows r-fold. The count is inserted into the
      shape given to torch's `expand`, where -1 keeps the new axis at size 1 and any other
      negative count fails. The following `view` then asks for `shape[axis] * r` entries
      along the axis: with r == -1 that is 0 when the axis is empty, a size to infer when
      it has size 1 (which fails when some other axis is empty, as any size would fit),
      and an invalid negative size otherwise. */
  function RepeatShape(shape: seq<nat>, r: int, axis: nat): (res: Result<seq<nat>>)
    requires axis < |shape|
    ensures res.Ok? <==> r >= 0 || (r == -1 && (shape[axis] == 0 || (shape[axis] == 1 && 0 !in shape)))
    ensures res.Ok? ==> |res.value| == |shape| && res.value[axis] == shape[axis] * (if r < 0 then 1 else r)
    ensures res.Ok? ==> forall d :: 0 <= d < |shape| && d != axis ==> res.value[d] == shape[d]
  {
    if r >= 0 then Ok(shape[axis := shape[axis] * r])
    else if r == -1 && shape[axis] == 0 then Ok(shape)
    else if r == -1 && shape[axis] == 1 && 0 !in shape then Ok(shape)
    else Err(RuntimeError)
  }

  /** The axis `gather` indexes: `None` means `batch_dims`, a negative axis counts from
      the end. A result still negative builds no leading full slices, so axis 0 is
      indexed. */
  function GatherAxis(rank: nat, axis: Option<int>, batchDims: int): (b: nat)
    ensures axis.None? && batchDims >= 0 ==> b == batchDims
    ensures axis.Some? && 0 <= axis.value ==> b == axis.value
    ensures axis.Some? && axis.value < 0 && rank + axis.value >= 0 ==> b == rank + axis.value
  {
    var a := if axis.None? then batchDims else if axis.value < 0 then rank + axis.value else axis.value;
    if a < 0 then 0 else a
  }

  /** Torch index lists wrap negative entries; one out of range is an IndexError. */
  function WrapIndices(n: nat, indices: seq<int>): (r: Result<seq<nat>>)
    ensures r.Ok? <==> forall i :: 0 <= i < |indices| ==> 0 <= indices[i] + n && indices[i] < n
    ensures r.Ok? ==> |r.value| == |indices| && forall i :: 0 <= i < |indices| ==>
      r.value[i] < n && (r.value[i] == indices[i] || r.value[i] == indices[i] + n)
  {
    if indices == [] then Ok([])
    else
      assert forall k :: 1 <= k < |indices| ==> indices[1..][k - 1] == indices[k];
      var w :- WrapIndex(n, indices[0]);
      var rest :- WrapIndices(n, indices[1..]);
      Ok([w] + rest)
  }

  /** One entry of a torch index list: a negative entry counts from the end. */
  function WrapIndex(n: nat, i: int): (r: Result<nat>)
    ensures r.Ok? <==> 0 <= i + n && i < n
    ensures r.Ok? ==> r.value < n && (r.value == i || r.value == i + n)
  {
    if 0 <= i < n then Ok(i as nat)
    else if i < 0 && 0 <= i + n then Ok((i + n) as nat)
    else Err(IndexError)
  }

  /** `gather(t, indices, axis, batch_dims)` with a list of indices: the indexed axis is
      replaced by one entry per index, holding the selected slice. */
  function Gather(t: Tensor, indices: seq<int>, axis: Option<int>, batchDims: int): (r: Result<Tensor>)
    ensures var b := GatherAxis(|t.shape|, axis, batchDims);
      r.Ok? <==> b < |t.shape| && forall i :: 0 <= i < |indices| ==> 0 <= indices[i] + t.shape[b] && indices[i] < t.shape[b]
    ensures var b := GatherAxis(|t.shape|, axis, batchDims);
      r.Ok? ==> r.value.shape == t.shape[..b] + [|indices|] + t.shape[b + 1..]
  {
    var b := GatherAxis(|t.shape|, axis, batchDims);
    if b >= |t.shape| then Err(IndexError)
    else
      var wrapped :- WrapIndices(t.shape[b], indices);
      Ok(GatherBy(t, b, wrapped))
  }

  /** Selecting the listed positions along axis b. */
  function GatherBy(t: Tensor, b: nat, wrapped: seq<nat>): (r: Tensor)
    requires b < |t.shape|
    ensures r.shape == t.shape[..b] + [|wrapped|] + t.shape[b + 1..]
  {
    Tensor(t.shape[..b] + [|wrapped|] + t.shape[b + 1..],
           idx => if |idx| == |t.shape| && idx[b] < |wrapped| then t.at(idx[b := wrapped[idx[b]]]) else t.at(idx))
  }

  lemma GatherByAt(t: Tensor, b: nat, wrapped: seq<nat>, q: seq<nat>)
    requires b < |t.shape|
    requires forall i :: 0 <= i < |wrapped| ==> wrapped[i] < t.shape[b]
    requires InBounds(GatherBy(t, b, wrapped).shape, q)
    ensures q[b] < |wrapped|
    ensures InBounds(t.shape, q[b := wrapped[q[b]]])
    ensures GatherBy(t, b, wrapped).at(q) == t.at(q[b := wrapped[q[b]]])
  {
    var s := GatherBy(t, b, wrapped).shape;
    assert s[b] == |wrapped|;
    forall d | 0 <= d < |q| && d != b
      ensures q[d] < t.shape[d]
    {
      assert s[d] == t.shape[d];
    }
  }

  /** Element q of the gathered tensor is the source element whose index on the gathered
      axis is the (wrapped) index listed at q's position. */
  lemma GatherAt(t: Tensor, indices: seq<int>, axis: Option<int>, batchDims: int, q: seq<nat>)
    requires Gather(t, indices, axis, batchDims).Ok?
    requires InBounds(Gather(t, indices, axis, batchDims).value.shape, q)
    ensures var b := GatherAxis(|t.shape|, axis, batchDims);
      var w := WrapIndices(t.shape[b], indices);
      && w.Ok?
      && q[b] < |indices|
      && InBounds(t.shape, q[b := w.value[q[b]]])
      && Gather(t, indices, axis, batchDims).value.at(q) == t.at(q[b := w.value[q[b]]])
  {
    var b := GatherAxis(|t.shape|, axis, batchDims);
    var w := WrapIndices(t.shape[b], indices).value;
    assert Gather(t, indices, axis, batchDims) == Ok(GatherBy(t, b, w));
    GatherByAt(t, b, w, q);
  }

  /** Wrapping every row of an index table. */
  function WrapTable(n: nat, table: seq<seq<int>>): (r: Result<seq<seq<nat>>>)
    ensures r.Ok? <==> TableInRange(n, table)
    ensures r.Ok? ==> |r.value| == |table| && forall i :: 0 <= i < |table| ==> r.value[i] == WrapIndices(n, table[i]).value
  {
    if table == [] then Ok([])
    else
      assert forall k :: 1 <= k < |table| ==> table[1..][k - 1] == table[k];
      var row :- WrapIndices(n, table[0]);
      var rest :- WrapTable(n, table[1..]);
      Ok([row] + rest)
  }

  /** `gather(t, indices, axis, batch_dims)` with a 2-D index table of `cols` columns: the
      indexed axis is replaced by the two axes of the table, and entry (i, j) holds the
      slice that `indices[i][j]` selects. */
  function GatherTable(t: Tensor, table: seq<seq<int>>, cols: nat, axis: Option<int>, batchDims: int): (r: Result<Tensor>)
    requires forall i :: 0 <= i < |table| ==> |table[i]| == cols
    ensures var b := GatherAxis(|t.shape|, axis, batchDims);
      r.Ok? <==> b < |t.shape| && TableInRange(t.shape[b], table)
    ensures var b := GatherAxis(|t.shape|, axis, batchDims);
      r.Ok? ==> r.value.shape == t.shape[..b] + [|table|, cols] + t.shape[b + 1..]
  {
    var b := GatherAxis(|t.shape|, axis, batchDims);
    if b >= |t.shape| then Err(IndexError)
    else
      var wrapped :- WrapTable(t.shape[b], table);
      Ok(GatherTableBy(t, b, wrapped, cols))
  }

  /** Every entry of the table indexes an axis of length n, counting from either end. */
  predicate TableInRange(n: nat, table: seq<seq<int>>)
  {
    forall i, j :: 0 <= i < |table| && 0 <= j < |table[i]| ==> 0 <= table[i][j] + n && table[i][j] < n
  }

  /** Selecting the tabled positions along axis b. */
  function GatherTableBy(t: Tensor, b: nat, wrapped: seq<seq<nat>>, cols: nat): (r: Tensor)
    requires b < |t.shape|
    ensures r.shape == t.shape[..b] + [|wrapped|, cols] + t.shape[b + 1..]
  {
    Tensor(t.shape[..b] + [|wrapped|, cols] + t.shape[b + 1..],
           idx => if |idx| == |t.shape| + 1 && idx[b] < |wrapped| && idx[b + 1] < |wrapped[idx[b]]|
                  then t.at(idx[..b] + [wrapped[idx[b]][idx[b + 1]]] + idx[b + 2..]) else t.at(idx))
  }

  /** Gathering with a table is gathering with each of its rows: element q of the result
      is the element of `gather(t, indices[q[b]])` found by dropping q's row position. */
  lemma GatherTableRow(t: Tensor, table: seq<seq<int>>, cols: nat, axis: Option<int>, batchDims: int, q: seq<nat>)
    requires forall i :: 0 <= i < |table| ==> |table[i]| == cols
    requires GatherTable(t, table, cols, axis, batchDims).Ok?
    requires InBounds(GatherTable(t, table, cols, axis, batchDims).value.shape, q)
    ensures var b := GatherAxis(|t.shape|, axis, batchDims);
      && q[b] < |table|
      && Gather(t, table[q[b]], axis, batchDims).Ok?
      && InBounds(Gather(t, table[q[b]], axis, batchDims).value.shape, q[..b] + q[b + 1..])
      && GatherTable(t, table, cols, axis, batchDims).value.at(q)
         == Gather(t, table[q[b]], axis, batchDims).value.at(q[..b] + q[b + 1..])
  {
    var b := GatherAxis(|t.shape|, axis, batchDims);
    var w := WrapTable(t.shape[b], table).value;
    assert GatherTable(t, table, cols, axis, batchDims) == Ok(GatherTableBy(t, b, w, cols));
    DropRowAxis(t.shape, b, |table|, cols, q);
    assert Gather(t, table[q[b]], axis, batchDims) == Ok(GatherBy(t, b, w[q[b]]));
    GatherTableByRow(t, b, w, cols, q);
  }

  /** The same on the wrapped table, once the axis is fixed. */
  lemma GatherTableByRow(t: Tensor, b: nat, w: seq<seq<nat>>, cols: nat, q: seq<nat>)
    requires b < |t.shape|
    requires forall i :: 0 <= i < |w| ==> |w[i]| == cols
    requires InBounds(t.shape[..b] + [|w|, cols] + t.shape[b + 1..], q)
    ensures q[b] < |w|
    ensures GatherTableBy(t, b, w, cols).at(q) == GatherBy(t, b, w[q[b]]).at(q[..b] + q[b + 1..])
  {
    DropRowAxis(t.shape, b, |w|, cols, q);
    var p := q[..b] + q[b + 1..];
    assert |p| == |t.shape| && p[b] < |w[q[b]]|;
    assert p[b := w[q[b]][p[b]]] == q[..b] + [w[q[b]][q[b + 1]]] + q[b + 2..];
  }

  /** Dropping the row position of an index into a shape with a table's two axes at b
      gives an index into the shape with one axis of `cols` there; putting a value back
      at b fills the place of both. */
  lemma DropRowAxis(shape: seq<nat>, b: nat, rows: nat, cols: nat, q: seq<nat>)
    requires b < |shape|
    requires InBounds(shape[..b] + [rows, cols] + shape[b + 1..], q)
    ensures q[b] < rows && q[b + 1] < cols
    ensures var p := q[..b] + q[b + 1..];
      && InBounds(shape[..b] + [cols] + shape[b + 1..], p)
      && p[b] == q[b + 1]
      && forall x :: p[b := x] == q[..b] + [x] + q[b + 2..]
  {
    var s := shape[..b] + [rows, cols] + shape[b + 1..];
    var g := shape[..b] + [cols] + shape[b + 1..];
    var p := q[..b] + q[b + 1..];
    assert s[b] == rows && s[b + 1] == cols;
    forall d | 0 <= d < |p|
      ensures p[d] < g[d]
    {
      if d < b {
        assert p[d] == q[d] && s[d] == g[d];
      } else if d > b {
        assert p[d] == q[d + 1] && s[d + 1] == g[d];
      }
    }
    forall x
      ensures p[b := x] == q[..b] + [x] + q[b + 2..]
    {
      assert q[b + 1..] == [q[b + 1]] + q[b + 2..];
    }
  }

  /** `unstack(t, axis)`: one tensor per index along the axis, in order, each with that
      axis removed. Only the count is read from the normalised axis; a result that is
      still negative again builds no leading slices and indexes axis 0, which fails when
      axis 0 is shorter than the count. */
  function Unstack(t: Tensor, axis: int): (r: Result<seq<Tensor>>)
    ensures 0 <= axis < |t.shape| ==> r.Ok? && |r.value| == t.shape[axis]
    ensures -|t.shape| <= axis < 0 ==> r.Ok? && |r.value| == t.shape[|t.shape| + axis]
    ensures r.Ok? ==> forall i :: 0 <= i < |r.value| ==>
      |r.value[i].shape| == |t.shape| - 1
  {
    var a := if axis < 0 then |t.shape| + axis else axis;
    var count :- Index(t.shape, a);
    var sliced := if a < 0 then 0 else a;
    if count > t.shape[sliced] then Err(IndexError)
    else
      Ok(seq(count, i requires 0 <= i < count =>
        Tensor(RemoveAt(t.shape, sliced),
               idx => t.at(idx[..Min(sliced, |idx|)] + [i as nat] + idx[Min(sliced, |idx|)..]))))
  }

  /** Piece i of `unstack` along an in-range axis holds the elements whose index on that
      axis is i. */
  lemma UnstackAt(t: Tensor, axis: nat, i: nat, q: seq<nat>)
    requires axis < |t.shape| && i < t.shape[axis]
    requires InBounds(RemoveAt(t.shape, axis), q)
    ensures Unstack(t, axis).Ok?
    ensures var full := q[..axis] + [i] + q[axis..];
      InBounds(t.shape, full) && Unstack(t, axis).value[i].at(q) == t.at(full)
  {
    var full := q[..axis] + [i] + q[axis..];
    forall d | 0 <= d < |full|
      ensures full[d] < t.shape[d]
    {
      if d < axis {
        assert full[d] == q[d];
      } else if d > axis {
        assert full[d] == q[d - 1];
        assert RemoveAt(t.shape, axis)[d - 1] == t.shape[d];
      }
    }
  }
}
