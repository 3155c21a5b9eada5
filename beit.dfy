/** The positional machinery of BEiT-style attention (`beit/beit.py`):
    the relative-position index table of `MultiHeadRelativePositionalEmbedding`, with its
    class-token row and column, the bookkeeping of `load_resized_weights`, the pair rotation
    of `PositionalEncodingFourierRot.call`, and the width and bias-flag rules of
    `attention_block`. The sin/cos tables and the bilinear resize are floating-point work;
    they enter as parameters. */
module Beit {
  import opened Wrappers
  import opened PyMath
  import opened PySeq
  import opened Functional
  import opened Tensors

  /** Tokens in front of the grid: the class token. */
  function ClsTokenLen(withClsToken: bool): nat
  {
    if withClsToken then 1 else 0
  }

  /** Extra relative distances for the class token: to it, from it, and itself. */
  function ClsTokenPosLen(withClsToken: bool): nat
  {
    if withClsToken then 3 else 0
  }

  /** `(height, width)` of the attention grid holding `blocks` tokens: a square when
      `attn_height` is -1, else `attn_height` rows of `int(float(blocks) / attn_height)`. */
  function GridShape(attnHeight: int, blocks: int): (r: Result<(int, int)>)
    ensures attnHeight == -1 ==> (r.Ok? <==> blocks >= 0)
    ensures attnHeight == -1 && r.Ok? ==>
      r.value.0 == r.value.1 && r.value.0 >= 0 &&
      r.value.0 * r.value.0 <= blocks < (r.value.0 + 1) * (r.value.0 + 1)
    ensures attnHeight != -1 ==> (r.Ok? <==> attnHeight != 0)
    ensures attnHeight > 0 && blocks >= 0 ==> r == Ok((attnHeight, blocks / attnHeight))
  {
    if attnHeight == -1 then
      var side :- FloatSqrtFloor(blocks);
      Ok((side, side))
    else
      var width :- FloatDivTrunc(blocks, attnHeight);
      Ok((attnHeight, width))
  }

  /** `num_relative_distance`: every (row, column) offset on an h x w grid, plus the
      class-token entries. */
  function NumRelativeDistance(h: int, w: int, withClsToken: bool): int
  {
    (2 * h - 1) * (2 * w - 1) + ClsTokenPosLen(withClsToken)
  }

  /** Flat positions of `np.meshgrid(range(h), range(w))`: an empty range gives none. */
  function GridPositions(h: int, w: int): nat
  {
    if h > 0 && w > 0 then h * w else 0
  }

  /** The coordinate pair of flat position k. The 'xy' meshgrid makes the height
      coordinate vary fastest. */
  function Coord(h: int, k: nat): (int, int)
    requires h > 0
  {
    (k % h, k / h)
  }

  /** Coordinate difference between positions p and q. */
  function Offset(h: int, p: nat, q: nat): (int, int)
    requires h > 0
  {
    (Coord(h, p).0 - Coord(h, q).0, Coord(h, p).1 - Coord(h, q).1)
  }

  /** The table entry for query position p and key position q: both offsets shifted to
      be non-negative, the width offset scaled by the number of height offsets. */
  function GridIndex(h: int, w: int, p: nat, q: nat): int
    requires h > 0
  {
    var d := Offset(h, p, q);
    (d.0 + h - 1) + (d.1 + w - 1) * (2 * h - 1)
  }

  lemma MixedRadixUnique(a1: int, b1: int, a2: int, b2: int, m: int)
    requires 0 <= a1 < m && 0 <= a2 < m
    requires a1 + b1 * m == a2 + b2 * m
    ensures a1 == a2 && b1 == b2
  {
    assert (b1 - b2) * m == a2 - a1;
    MulSmall(b1 - b2, m);
  }

  lemma CoordBounds(h: int, w: int, k: nat)
    requires h > 0 && w > 0 && k < h * w
    ensures 0 <= Coord(h, k).0 < h && 0 <= Coord(h, k).1 < w
  {
    DivBelow(k, h, w);
  }

  lemma MixedRadixBelow(a: int, b: int, m: int, n: int)
    requires 0 <= a < m && 0 <= b < n
    ensures 0 <= a + b * m < m * n
  {
    DivBelowMul(b, a, m, n);
    MulNonneg(b, m);
  }

  /** Every grid entry selects one of the (2h-1)(2w-1) relative distances. */
  lemma GridIndexRange(h: int, w: int, p: nat, q: nat)
    requires h > 0 && w > 0 && p < h * w && q < h * w
    ensures 0 <= GridIndex(h, w, p, q) < (2 * h - 1) * (2 * w - 1)
  {
    CoordBounds(h, w, p);
    CoordBounds(h, w, q);
    var d := Offset(h, p, q);
    MixedRadixBelow(d.0 + h - 1, d.1 + w - 1, 2 * h - 1, 2 * w - 1);
  }

  /** Two pairs of positions share a table entry exactly when their coordinate
      differences agree: the bias depends on the relative position and nothing else. */
  lemma GridIndexRelative(h: int, w: int, p1: nat, q1: nat, p2: nat, q2: nat)
    requires h > 0 && w > 0
    requires p1 < h * w && q1 < h * w && p2 < h * w && q2 < h * w
    ensures GridIndex(h, w, p1, q1) == GridIndex(h, w, p2, q2) <==> Offset(h, p1, q1) == Offset(h, p2, q2)
  {
    if GridIndex(h, w, p1, q1) == GridIndex(h, w, p2, q2) {
      MixedRadixUnique(Offset(h, p1, q1).0 + h - 1, Offset(h, p1, q1).1 + w - 1,
                       Offset(h, p2, q2).0 + h - 1, Offset(h, p2, q2).1 + w - 1, 2 * h - 1);
    }
  }

  /** The key positions kept when the key length differs from the query length:
      `[:, -(key_len - cls_len):]`, a suffix of the n positions. A zero count reads as
      `-0`, which keeps every column. */
  function KeptColumns(n: nat, queryLen: int, keyLen: int, clsLen: nat): (cols: seq<nat>)
    ensures |cols| <= n
    ensures forall j :: 0 <= j < |cols| ==> cols[j] == n - |cols| + j
    ensures keyLen == queryLen ==> |cols| == n
    ensures keyLen != queryLen && 0 < keyLen - clsLen <= n ==> |cols| == keyLen - clsLen
    ensures keyLen != queryLen && keyLen - clsLen == 0 ==> |cols| == n
  {
    var all: seq<nat> := seq(n, j requires 0 <= j < n => j);
    if keyLen == queryLen then all
    else
      var kept := SliceFrom(all, -(keyLen - clsLen));
      assert kept == all[n - |kept|..] by {
        var lo := ClampIndex(-(keyLen - clsLen), n);
        if lo < n {
          assert kept == all[lo..n];
        }
      }
      kept
  }

  /** The grid part of the table: row i, column j holds the entry for query position i
      and kept key position `cols[j]`. */
  function GridTable(h: int, w: int, cols: seq<nat>): (g: seq<seq<int>>)
    ensures |g| == GridPositions(h, w)
    ensures forall i :: 0 <= i < |g| ==> |g[i]| == |cols|
  {
    var n := GridPositions(h, w);
    seq(n, i requires 0 <= i < n =>
      seq(|cols|, j requires 0 <= j < |cols| => GridIndex(h, w, i, cols[j])))
  }

  /** `relative_position_index` as `build` leaves it: the grid entries for the kept
      columns, then, with a class token, a top row and a left column in front. */
  function PositionIndex(h: int, w: int, withClsToken: bool, queryLen: int, keyLen: int): (t: seq<seq<int>>)
    ensures |t| == GridPositions(h, w) + ClsTokenLen(withClsToken)
    ensures forall i :: 0 <= i < |t| ==>
      |t[i]| == |KeptColumns(GridPositions(h, w), queryLen, keyLen, ClsTokenLen(withClsToken))| + ClsTokenLen(withClsToken)
  {
    var cols := KeptColumns(GridPositions(h, w), queryLen, keyLen, ClsTokenLen(withClsToken));
    var grid := GridTable(h, w, cols);
    if withClsToken then
      var nr := NumRelativeDistance(h, w, withClsToken);
      [[nr - 1] + seq(|cols|, _ => nr - 3)] + seq(|grid|, i requires 0 <= i < |grid| => [nr - 2] + grid[i])
    else grid
  }

  /** The entries: the grid entry for every query position and kept key position, and,
      with a class token, N-1 in the corner, N-3 along the top row and N-2 down the left
      column, N being `num_relative_distance`. */
  lemma PositionIndexEntries(h: int, w: int, withClsToken: bool, queryLen: int, keyLen: int)
    ensures var t := PositionIndex(h, w, withClsToken, queryLen, keyLen);
      var cols := KeptColumns(GridPositions(h, w), queryLen, keyLen, ClsTokenLen(withClsToken));
      var c := ClsTokenLen(withClsToken);
      forall i, j :: 0 <= i < GridPositions(h, w) && 0 <= j < |cols| ==>
        h > 0 && t[i + c][j + c] == GridIndex(h, w, i, cols[j])
    ensures var t := PositionIndex(h, w, withClsToken, queryLen, keyLen);
      var nr := NumRelativeDistance(h, w, withClsToken);
      withClsToken ==>
        t[0][0] == nr - 1 &&
        (forall j :: 1 <= j < |t[0]| ==> t[0][j] == nr - 3) &&
        (forall i :: 1 <= i < |t| ==> t[i][0] == nr - 2)
  {
    PositionIndexGrid(h, w, withClsToken, queryLen, keyLen);
    if withClsToken {
      PositionIndexBorder(h, w, queryLen, keyLen);
    }
  }

  lemma PositionIndexGrid(h: int, w: int, withClsToken: bool, queryLen: int, keyLen: int)
    ensures var t := PositionIndex(h, w, withClsToken, queryLen, keyLen);
      var cols := KeptColumns(GridPositions(h, w), queryLen, keyLen, ClsTokenLen(withClsToken));
      var c := ClsTokenLen(withClsToken);
      forall i, j :: 0 <= i < GridPositions(h, w) && 0 <= j < |cols| ==>
        h > 0 && t[i + c][j + c] == GridIndex(h, w, i, cols[j])
  {
    var t := PositionIndex(h, w, withClsToken, queryLen, keyLen);
    var cols := KeptColumns(GridPositions(h, w), queryLen, keyLen, ClsTokenLen(withClsToken));
    var grid := GridTable(h, w, cols);
    var c := ClsTokenLen(withClsToken);
    forall i, j | 0 <= i < GridPositions(h, w) && 0 <= j < |cols|
      ensures h > 0 && t[i + c][j + c] == GridIndex(h, w, i, cols[j])
    {
      if withClsToken {
        assert t[i + 1] == [NumRelativeDistance(h, w, true) - 2] + grid[i];
      }
      assert t[i + c][j + c] == grid[i][j];
    }
  }

  lemma PositionIndexBorder(h: int, w: int, queryLen: int, keyLen: int)
    ensures var t := PositionIndex(h, w, true, queryLen, keyLen);
      var nr := NumRelativeDistance(h, w, true);
      t[0][0] == nr - 1 &&
      (forall j :: 1 <= j < |t[0]| ==> t[0][j] == nr - 3) &&
      (forall i :: 1 <= i < |t| ==> t[i][0] == nr - 2)
  {
    var t := PositionIndex(h, w, true, queryLen, keyLen);
    var cols := KeptColumns(GridPositions(h, w), queryLen, keyLen, 1);
    var nr := NumRelativeDistance(h, w, true);
    assert t[0] == [nr - 1] + seq(|cols|, _ => nr - 3);
  }

  /** Every entry selects a column of the bias table, so `gather` never leaves it. */
  lemma PositionIndexInRange(h: int, w: int, withClsToken: bool, queryLen: int, keyLen: int, i: nat, j: nat)
    requires h > 0 && w > 0
    requires var t := PositionIndex(h, w, withClsToken, queryLen, keyLen); i < |t| && j < |t[i]|
    ensures 0 <= PositionIndex(h, w, withClsToken, queryLen, keyLen)[i][j] < NumRelativeDistance(h, w, withClsToken)
  {
    var t := PositionIndex(h, w, withClsToken, queryLen, keyLen);
    var c := ClsTokenLen(withClsToken);
    var cols := KeptColumns(GridPositions(h, w), queryLen, keyLen, c);
    PositionIndexEntries(h, w, withClsToken, queryLen, keyLen);
    MulNonneg(2 * h - 1, 2 * w - 1);
    if i >= c && j >= c {
      GridIndexRange(h, w, i - c, cols[j - c]);
      assert t[(i - c) + c][(j - c) + c] == GridIndex(h, w, i - c, cols[j - c]);
    }
  }

  /** With the query length equal to the grid plus the class token and the key length
      at most that, the gathered bias has the shape of the attention scores it is added
      to: one row per query, one column per key. */
  lemma PositionIndexMatchesScores(h: int, w: int, withClsToken: bool, queryLen: int, keyLen: int)
    requires h > 0 && w > 0
    requires queryLen == h * w + ClsTokenLen(withClsToken)
    requires ClsTokenLen(withClsToken) < keyLen <= queryLen
    ensures |PositionIndex(h, w, withClsToken, queryLen, keyLen)| == queryLen
    ensures forall i :: 0 <= i < queryLen ==> |PositionIndex(h, w, withClsToken, queryLen, keyLen)[i]| == keyLen
  {
  }

  /** `call` gathers the `(heads, num_relative_distance)` bias table along axis 1 with the
      index table: the gather succeeds and gives one `(queries, keys)` bias per head, the
      shape of the attention scores it is added to. */
  lemma GatheredBiasShape(h: int, w: int, withClsToken: bool, queryLen: int, keyLen: int, bias: Tensor)
    requires h > 0 && w > 0
    requires queryLen == h * w + ClsTokenLen(withClsToken)
    requires ClsTokenLen(withClsToken) < keyLen <= queryLen
    requires |bias.shape| == 2 && bias.shape[1] == NumRelativeDistance(h, w, withClsToken)
    ensures var g := GatherTable(bias, PositionIndex(h, w, withClsToken, queryLen, keyLen), keyLen, Some(1), 0);
      g.Ok? && g.value.shape == [bias.shape[0], queryLen, keyLen]
  {
    var t := PositionIndex(h, w, withClsToken, queryLen, keyLen);
    PositionIndexMatchesScores(h, w, withClsToken, queryLen, keyLen);
    forall i, j | 0 <= i < |t| && 0 <= j < keyLen
      ensures 0 <= t[i][j] < bias.shape[1]
    {
      PositionIndexInRange(h, w, withClsToken, queryLen, keyLen, i, j);
    }
  }

  /** What `build` produces from `attn_shape = [batch, heads, queries, keys]`. */
  datatype Built = Built(heads: int, numRelativeDistance: int, index: seq<seq<int>>)

  function BuildTables(withClsToken: bool, attnHeight: int, numHeads: int, attnShape: seq<int>): (r: Result<Built>)
    requires |attnShape| == 4
    ensures var g := GridShape(attnHeight, attnShape[2] - ClsTokenLen(withClsToken));
      g.Err? ==> r == Err(g.error)
    ensures r.Ok? ==>
      var (h, w) := GridShape(attnHeight, attnShape[2] - ClsTokenLen(withClsToken)).value;
      r.value.heads == (if numHeads == -1 then attnShape[1] else numHeads) &&
      r.value.heads >= 0 &&
      r.value.numRelativeDistance == NumRelativeDistance(h, w, withClsToken) >= 0 &&
      r.value.index == PositionIndex(h, w, withClsToken, attnShape[2], attnShape[3])
  {
    var (h, w) :- GridShape(attnHeight, attnShape[2] - ClsTokenLen(withClsToken));
    var heads := if numHeads == -1 then attnShape[1] else numHeads;
    var nr := NumRelativeDistance(h, w, withClsToken);
    if heads < 0 || nr < 0 then Err(ValueError)
    else Ok(Built(heads, nr, PositionIndex(h, w, withClsToken, attnShape[2], attnShape[3])))
  }

  function Zeros(rows: nat, cols: nat): (z: seq<seq<real>>)
    ensures |z| == rows && forall i :: 0 <= i < rows ==> |z[i]| == cols
  {
    seq(rows, _ => seq(cols, _ => 0.0))
  }

  /** `numpy_image_resize` applied to one head: a row-major h x w grid resized to a
      th x tw grid. Bilinear interpolation is floating-point work, so it is a parameter. */
  type Resize = (seq<real>, nat, nat, int, int) -> seq<real>

  /** Side of the square grid held in source rows of `width` entries. */
  function SourceSide(width: nat, withClsToken: bool): Result<nat>
  {
    FloatSqrtFloor(width - ClsTokenPosLen(withClsToken))
  }

  /** Target grid for a bias table of `tableWidth` columns. */
  function TargetGrid(attnHeight: int, tableWidth: int, withClsToken: bool): Result<(int, int)>
  {
    if attnHeight == -1 then
      var side :- FloatSqrtFloor(tableWidth - ClsTokenPosLen(withClsToken));
      Ok((side, side))
    else
      var th := 2 * attnHeight - 1;
      var tw :- FloatDivTrunc(tableWidth - ClsTokenPosLen(withClsToken), th);
      Ok((th, tw))
  }

  /** The table `load_resized_weights` hands to `set_weights`: per head, the leading
      square grid of the source row resized to the target grid, followed, with a class
      token, by the source row's last three entries. */
  function ResizedTable(withClsToken: bool, attnHeight: int, tableWidth: int,
                        source: seq<seq<real>>, width: nat, resize: Resize): (r: Result<seq<seq<real>>>)
    requires forall i :: 0 <= i < |source| ==> |source[i]| == width
    ensures r.Ok? <==> SourceSide(width, withClsToken).Ok? && TargetGrid(attnHeight, tableWidth, withClsToken).Ok?
    ensures r.Ok? ==> |r.value| == |source|
  {
    var s :- SourceSide(width, withClsToken);
    var target :- TargetGrid(attnHeight, tableWidth, withClsToken);
    Ok(seq(|source|, i requires 0 <= i < |source| =>
      resize(source[i][..s * s], s, s, target.0, target.1) +
      (if withClsToken then SliceFrom(source[i], -3) else [])))
  }

  /** Each head's new row: its resized grid, then the source row's own class-token
      entries (its last three), which are carried over unresized. */
  lemma ResizedRows(withClsToken: bool, attnHeight: int, tableWidth: int,
                    source: seq<seq<real>>, width: nat, resize: Resize, i: nat)
    requires forall i :: 0 <= i < |source| ==> |source[i]| == width
    requires ResizedTable(withClsToken, attnHeight, tableWidth, source, width, resize).Ok? && i < |source|
    ensures var s := SourceSide(width, withClsToken).value;
      var target := TargetGrid(attnHeight, tableWidth, withClsToken).value;
      var p := ClsTokenPosLen(withClsToken);
      s * s + p <= width &&
      ResizedTable(withClsToken, attnHeight, tableWidth, source, width, resize).value[i] ==
        resize(source[i][..s * s], s, s, target.0, target.1) + source[i][width - p..]
  {
    var s := SourceSide(width, withClsToken).value;
    var target := TargetGrid(attnHeight, tableWidth, withClsToken).value;
    var p := ClsTokenPosLen(withClsToken);
    var t := ResizedTable(withClsToken, attnHeight, tableWidth, source, width, resize).value;
    assert s * s <= width - p;
    var tail := if withClsToken then SliceFrom(source[i], -3) else [];
    assert t[i] == resize(source[i][..s * s], s, s, target.0, target.1) + tail;
    assert tail == source[i][width - p..];
  }

  /** `set_weights` accepts only a table of the stored shape. */
  predicate ShapeIs(t: seq<seq<real>>, rows: nat, cols: int)
  {
    |t| == rows && forall i :: 0 <= i < |t| ==> |t[i]| == cols
  }

  /** `MultiHeadRelativePositionalEmbedding`: a learned bias per head and per relative
      distance, gathered through a fixed index table. */
  class RelativePositionalEmbedding {
    const withClsToken: bool
    const attnHeight: int
    const numHeads: int
    /** Whether `build` has run. */
    var built: bool
    /** `relative_position_bias_table.shape[1]`. */
    var tableWidth: int
    /** `relative_position_bias_table`, one row per head. */
    var biasTable: seq<seq<real>>
    /** `relative_position_index`. */
    var positionIndex: seq<seq<int>>

    ghost predicate Valid()
      reads this
    {
      built ==> tableWidth >= 0 && ShapeIs(biasTable, |biasTable|, tableWidth)
    }

    constructor(withClsToken: bool, attnHeight: int, numHeads: int)
      ensures this.withClsToken == withClsToken && this.attnHeight == attnHeight && this.numHeads == numHeads
      ensures !built && Valid()
    {
      this.withClsToken := withClsToken;
      this.attnHeight := attnHeight;
      this.numHeads := numHeads;
      built := false;
      tableWidth := 0;
      biasTable := [];
      positionIndex := [];
    }

    /** `build`: a zero bias table of `(heads, num_relative_distance)` and the index table. */
    method Build(attnShape: seq<int>) returns (err: Option<PyError>)
      requires |attnShape| == 4 && Valid()
      modifies this
      ensures Valid()
      ensures var b := BuildTables(withClsToken, attnHeight, numHeads, attnShape);
        (b.Err? ==> err == Some(b.error) && unchanged(this)) &&
        (b.Ok? ==> err.None? && built && tableWidth == b.value.numRelativeDistance &&
                   biasTable == Zeros(b.value.heads, b.value.numRelativeDistance) &&
                   positionIndex == b.value.index)
    {
      var b := BuildTables(withClsToken, attnHeight, numHeads, attnShape);
      if b.Err? {
        return Some(b.error);
      }
      built := true;
      tableWidth := b.value.numRelativeDistance;
      biasTable := Zeros(b.value.heads, b.value.numRelativeDistance);
      positionIndex := b.value.index;
      err := None;
    }

    /** `load_resized_weights`, from a source table of `width` columns. The head count is
        kept: `set_weights` refuses a table of another shape. */
    method LoadResizedWeights(source: seq<seq<real>>, width: nat, resize: Resize) returns (err: Option<PyError>)
      requires built && Valid()
      requires forall i :: 0 <= i < |source| ==> |source[i]| == width
      modifies this
      ensures Valid() && built
      ensures tableWidth == old(tableWidth) && positionIndex == old(positionIndex)
      ensures var t := ResizedTable(withClsToken, attnHeight, old(tableWidth), source, width, resize);
        (t.Err? ==> err == Some(t.error) && biasTable == old(biasTable)) &&
        (t.Ok? && !ShapeIs(t.value, |old(biasTable)|, old(tableWidth)) ==>
           err == Some(ValueError) && biasTable == old(biasTable)) &&
        (t.Ok? && ShapeIs(t.value, |old(biasTable)|, old(tableWidth)) ==> err.None? && biasTable == t.value)
      ensures |biasTable| == |old(biasTable)|
    {
      var t := ResizedTable(withClsToken, attnHeight, tableWidth, source, width, resize);
      if t.Err? {
        return Some(t.error);
      }
      if !ShapeIs(t.value, |biasTable|, tableWidth) {
        return Some(ValueError);
      }
      biasTable := t.value;
      err := None;
    }
  }

  /** `rot(x)`: each channel pair (x[2i], x[2i+1]) becomes (-x[2i+1], x[2i]). */
  function Rotate(x: seq<real>): (r: seq<real>)
    requires |x| % 2 == 0
    ensures |r| == |x|
    ensures forall i :: 0 <= i < |x| / 2 ==> r[2 * i] == -x[2 * i + 1] && r[2 * i + 1] == x[2 * i]
  {
    seq(|x|, c requires 0 <= c < |x| => if c % 2 == 0 then -x[c + 1] else x[c - 1])
  }

  function Negate(x: seq<real>): (r: seq<real>)
  {
    seq(|x|, c requires 0 <= c < |x| => -x[c])
  }

  /** A quarter turn per pair: rotating twice negates. */
  lemma RotateTwiceNegates(x: seq<real>)
    requires |x| % 2 == 0
    ensures Rotate(Rotate(x)) == Negate(x)
  {
    var r := Rotate(x);
    forall c | 0 <= c < |x|
      ensures Rotate(r)[c] == -x[c]
    {
      if c % 2 == 0 {
        assert r[c + 1] == x[c];
      } else {
        assert r[c - 1] == -x[c];
      }
    }
  }

  function SumSquares(x: seq<real>): real
  {
    if x == [] then 0.0 else x[0] * x[0] + SumSquares(x[1..])
  }

  lemma SumSquaresPair(x: seq<real>)
    requires |x| >= 2
    ensures SumSquares(x) == x[0] * x[0] + x[1] * x[1] + SumSquares(x[2..])
  {
    var y := x[1..];
    assert y[1..] == x[2..];
    assert SumSquares(y) == y[0] * y[0] + SumSquares(y[1..]);
    assert SumSquares(x) == x[0] * x[0] + SumSquares(y);
  }

  /** The rotation keeps every pair's length, so it keeps the sum of squares. */
  lemma {:induction false} RotatePreservesSquares(x: seq<real>)
    requires |x| % 2 == 0
    ensures SumSquares(Rotate(x)) == SumSquares(x)
    decreases |x|
  {
    if x != [] {
      var r := Rotate(x);
      assert r[2..] == Rotate(x[2..]);
      RotatePreservesSquares(x[2..]);
      SumSquaresPair(r);
      SumSquaresPair(x);
    }
  }

  /** `x * cos + rot(x) * sin` for one token. */
  function ApplyRotary(x: seq<real>, cos: seq<real>, sin: seq<real>): (r: seq<real>)
    requires |x| % 2 == 0 && |cos| == |x| && |sin| == |x|
    ensures |r| == |x|
  {
    var rx := Rotate(x);
    seq(|x|, c requires 0 <= c < |x| => x[c] * cos[c] + rx[c] * sin[c])
  }

  /** The grid tokens line up with the sin/cos tables, all with the same even width. */
  predicate Conforms(body: seq<seq<real>>, cos: seq<seq<real>>, sin: seq<seq<real>>, channels: nat)
  {
    channels % 2 == 0 && |cos| == |body| && |sin| == |body| &&
    forall i :: 0 <= i < |body| ==> |body[i]| == channels && |cos[i]| == channels && |sin[i]| == channels
  }

  /** The grid tokens rotated against the tables; a shape mismatch fails to reshape or
      to broadcast. */
  function Rotated(body: seq<seq<real>>, cos: seq<seq<real>>, sin: seq<seq<real>>, channels: nat): (r: Result<seq<seq<real>>>)
    ensures r.Ok? <==> Conforms(body, cos, sin, channels)
    ensures r.Ok? ==> |r.value| == |body|
    ensures r.Ok? ==> forall i :: 0 <= i < |body| ==> r.value[i] == ApplyRotary(body[i], cos[i], sin[i])
  {
    if !Conforms(body, cos, sin, channels) then Err(ValueError)
    else Ok(seq(|body|, i requires 0 <= i < |body| => ApplyRotary(body[i], cos[i], sin[i])))
  }

  /** `PositionalEncodingFourierRot.call` on the tokens of one head: the class token, when
      present, is split off the token axis as `[1, -1]` (with the split's intended axis and
      sizes, see `ClassTokenSplit`), the grid tokens are rotated, and the class token is put
      back in front. */
  function RotaryCall(withClsToken: bool, tokens: seq<seq<real>>, cos: seq<seq<real>>,
                      sin: seq<seq<real>>, channels: nat): (r: Result<seq<seq<real>>>)
    ensures !withClsToken ==> (r.Ok? <==> Conforms(tokens, cos, sin, channels))
    ensures withClsToken ==> (r.Ok? <==> tokens != [] && Conforms(tokens[1..], cos, sin, channels))
    ensures r.Ok? ==> |r.value| == |tokens|
    ensures r.Ok? && withClsToken ==> r.value[0] == tokens[0]
  {
    if !withClsToken then Rotated(tokens, cos, sin, channels)
    else if tokens == [] then Err(ValueError)
    else
      MinusOneSizes(|tokens|);
      SplitTwo(tokens, 1, |tokens| - 1);
      assert Slice(tokens, 0, 1) == [tokens[0]] && Slice(tokens, 1, |tokens|) == tokens[1..];
      var sizes := ListSizesIntended(|tokens|, [Some(1), Some(-1)]).value;
      var pieces := SplitSeq(tokens, sizes);
      var out :- Rotated(pieces[1], cos, sin, channels);
      Ok(pieces[0] + out)
  }

  /** The class token passes through untouched and each grid token is rotated against
      its own row of the tables. */
  lemma RotaryKeepsClassToken(tokens: seq<seq<real>>, cos: seq<seq<real>>, sin: seq<seq<real>>, channels: nat)
    requires |tokens| >= 2
    ensures RotaryCall(true, tokens, cos, sin, channels).Ok? <==> Conforms(tokens[1..], cos, sin, channels)
    ensures RotaryCall(true, tokens, cos, sin, channels).Ok? ==>
      var out := RotaryCall(true, tokens, cos, sin, channels).value;
      |out| == |tokens| && out[0] == tokens[0] &&
      forall i :: 1 <= i < |tokens| ==> out[i] == ApplyRotary(tokens[i], cos[i - 1], sin[i - 1])
  {
    var body := tokens[1..];
    assert forall i :: 1 <= i < |tokens| ==> body[i - 1] == tokens[i];
    RotaryCallSplitsClassToken(tokens, cos, sin, channels);
    var o := Rotated(body, cos, sin, channels);
    if o.Ok? {
      var out := [tokens[0]] + o.value;
      forall i | 1 <= i < |tokens|
        ensures out[i] == ApplyRotary(tokens[i], cos[i - 1], sin[i - 1])
      {
        ConsIndex(tokens[0], o.value, i);
      }
    }
  }

  /** With a class token, the call rotates the tokens after the first and puts the first
      back in front. */
  lemma RotaryCallSplitsClassToken(tokens: seq<seq<real>>, cos: seq<seq<real>>, sin: seq<seq<real>>, channels: nat)
    requires |tokens| >= 2
    ensures var o := Rotated(tokens[1..], cos, sin, channels);
      RotaryCall(true, tokens, cos, sin, channels) == if o.Err? then Err(ValueError) else Ok([tokens[0]] + o.value)
  {
    SplitMinusOneAsWritten(tokens);
    var pieces := SplitSeq(tokens, [1, |tokens| - 1]);
    assert pieces[0] == [tokens[0]];
  }

  /** `attention_block`'s per-head width: the given `key_dim`, else channels floor-divided
      by the head count. */
  function AttentionKeyDim(keyDim: int, channels: int, numHeads: int): (r: Result<int>)
    ensures keyDim > 0 ==> r == Ok(keyDim)
    ensures keyDim <= 0 ==> (r.Ok? <==> numHeads != 0)
    ensures keyDim <= 0 && numHeads > 0 ==>
      r.value * numHeads <= channels < (r.value + 1) * numHeads
  {
    if keyDim > 0 then Ok(keyDim)
    else if numHeads == 0 then Err(ZeroDivisionError)
    else Ok(FloorDiv(channels, numHeads))
  }

  /** `(qkv_bias, qv_bias)` after `attention_block` settles them: a bias on the fused
      projection replaces the separate query/value biases. */
  function AttentionBiasFlags(qkvBias: bool, qvBias: bool): (r: (bool, bool))
    ensures r.0 == qkvBias
    ensures r.1 <==> !qkvBias && qvBias
    ensures !(r.0 && r.1)
  {
    if qkvBias then (true, false) else (false, qvBias)
  }
}
