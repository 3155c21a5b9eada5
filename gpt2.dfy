/** GPT-2 (`gpt2/gpt2.py`): the causal mask and the positional index fed to the model,
    the token generation loop of `RunPrediction` (context crop, top-k masking, one token
    per step), and the grouping of a HuggingFace state dict by layer in
    `load_weights_from_huggingface`. The network itself, the tokenizer, softmax and the
    random draw are outside the model: the logits and the draw are parameters. */
module Gpt2 {
  import opened Wrappers
  import opened PySeq
  import opened OrderedDicts
  import opened Tensors

  /** The additive mask value for a future position, `-1e10`. */
  const MaskFill: real := -10000000000.0

  function Min(a: int, b: int): int
  {
    if a <= b then a else b
  }

  /** `np.tri(n)[i][j]`: one on and below the diagonal, zero above. */
  function Tri(i: nat, j: nat): real
  {
    if j <= i then 1.0 else 0.0
  }

  /** `CausalMask.build`: `(1 - np.tri(block_size)) * -1e10`. */
  function CausalMaskTable(blockSize: nat): (m: seq<seq<real>>)
    ensures |m| == blockSize
    ensures forall i :: 0 <= i < blockSize ==> |m[i]| == blockSize
    ensures forall i, j :: 0 <= i < blockSize && 0 <= j < blockSize ==>
      m[i][j] == (if j <= i then 0.0 else MaskFill)
  {
    seq(blockSize, i requires 0 <= i < blockSize =>
      seq(blockSize, j requires 0 <= j < blockSize => (1.0 - Tri(i, j)) * MaskFill))
  }

  /** numpy broadcasting along one axis: the sizes agree or one side is 1. */
  predicate Broadcasts(maskDim: int, dim: int)
  {
    maskDim == dim || maskDim == 1 || dim == 1
  }

  /** The size the two sides broadcast to: the other side's size where one side is 1
      (so a side of 1 against a side of 0 gives 0). */
  function BroadcastSize(maskDim: nat, dim: nat): (n: nat)
    requires Broadcasts(maskDim, dim)
    ensures maskDim == 1 ==> n == dim
    ensures dim == 1 ==> n == maskDim
    ensures maskDim == dim ==> n == dim
  {
    if maskDim == 1 then dim else maskDim
  }

  /** `CausalMask.call` on one head's `q x k` scores: the mask's top-left corner, cut to
      at most `block_size` each way, is added with numpy broadcasting. A side of 1 is
      repeated, on either operand; with a block size of 0 the cut mask is empty and a
      single score row or column broadcasts to nothing. */
  function CausalMaskCall(blockSize: nat, scores: seq<seq<real>>, keys: nat): (r: Result<seq<seq<real>>>)
    requires forall i :: 0 <= i < |scores| ==> |scores[i]| == keys
    ensures r.Ok? <==> Broadcasts(Min(|scores|, blockSize), |scores|) && Broadcasts(Min(keys, blockSize), keys)
    ensures r.Ok? ==> |r.value| == (if blockSize == 0 then 0 else |scores|)
    ensures r.Ok? ==> forall i :: 0 <= i < |r.value| ==> |r.value[i]| == (if blockSize == 0 then 0 else keys)
  {
    var m := CausalMaskTable(blockSize);
    var q: nat := Min(|scores|, blockSize);
    var k: nat := Min(keys, blockSize);
    if !(Broadcasts(q, |scores|) && Broadcasts(k, keys)) then Err(ValueError)
    else
      var rows := BroadcastSize(q, |scores|);
      var cols := BroadcastSize(k, keys);
      Ok(seq(rows, i requires 0 <= i < rows =>
        seq(cols, j requires 0 <= j < cols =>
          scores[if |scores| == 1 then 0 else i][if keys == 1 then 0 else j]
            + m[if q == 1 then 0 else i][if k == 1 then 0 else j])))
  }

  /** With a block size of 0 the cut mask is empty: one score row (or column) broadcasts
      against it to an empty result, and more than one fails to broadcast. */
  lemma EmptyBlockBroadcasts(scores: seq<seq<real>>, keys: nat)
    requires forall i :: 0 <= i < |scores| ==> |scores[i]| == keys
    ensures CausalMaskCall(0, scores, keys).Ok? <==> |scores| <= 1 && keys <= 1
    ensures CausalMaskCall(0, scores, keys).Ok? ==> CausalMaskCall(0, scores, keys).value == []
  {
  }

  /** Within the block, scores at or before the query position are unchanged and later
      ones are pushed down by 1e10. */
  lemma CausalMaskCallEntries(blockSize: nat, scores: seq<seq<real>>, keys: nat, i: nat, j: nat)
    requires forall i :: 0 <= i < |scores| ==> |scores[i]| == keys
    requires |scores| <= blockSize && keys <= blockSize
    requires i < |scores| && j < keys
    ensures CausalMaskCall(blockSize, scores, keys).Ok?
    ensures j <= i ==> CausalMaskCall(blockSize, scores, keys).value[i][j] == scores[i][j]
    ensures j > i ==> CausalMaskCall(blockSize, scores, keys).value[i][j] == scores[i][j] + MaskFill
  {
    var m := CausalMaskTable(blockSize);
    var q := Min(|scores|, blockSize);
    var k := Min(keys, blockSize);
    var ii := if q == 1 then 0 else i;
    var jj := if k == 1 then 0 else j;
    assert ii == i && jj == j;
    assert CausalMaskCall(blockSize, scores, keys).value[i][j] == scores[i][j] + m[i][j];
  }

  /** `PositionalIndex.call`: `pos_idx[:, :L]` of `arange(block_size)`. */
  function PositionalIndexCall(blockSize: nat, len: nat): (r: seq<int>)
    ensures |r| == Min(len, blockSize)
    ensures forall i :: 0 <= i < |r| ==> r[i] == i
  {
    var posIdx: seq<int> := seq(blockSize, i requires 0 <= i < blockSize => i);
    var r := Slice(posIdx, 0, len);
    assert r == posIdx[..Min(len, blockSize)];
    r
  }

  /** `idx_cond`: the whole sequence when it fits the block, else its last
      `max_block_size` tokens. With a block size of 0 the slice `[-0:]` keeps all. */
  function Context(idx: seq<int>, maxBlockSize: nat): (c: seq<int>)
    ensures |idx| <= maxBlockSize ==> c == idx
    ensures |idx| > maxBlockSize > 0 ==> c == idx[|idx| - maxBlockSize..]
    ensures maxBlockSize == 0 ==> c == idx
  {
    if |idx| <= maxBlockSize then idx else SliceFrom(idx, -(maxBlockSize as int))
  }

  /** The model never sees more than a block: the context is a suffix of the tokens and
      at most `max_block_size` long. */
  lemma ContextFitsBlock(idx: seq<int>, maxBlockSize: nat)
    requires maxBlockSize > 0
    ensures |Context(idx, maxBlockSize)| <= maxBlockSize
    ensures Context(idx, maxBlockSize) == idx[|idx| - |Context(idx, maxBlockSize)|..]
  {
  }

  /** A logit, or the `-inf` written over a masked one. */
  datatype Logit = Finite(v: real) | NegInf

  predicate Sorted(s: seq<real>)
  {
    forall i, j :: 0 <= i <= j < |s| ==> s[i] <= s[j]
  }

  function InsertSorted(s: seq<real>, x: real): (r: seq<real>)
    requires Sorted(s)
    ensures Sorted(r) && |r| == |s| + 1
    ensures multiset(r) == multiset(s) + multiset{x}
  {
    if s == [] || x <= s[0] then [x] + s
    else
      var rest := InsertSorted(s[1..], x);
      InsertBehindHead(s, x, rest);
      [s[0]] + rest
  }

  /** Putting the head in front of the tail with x inserted keeps the order and gives
      the values of s and x. */
  lemma InsertBehindHead(s: seq<real>, x: real, rest: seq<real>)
    requires Sorted(s) && s != [] && s[0] < x
    requires Sorted(rest) && multiset(rest) == multiset(s[1..]) + multiset{x}
    ensures Sorted([s[0]] + rest) && multiset([s[0]] + rest) == multiset(s) + multiset{x}
  {
    assert s == [s[0]] + s[1..];
    forall j | 0 <= j < |rest|
      ensures s[0] <= rest[j]
    {
      assert rest[j] in multiset(rest);
      if rest[j] != x {
        assert rest[j] in multiset(s[1..]);
      }
    }
  }

  /** `np.sort`: ascending, the same values. */
  function SortAsc(s: seq<real>): (r: seq<real>)
    ensures Sorted(r) && |r| == |s| && multiset(r) == multiset(s)
  {
    if s == [] then []
    else
      var n := |s| - 1;
      assert s == s[..n] + [s[n]];
      InsertSorted(SortAsc(s[..n]), s[n])
  }

  /** `np.sort(logits)[-threshold_pos]` with `threshold_pos = min(top_k, vocab_size)`: the
      pos-th largest logit. Python's negative index rules apply, so `top_k = 0` reads
      index 0, the smallest. */
  function TopKThreshold(logits: seq<real>, topK: int): (r: Result<real>)
    ensures r.Ok? <==> -|logits| <= -Min(topK, |logits|) < |logits|
    ensures r.Err? ==> r.error == IndexError
  {
    Index(SortAsc(logits), -Min(topK, |logits|))
  }

  /** `logits[logits < threshold] = -inf`. */
  function MaskBelowSpec(ls: seq<Logit>, threshold: real): (r: seq<Logit>)
    ensures |r| == |ls|
  {
    seq(|ls|, i requires 0 <= i < |ls| => if ls[i].NegInf? || ls[i].v < threshold then NegInf else ls[i])
  }

  function Lift(logits: seq<real>): (r: seq<Logit>)
    ensures |r| == |logits| && forall i :: 0 <= i < |logits| ==> r[i] == Finite(logits[i])
  {
    seq(|logits|, i requires 0 <= i < |logits| => Finite(logits[i]))
  }

  /** The logits after the optional top-k step. */
  function TopKMasked(logits: seq<real>, topK: Option<int>): (r: Result<seq<Logit>>)
    ensures topK.None? ==> r == Ok(Lift(logits))
    ensures topK.Some? ==> (r.Ok? <==> TopKThreshold(logits, topK.value).Ok?)
  {
    if topK.None? then Ok(Lift(logits))
    else
      var t :- TopKThreshold(logits, topK.value);
      Ok(MaskBelowSpec(Lift(logits), t))
  }

  /** The in-place masking statement. */
  method MaskBelow(logits: array<Logit>, threshold: real)
    modifies logits
    ensures logits[..] == MaskBelowSpec(old(logits[..]), threshold)
  {
    ghost var spec := MaskBelowSpec(old(logits[..]), threshold);
    var i := 0;
    while i < logits.Length
      invariant 0 <= i <= logits.Length
      invariant forall k :: 0 <= k < i ==> logits[k] == spec[k]
      invariant forall k :: i <= k < logits.Length ==> logits[k] == old(logits[k])
    {
      if logits[i].NegInf? || logits[i].v < threshold {
        logits[i] := NegInf;
      }
      i := i + 1;
    }
    assert logits[..] == spec;
  }

  function CountAtLeast(s: seq<real>, t: real): nat
  {
    if s == [] then 0 else (if s[0] >= t then 1 else 0) + CountAtLeast(s[1..], t)
  }

  lemma {:induction false} CountAppend(a: seq<real>, b: seq<real>, t: real)
    ensures CountAtLeast(a + b, t) == CountAtLeast(a, t) + CountAtLeast(b, t)
  {
    if a == [] {
      assert a + b == b;
    } else {
      assert (a + b)[1..] == a[1..] + b;
      CountAppend(a[1..], b, t);
    }
  }

  lemma {:induction false} CountInsert(s: seq<real>, x: real, t: real)
    requires Sorted(s)
    ensures CountAtLeast(InsertSorted(s, x), t) == CountAtLeast(s, t) + (if x >= t then 1 else 0)
  {
    if s == [] || x <= s[0] {
      assert ([x] + s)[1..] == s;
    } else {
      CountInsert(s[1..], x, t);
      assert ([s[0]] + InsertSorted(s[1..], x))[1..] == InsertSorted(s[1..], x);
    }
  }

  /** Sorting does not change how many logits reach a threshold. */
  lemma {:induction false} CountSort(s: seq<real>, t: real)
    ensures CountAtLeast(SortAsc(s), t) == CountAtLeast(s, t)
  {
    if s != [] {
      var n := |s| - 1;
      PrefixSnoc(s, |s|);
      assert s[..n] + [s[n]] == s;
      var sorted := SortAsc(s[..n]);
      assert SortAsc(s) == InsertSorted(sorted, s[n]);
      CountSort(s[..n], t);
      CountInsert(sorted, s[n], t);
      CountAppend(s[..n], [s[n]], t);
      assert CountAtLeast([s[n]], t) == if s[n] >= t then 1 else 0;
    }
  }

  lemma {:induction false} CountAll(s: seq<real>, t: real)
    requires forall i :: 0 <= i < |s| ==> s[i] >= t
    ensures CountAtLeast(s, t) == |s|
  {
    if s != [] {
      CountAll(s[1..], t);
    }
  }

  /** With 1 <= top_k, at least min(top_k, vocab) logits reach the threshold. */
  lemma ThresholdCount(logits: seq<real>, topK: int)
    requires topK >= 1 && |logits| >= 1
    ensures TopKThreshold(logits, topK).Ok?
    ensures CountAtLeast(logits, TopKThreshold(logits, topK).value) >= Min(topK, |logits|)
  {
    var s := SortAsc(logits);
    var m := |logits| - Min(topK, |logits|);
    var t := TopKThreshold(logits, topK).value;
    assert t == s[m];
    SortedSuffixCount(s, m);
    CountSort(logits, t);
  }

  /** In a sorted sequence, the entries from position m on all reach s[m]. */
  lemma SortedSuffixCount(s: seq<real>, m: nat)
    requires Sorted(s) && m < |s|
    ensures CountAtLeast(s, s[m]) >= |s| - m
  {
    var t := s[m];
    var tail := s[m..];
    assert forall i :: 0 <= i < |tail| ==> tail[i] == s[m + i];
    CountAll(tail, t);
    CountAppend(s[..m], tail, t);
    assert s[..m] + tail == s;
  }

  /** Top-k with 1 <= top_k: at least min(top_k, vocab) logits survive, exactly those
      below the threshold are masked, and the survivors keep their values. */
  lemma TopKKeepsAtLeast(logits: seq<real>, topK: int)
    requires topK >= 1 && |logits| >= 1
    ensures TopKThreshold(logits, topK).Ok?
    ensures var t := TopKThreshold(logits, topK).value;
      var masked := TopKMasked(logits, Some(topK)).value;
      CountAtLeast(logits, t) >= Min(topK, |logits|) &&
      (forall i :: 0 <= i < |logits| ==> (masked[i] == NegInf <==> logits[i] < t)) &&
      (forall i :: 0 <= i < |logits| && masked[i] != NegInf ==> masked[i] == Finite(logits[i]))
  {
    ThresholdCount(logits, topK);
    var t := TopKThreshold(logits, topK).value;
    var lifted := Lift(logits);
    var masked := MaskBelowSpec(lifted, t);
    assert TopKMasked(logits, Some(topK)) == Ok(masked);
    forall i | 0 <= i < |logits|
      ensures (masked[i] == NegInf <==> logits[i] < t) && (masked[i] != NegInf ==> masked[i] == Finite(logits[i]))
    {
      assert lifted[i] == Finite(logits[i]);
    }
  }

  /** As written, `top_k = 0` reads the smallest logit as the threshold, so nothing is
      masked. */
  lemma TopKZeroMasksNothing(logits: seq<real>)
    requires |logits| >= 1
    ensures TopKMasked(logits, Some(0)) == Ok(Lift(logits))
  {
    var s := SortAsc(logits);
    var t := TopKThreshold(logits, 0).value;
    assert t == s[0];
    forall i | 0 <= i < |logits|
      ensures logits[i] >= t
    {
      assert logits[i] in multiset(s);
    }
    assert MaskBelowSpec(Lift(logits), t) == Lift(logits);
  }

  /** The logits of the last position for a context, as the network computes them. */
  type Model = seq<int> -> seq<real>
  /** The random draw of step `n` from the masked logits. */
  type Sampler = (nat, seq<Logit>) -> int

  /** The token chosen at step `step` after the tokens `idx`. */
  function NextToken(idx: seq<int>, step: nat, maxBlockSize: nat, topK: Option<int>,
                     model: Model, sample: Sampler): Result<int>
  {
    var masked :- TopKMasked(model(Context(idx, maxBlockSize)), topK);
    Ok(sample(step, masked))
  }

  /** One step of the sampling loop: the logits of the cropped context, masked below the
      k-th largest when `top_k` is given, and the token drawn from them. */
  method DrawToken(tokens: seq<int>, step: nat, maxBlockSize: nat, topK: Option<int>,
                   model: Model, sample: Sampler) returns (r: Result<int>)
    ensures r == NextToken(tokens, step, maxBlockSize, topK, model, sample)
    ensures r.Err? ==> topK.Some? && r.error == IndexError
  {
    var logits := model(Context(tokens, maxBlockSize));
    var masked := Lift(logits);
    if topK.Some? {
      var t := TopKThreshold(logits, topK.value);
      if t.Err? {
        return Err(t.error);
      }
      var a := new Logit[|logits|](i requires 0 <= i < |logits| => Finite(logits[i]));
      assert a[..] == Lift(logits);
      MaskBelow(a, t.value);
      masked := a[..];
    }
    return Ok(sample(step, masked));
  }

  /** `tokens` extends `start`, and each token after `start` is the one drawn at its step
      from the tokens before it. */
  ghost predicate Drawn(start: seq<int>, tokens: seq<int>, maxBlockSize: nat, topK: Option<int>,
                        model: Model, sample: Sampler)
  {
    && |start| <= |tokens| && tokens[..|start|] == start
    && forall s :: |start| <= s < |tokens| ==>
         NextToken(tokens[..s], s - |start|, maxBlockSize, topK, model, sample) == Ok(tokens[s])
  }

  /** Appending the token drawn at the next step keeps the tokens drawn. */
  lemma DrawnSnoc(start: seq<int>, tokens: seq<int>, x: int, maxBlockSize: nat, topK: Option<int>,
                  model: Model, sample: Sampler)
    requires Drawn(start, tokens, maxBlockSize, topK, model, sample)
    requires NextToken(tokens, |tokens| - |start|, maxBlockSize, topK, model, sample) == Ok(x)
    ensures Drawn(start, tokens + [x], maxBlockSize, topK, model, sample)
  {
    var ext := tokens + [x];
    assert ext[..|tokens|] == tokens;
    forall s | |start| <= s < |ext|
      ensures NextToken(ext[..s], s - |start|, maxBlockSize, topK, model, sample) == Ok(ext[s])
    {
      if s < |tokens| {
        assert ext[..s] == tokens[..s];
      }
    }
    assert ext[..|start|] == tokens[..|start|];
  }

  /** One sample of `RunPrediction.__call__`: `max_new_tokens` steps, each appending the
      token drawn from the masked logits of the cropped context. */
  method Generate(start: seq<int>, maxNewTokens: nat, maxBlockSize: nat, topK: Option<int>,
                  model: Model, sample: Sampler) returns (r: Result<seq<int>>)
    ensures r.Ok? ==> |r.value| == |start| + maxNewTokens
    ensures r.Ok? ==> Drawn(start, r.value, maxBlockSize, topK, model, sample)
    ensures r.Err? ==> topK.Some? && r.error == IndexError
  {
    var tokens := start;
    var step := 0;
    assert tokens[..|start|] == start;
    while step < maxNewTokens
      invariant 0 <= step <= maxNewTokens
      invariant |tokens| == |start| + step
      invariant Drawn(start, tokens, maxBlockSize, topK, model, sample)
    {
      var next := DrawToken(tokens, step, maxBlockSize, topK, model, sample);
      if next.Err? {
        return Err(next.error);
      }
      DrawnSnoc(start, tokens, next.value, maxBlockSize, topK, model, sample);
      tokens := tokens + [next.value];
      step := step + 1;
    }
    return Ok(tokens);
  }

  /** `model_type_map`: the HuggingFace checkpoint for each GPT-2 size. */
  function ModelType(name: string): (r: Option<string>)
    ensures r.Some? <==> name in {"gpt2_base", "gpt2_medium", "gpt2_large", "gpt2_xlarge"}
  {
    if name == "gpt2_base" then Some("gpt2")
    else if name == "gpt2_medium" then Some("gpt2-medium")
    else if name == "gpt2_large" then Some("gpt2-large")
    else if name == "gpt2_xlarge" then Some("gpt2-xl")
    else None
  }

  /** Buffers of the HuggingFace model that are not weights. */
  predicate DroppedKey(kk: string)
  {
    EndsWith(kk, ".attn.bias") || EndsWith(kk, ".attn.masked_bias") || EndsWith(kk, ".num_batches_tracked")
  }

  /** `".".join(kk.split(".")[:-1])`. */
  function LayerName(kk: string): string
  {
    var parts := SplitOn(kk, '.');
    Join(parts[..|parts| - 1], '.')
  }

  /** The layer name is everything before the last ".", and empty for a name without one. */
  lemma LayerNameBeforeLastDot(kk: string)
    ensures '.' !in kk ==> LayerName(kk) == ""
    ensures '.' in kk ==>
      var parts := SplitOn(kk, '.');
      '.' !in parts[|parts| - 1] && LayerName(kk) + ['.'] + parts[|parts| - 1] == kk
  {
    var parts := SplitOn(kk, '.');
    var m := |parts| - 1;
    if '.' in kk {
      assert parts == parts[..m] + [parts[m]];
      JoinConcat(parts[..m], [parts[m]], '.');
      JoinSplit(kk, '.');
    }
  }

  /** `stacked_state_dict` after the given entries: each kept weight is appended to the
      list of its layer. */
  function HfGroups(items: seq<(string, Tensor)>): (d: ODict<string, seq<Tensor>>)
    ensures Valid(d)
  {
    if items == [] then Empty()
    else
      var n := |items| - 1;
      var d := HfGroups(items[..n]);
      if DroppedKey(items[n].0) then d else AppendTo(d, LayerName(items[n].0), items[n].1)
  }

  /** The loop over `source_state_dict.items()`. */
  method StackStateDict(items: seq<(string, Tensor)>) returns (d: ODict<string, seq<Tensor>>)
    ensures d == HfGroups(items)
  {
    d := Empty();
    var i := 0;
    while i < |items|
      invariant 0 <= i <= |items|
      invariant d == HfGroups(items[..i])
    {
      assert items[..i + 1][..i] == items[..i];
      if !DroppedKey(items[i].0) {
        d := AppendTo(d, LayerName(items[i].0), items[i].1);
      }
      i := i + 1;
    }
    assert items[..i] == items;
  }

  /** The layer of every kept entry, in source order. */
  function KeptLayers(items: seq<(string, Tensor)>): seq<string>
  {
    if items == [] then []
    else
      var n := |items| - 1;
      KeptLayers(items[..n]) + (if DroppedKey(items[n].0) then [] else [LayerName(items[n].0)])
  }

  /** The groups come in order of first appearance of their layer. */
  lemma {:induction false} HfGroupOrder(items: seq<(string, Tensor)>)
    ensures HfGroups(items).keys == Dedup(KeptLayers(items))
  {
    if items != [] {
      var n := |items| - 1;
      HfGroupOrder(items[..n]);
      var front := KeptLayers(items[..n]);
      assert forall k :: k in HfGroups(items[..n]).keys <==> k in front;
      if !DroppedKey(items[n].0) {
        DedupAppend(front, LayerName(items[n].0));
      } else {
        assert KeptLayers(items) == front;
      }
    }
  }

  /** The kept weights of one layer, in source order. */
  function LayerWeights(items: seq<(string, Tensor)>, layer: string): seq<Tensor>
  {
    if items == [] then []
    else
      var n := |items| - 1;
      LayerWeights(items[..n], layer) +
        (if !DroppedKey(items[n].0) && LayerName(items[n].0) == layer then [items[n].1] else [])
  }

  /** Each group holds exactly its layer's kept weights, in source order. */
  lemma {:induction false} HfGroupContents(items: seq<(string, Tensor)>, layer: string)
    ensures layer in HfGroups(items).vals ==> HfGroups(items).vals[layer] == LayerWeights(items, layer)
    ensures layer !in HfGroups(items).vals ==> LayerWeights(items, layer) == []
  {
    if items != [] {
      var n := |items| - 1;
      HfGroupContents(items[..n], layer);
    }
  }

  /** `stacked_state_dict["lm_head"] = [ii.T for ii in ...]`; a state dict without an
      `lm_head` group raises KeyError. */
  function TransposeLmHead(d: ODict<string, seq<Tensor>>): (r: Result<ODict<string, seq<Tensor>>>)
    requires Valid(d)
    ensures r.Ok? <==> "lm_head" in d.vals
    ensures r.Err? ==> r.error == KeyError
    ensures r.Ok? ==> Valid(r.value) && r.value.keys == d.keys
    ensures r.Ok? ==> forall k :: k in d.vals && k != "lm_head" ==> k in r.value.vals && r.value.vals[k] == d.vals[k]
    ensures r.Ok? ==> |r.value.vals["lm_head"]| == |d.vals["lm_head"]|
    ensures r.Ok? ==> forall i :: 0 <= i < |d.vals["lm_head"]| ==>
      r.value.vals["lm_head"][i] == T(d.vals["lm_head"][i])
  {
    if "lm_head" !in d.vals then Err(KeyError)
    else
      var g := d.vals["lm_head"];
      Ok(Put(d, "lm_head", seq(|g|, i requires 0 <= i < |g| => T(g[i]))))
  }

  /** `zip(target_names, stacked_state_dict.keys())`: the i-th layer with weights gets the
      i-th group, and the longer list is cut. */
  function Pairing(targetNames: seq<string>, d: ODict<string, seq<Tensor>>): (r: seq<(string, seq<Tensor>)>)
    requires Valid(d)
    ensures |r| == Min(|targetNames|, |d.keys|)
    ensures forall i :: 0 <= i < |r| ==> r[i].0 == targetNames[i] && r[i].1 == d.vals[d.keys[i]]
  {
    var n := Min(|targetNames|, |d.keys|);
    seq(n, i requires 0 <= i < n => (targetNames[i], d.vals[d.keys[i]]))
  }

  /** What `load_weights_from_huggingface` does. */
  datatype HfOutcome =
    | NoPretrained
    | LoadSaved(saveName: string)
    | Converted(assignments: seq<(string, seq<Tensor>)>, saveName: string)

  /** `load_weights_from_huggingface`. Whether a saved file exists and the downloaded
      state dict are parameters: both come from outside the program. */
  function LoadWeightsFromHuggingface(name: string, saveName: Option<string>, force: bool, savedExists: bool,
                                      fetch: string -> seq<(string, Tensor)>, targetNames: seq<string>)
    : (r: Result<HfOutcome>)
    ensures ModelType(name).None? ==> r == Ok(NoPretrained)
    ensures ModelType(name).Some? && !force && savedExists ==> r.Ok? && r.value.LoadSaved?
    ensures r.Ok? && !r.value.NoPretrained? ==>
      r.value.saveName == (if saveName.Some? then saveName.value else name + "_huggingface.h5")
    ensures ModelType(name).Some? && (force || !savedExists) ==>
      var groups := HfGroups(fetch(ModelType(name).value));
      (r.Ok? <==> "lm_head" in groups.vals) &&
      (r.Ok? ==> r.value.Converted? &&
                 r.value.assignments == Pairing(targetNames, TransposeLmHead(groups).value))
  {
    var modelType := ModelType(name);
    if modelType.None? then Ok(NoPretrained)
    else
      var file := if saveName.Some? then saveName.value else name + "_huggingface.h5";
      if !force && savedExists then Ok(LoadSaved(file))
      else
        var groups := TransposeLmHead(HfGroups(fetch(modelType.value)));
        if groups.Err? then Err(groups.error)
        else Ok(Converted(Pairing(targetNames, groups.value), file))
  }
}
