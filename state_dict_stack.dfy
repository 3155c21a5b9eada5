/** `state_dict_stack_by_layer`: a PyTorch-style state dict, an ordered list of
    (weight name, value) pairs, is regrouped into one list of values per layer. The layer
    of a weight is its name without the last component; a weight whose last component is
    listed as skipped is dropped, and one listed as unstacked gets a list of its own under
    its full name. */
module StateDictStack {
  import opened Wrappers
  import opened PySeq
  import opened OrderedDicts

  /** Where one entry of the state dict goes. */
  datatype Target = Skipped | Unstacked(key: string) | Grouped(layer: string)

  /** A Keras weight name ends in ":N", which is cut off. `kk[-2]` on a name shorter than
      two characters is an IndexError. */
  function StripIndexSuffix(kk: string): (r: Result<string>)
    ensures r.Ok? <==> |kk| >= 2
    ensures r.Ok? && kk[|kk| - 2] == ':' ==> r.value + kk[|kk| - 2..] == kk
    ensures r.Ok? && kk[|kk| - 2] != ':' ==> r.value == kk
  {
    if |kk| < 2 then Err(IndexError)
    else if kk[|kk| - 2] == ':' then Ok(kk[..|kk| - 2])
    else Ok(kk)
  }

  /** Names with a "/" are Keras names; the others are torch names split on ".". */
  function SplitToken(kk: string): (c: char)
    ensures c == '/' || c == '.'
    ensures c == '.' ==> '/' !in kk
  {
    if '/' in kk then '/' else '.'
  }

  /** The layer part and the last component of a (suffix-free) weight name. */
  function LayerAndLeaf(k: string): (r: (string, string))
  {
    var c := SplitToken(k);
    var parts := SplitOn(k, c);
    (Join(parts[..|parts| - 1], c), parts[|parts| - 1])
  }

  /** When the name holds its separator, layer, separator and last component spell the
      name again, and the last component holds no separator. */
  lemma LayerAndLeafRebuild(k: string)
    requires SplitToken(k) in k
    ensures var (layer, leaf) := LayerAndLeaf(k);
      SplitToken(k) !in leaf && layer + [SplitToken(k)] + leaf == k
  {
    var c := SplitToken(k);
    var parts := SplitOn(k, c);
    var m := |parts| - 1;
    assert parts == parts[..m] + [parts[m]];
    JoinConcat(parts[..m], [parts[m]], c);
    JoinSplit(k, c);
  }

  /** Where the entry named kk goes. */
  function Classify(kk: string, skip: seq<string>, unstack: seq<string>): (r: Result<Target>)
    ensures r.Ok? <==> |kk| >= 2
    ensures r.Ok? ==> var k := StripIndexSuffix(kk).value;
      var (layer, leaf) := LayerAndLeaf(k);
      && (r.value.Skipped? <==> leaf in skip)
      && (r.value.Unstacked? <==> leaf !in skip && leaf in unstack)
      && (r.value.Unstacked? ==> r.value.key == k)
      && (r.value.Grouped? ==> r.value.layer == layer)
  {
    var k :- StripIndexSuffix(kk);
    var (layer, leaf) := LayerAndLeaf(k);
    if leaf in skip then Ok(Skipped)
    else if leaf in unstack then Ok(Unstacked(k))
    else Ok(Grouped(layer))
  }

  /** One iteration of the loop: nothing, `d[kk] = [vv]`, or
      `d.setdefault(layer, []).append(vv)`. */
  function Step<W>(d: ODict<string, seq<W>>, t: Target, v: W): (r: ODict<string, seq<W>>)
    requires Valid(d)
    ensures Valid(r)
  {
    match t
    case Skipped => d
    case Unstacked(k) => Put(d, k, [v])
    case Grouped(layer) => AppendTo(d, layer, v)
  }

  /** The dict after processing the given entries in order; the first badly formed name
      stops the loop with its IndexError. */
  function Stack<W>(items: seq<(string, W)>, skip: seq<string>, unstack: seq<string>)
    : (r: Result<ODict<string, seq<W>>>)
    ensures r.Ok? ==> Valid(r.value)
    ensures r.Ok? <==> forall i :: 0 <= i < |items| ==> |items[i].0| >= 2
    ensures r.Err? ==> r.error == IndexError
  {
    if items == [] then Ok(Empty())
    else
      var n := |items| - 1;
      NamesSnoc(items);
      var d :- Stack(items[..n], skip, unstack);
      var t :- Classify(items[n].0, skip, unstack);
      Ok(Step(d, t, items[n].1))
  }

  /** Every name is long enough exactly when every name but the last is, and the last is. */
  lemma NamesSnoc<W>(items: seq<(string, W)>)
    requires items != []
    ensures var n := |items| - 1;
      (forall i :: 0 <= i < |items| ==> |items[i].0| >= 2)
        <==> (forall i :: 0 <= i < n ==> |items[..n][i].0| >= 2) && |items[n].0| >= 2
  {
    var n := |items| - 1;
    assert forall i :: 0 <= i < n ==> items[..n][i] == items[i];
  }

  /** The loop of `state_dict_stack_by_layer`. */
  method StateDictStackByLayer<W>(items: seq<(string, W)>, skip: seq<string>, unstack: seq<string>)
    returns (r: Result<ODict<string, seq<W>>>)
    ensures r == Stack(items, skip, unstack)
  {
    var d := Empty();
    var i := 0;
    while i < |items|
      invariant 0 <= i <= |items|
      invariant Stack(items[..i], skip, unstack) == Ok(d)
    {
      assert items[..i + 1][..i] == items[..i];
      var t := Classify(items[i].0, skip, unstack);
      if t.Err? {
        StackErrorPersists(items, i + 1, skip, unstack);
        return Err(t.error);
      }
      d := Step(d, t.value, items[i].1);
      i := i + 1;
    }
    assert items[..i] == items;
    return Ok(d);
  }

  /** Once a prefix fails, the whole dict fails the same way. */
  lemma StackErrorPersists<W>(items: seq<(string, W)>, i: nat, skip: seq<string>, unstack: seq<string>)
    requires i <= |items|
    requires Stack(items[..i], skip, unstack).Err?
    ensures Stack(items, skip, unstack) == Stack(items[..i], skip, unstack)
  {
  }

  /** The keys each processed entry writes to, in order; skipped entries write nothing. */
  function TargetKeys<W>(items: seq<(string, W)>, skip: seq<string>, unstack: seq<string>): seq<string>
    requires forall i :: 0 <= i < |items| ==> |items[i].0| >= 2
  {
    if items == [] then []
    else
      var n := |items| - 1;
      var front := TargetKeys(items[..n], skip, unstack);
      match Classify(items[n].0, skip, unstack).value
      case Skipped => front
      case Unstacked(k) => front + [k]
      case Grouped(layer) => front + [layer]
  }

  /** The output keys are the written keys in order of first occurrence. */
  lemma {:induction false} StackKeyOrder<W>(items: seq<(string, W)>, skip: seq<string>, unstack: seq<string>)
    requires Stack(items, skip, unstack).Ok?
    ensures Stack(items, skip, unstack).value.keys == Dedup(TargetKeys(items, skip, unstack))
  {
    if items != [] {
      var n := |items| - 1;
      StackKeyOrder(items[..n], skip, unstack);
      var d := Stack(items[..n], skip, unstack).value;
      var front := TargetKeys(items[..n], skip, unstack);
      assert forall k :: k in d.keys <==> k in front;
      match Classify(items[n].0, skip, unstack).value
      case Skipped =>
      case Unstacked(k) =>
        DedupAppend(front, k);
      case Grouped(layer) =>
        DedupAppend(front, layer);
    }
  }

  /** The values of the entries grouped under `layer`, in source order. */
  function GroupOf<W>(items: seq<(string, W)>, skip: seq<string>, unstack: seq<string>, layer: string): seq<W>
    requires forall i :: 0 <= i < |items| ==> |items[i].0| >= 2
  {
    if items == [] then []
    else
      var n := |items| - 1;
      var front := GroupOf(items[..n], skip, unstack, layer);
      if Classify(items[n].0, skip, unstack).value == Grouped(layer) then front + [items[n].1] else front
  }

  /** When no unstacked entry has the layer's name as its full key, the layer's list holds
      the values of its weights in source order, and nothing else. */
  lemma {:induction false} StackGroups<W>(items: seq<(string, W)>, skip: seq<string>, unstack: seq<string>, layer: string)
    requires Stack(items, skip, unstack).Ok?
    requires forall i :: 0 <= i < |items| ==> Classify(items[i].0, skip, unstack).value != Unstacked(layer)
    requires layer in Stack(items, skip, unstack).value.vals
    ensures Stack(items, skip, unstack).value.vals[layer] == GroupOf(items, skip, unstack, layer)
  {
    var n := |items| - 1;
    var d := Stack(items[..n], skip, unstack).value;
    var t := Classify(items[n].0, skip, unstack).value;
    assert forall i :: 0 <= i < n ==> items[..n][i] == items[i];
    if layer in d.vals {
      StackGroups(items[..n], skip, unstack, layer);
    } else {
      assert t == Grouped(layer);
      GroupEmpty(items[..n], skip, unstack, layer);
    }
  }

  /** Whether an entry sent to t writes the key k. */
  predicate WritesTo(t: Target, k: string)
  {
    t == Unstacked(k) || t == Grouped(k)
  }

  /** An unstacked entry is stored as the one-element list `[vv]` under its full name,
      unless a later entry writes to the same key. */
  lemma {:induction false} UnstackedStoredAlone<W>(items: seq<(string, W)>, skip: seq<string>, unstack: seq<string>,
                                                   i: nat, k: string)
    requires Stack(items, skip, unstack).Ok?
    requires i < |items| && Classify(items[i].0, skip, unstack).value == Unstacked(k)
    requires forall j :: i < j < |items| ==> !WritesTo(Classify(items[j].0, skip, unstack).value, k)
    ensures k in Stack(items, skip, unstack).value.vals
    ensures Stack(items, skip, unstack).value.vals[k] == [items[i].1]
  {
    var n := |items| - 1;
    if i == n {
      UnstackedLast(items, skip, unstack, k);
    } else {
      var front := items[..n];
      assert forall j :: i <= j < n ==> front[j] == items[j];
      UnstackedStoredAlone(front, skip, unstack, i, k);
      assert !WritesTo(Classify(items[n].0, skip, unstack).value, k);
      LastKeeps(items, skip, unstack, k);
    }
  }

  /** A last entry that does not write to k leaves k's list as the entries before it
      left it. */
  lemma LastKeeps<W>(items: seq<(string, W)>, skip: seq<string>, unstack: seq<string>, k: string)
    requires items != [] && Stack(items, skip, unstack).Ok?
    requires k in Stack(items[..|items| - 1], skip, unstack).value.vals
    requires !WritesTo(Classify(items[|items| - 1].0, skip, unstack).value, k)
    ensures k in Stack(items, skip, unstack).value.vals
    ensures Stack(items, skip, unstack).value.vals[k] == Stack(items[..|items| - 1], skip, unstack).value.vals[k]
  {
    var n := |items| - 1;
    StackLast(items, skip, unstack);
    StepKeeps(Stack(items[..n], skip, unstack).value, Classify(items[n].0, skip, unstack).value, items[n].1, k);
  }

  /** The base case: the last entry is the unstacked one. */
  lemma UnstackedLast<W>(items: seq<(string, W)>, skip: seq<string>, unstack: seq<string>, k: string)
    requires items != [] && Stack(items, skip, unstack).Ok?
    requires Classify(items[|items| - 1].0, skip, unstack).value == Unstacked(k)
    ensures k in Stack(items, skip, unstack).value.vals
    ensures Stack(items, skip, unstack).value.vals[k] == [items[|items| - 1].1]
  {
    var n := |items| - 1;
    StackLast(items, skip, unstack);
    StepStoresAlone(Stack(items[..n], skip, unstack).value, k, items[n].1);
  }

  /** `d[kk] = [vv]` stores the one-element list. */
  lemma StepStoresAlone<W>(d: ODict<string, seq<W>>, k: string, v: W)
    requires Valid(d)
    ensures k in Step(d, Unstacked(k), v).vals && Step(d, Unstacked(k), v).vals[k] == [v]
  {
  }

  /** The dict after the entries is the dict after all but the last, stepped once. */
  lemma StackLast<W>(items: seq<(string, W)>, skip: seq<string>, unstack: seq<string>)
    requires items != [] && Stack(items, skip, unstack).Ok?
    ensures var n := |items| - 1;
      Stack(items[..n], skip, unstack).Ok? && Classify(items[n].0, skip, unstack).Ok? &&
      Stack(items, skip, unstack).value ==
        Step(Stack(items[..n], skip, unstack).value, Classify(items[n].0, skip, unstack).value, items[n].1)
  {
  }

  /** A step that does not write k leaves the list under k as it was. */
  lemma StepKeeps<W>(d: ODict<string, seq<W>>, t: Target, v: W, k: string)
    requires Valid(d) && !WritesTo(t, k) && k in d.vals
    ensures k in Step(d, t, v).vals && Step(d, t, v).vals[k] == d.vals[k]
  {
  }

  /** A layer absent from the dict has had no weight grouped under it. */
  lemma {:induction false} GroupEmpty<W>(items: seq<(string, W)>, skip: seq<string>, unstack: seq<string>, layer: string)
    requires Stack(items, skip, unstack).Ok?
    requires layer !in Stack(items, skip, unstack).value.vals
    ensures GroupOf(items, skip, unstack, layer) == []
  {
    if items != [] {
      var n := |items| - 1;
      GroupEmpty(items[..n], skip, unstack, layer);
    }
  }
}
