/** `match_layer_names_with_torch` and `align_layer_names_multi_stage`: the Keras layer
    names of a model are reordered so that they line up with the layer order of a PyTorch
    state dict. A name listed in the full-name dict, or whose tail is listed in the tail
    dict, is inserted at an aligned position and the last slot is dropped; every other name
    goes to its own index. */
module LayerNameAlign {
  import opened Wrappers
  import opened PySeq

  /** An alignment value: an int position (a negative one is relative to the current
      index), or the name of another layer whose (last) index is the position. */
  datatype Align = Offset(k: int) | Named(name: string)

  /** A value of `tail_align_dict`: an alignment, or, when the dict is keyed by stack name,
      a dict of alignments for that stack. */
  datatype TailEntry = Leaf(align: Align) | Nested(aligns: map<string, Align>)

  type TailDict = map<string, TailEntry>
  type FullDict = map<string, Align>

  /** What `tail_align_dict.get(stack_name, tail_align_dict)` returns. */
  datatype CurTail = Top(top: TailDict) | Inner(inner: map<string, Align>) | Scalar(scalar: Align)

  /** `ii.split("_")[0]`. */
  function StackName(ii: string): string
  {
    SplitOn(ii, '_')[0]
  }

  /** `"_".join(name_split[:p])`. */
  function HeadName(ii: string, p: int): string
  {
    Join(Slice(SplitOn(ii, '_'), 0, p), '_')
  }

  /** `"_".join(name_split[p:])`. */
  function TailName(ii: string, p: int): string
  {
    Join(SliceFrom(SplitOn(ii, '_'), p), '_')
  }

  /** Head, an underscore and tail spell the name again when the split position falls
      strictly inside the parts. */
  lemma HeadTailRebuild(ii: string, p: int)
    requires 0 < p < |SplitOn(ii, '_')|
    ensures HeadName(ii, p) + "_" + TailName(ii, p) == ii
  {
    var parts := SplitOn(ii, '_');
    assert Slice(parts, 0, p) == parts[..p];
    assert SliceFrom(parts, p) == parts[p..];
    assert parts == parts[..p] + parts[p..];
    JoinConcat(parts[..p], parts[p..], '_');
    JoinSplit(ii, '_');
  }

  function CurTailOf(tail: TailDict, stack: string): (r: CurTail)
    ensures stack !in tail ==> r == Top(tail)
    ensures stack in tail && tail[stack].Nested? ==> r == Inner(tail[stack].aligns)
  {
    if stack in tail then
      match tail[stack]
      case Leaf(a) => Scalar(a)
      case Nested(m) => Inner(m)
    else Top(tail)
  }

  /** `tail_name in cur_tail_align_dict` and the value found there. A nested dict met in a
      flat lookup fails at `align < 0`; an int in place of a dict fails the `in` test, and a
      string in place of a dict fails its indexing when the tail is a substring of it. */
  function LookupTail(cur: CurTail, tailName: string): (r: Result<Option<Align>>)
    ensures cur.Inner? ==> r == Ok(if tailName in cur.inner then Some(cur.inner[tailName]) else None)
    ensures cur.Top? && tailName !in cur.top ==> r == Ok(None)
  {
    match cur
    case Top(m) =>
      if tailName in m then
        (match m[tailName]
         case Leaf(a) => Ok(Some(a))
         case Nested(_) => Err(TypeError))
      else Ok(None)
    case Inner(m) => if tailName in m then Ok(Some(m[tailName])) else Ok(None)
    case Scalar(Offset(_)) => Err(TypeError)
    case Scalar(Named(s)) => if IsSubstring(tailName, s) then Err(TypeError) else Ok(None)
  }

  /** The insert position an alignment value stands for at index id. A layer name resolves
      through `raw_id_dict`, which holds the last index of each name. */
  function Resolve(a: Align, id: nat, names: seq<string>, key: string): (r: Result<int>)
    ensures a.Offset? && a.k < 0 ==> r == Ok(id + a.k)
    ensures a.Offset? && a.k >= 0 ==> r == Ok(a.k)
    ensures a.Named? ==> (r.Ok? <==> key + a.name in names)
    ensures a.Named? && r.Ok? ==> 0 <= r.value < |names| && names[r.value] == key + a.name
  {
    match a
    case Offset(k) => Ok(if k < 0 then id + k else k)
    case Named(s) =>
      match LastIndexOf(names, key + s)
      case None => Err(KeyError)
      case Some(j) => Ok(j)
  }

  /** Where names[id] goes: `Some(position)` for an insert, `None` for its own slot. */
  function Target(names: seq<string>, id: nat, tail: TailDict, full: FullDict, p: int): (r: Result<Option<int>>)
    requires id < |names|
  {
    var ii := names[id];
    var cur := CurTailOf(tail, StackName(ii));
    if ii in full then
      var q :- Resolve(full[ii], id, names, "");
      Ok(Some(q))
    else
      var found :- LookupTail(cur, TailName(ii, p));
      match found
      case None => Ok(None)
      case Some(a) =>
        var q :- Resolve(a, id, names, HeadName(ii, p) + "_");
        Ok(Some(q))
  }

  /** A name in the full-name dict is placed by that dict alone, whatever the tail dict says. */
  lemma FullNamePrecedence(names: seq<string>, id: nat, tail1: TailDict, tail2: TailDict, full: FullDict, p: int)
    requires id < |names| && names[id] in full
    ensures Target(names, id, tail1, full, p) == Target(names, id, tail2, full, p)
    ensures var q := Resolve(full[names[id]], id, names, "");
      Target(names, id, tail1, full, p) == if q.Ok? then Ok(Some(q.value)) else Err(q.error)
  {
  }

  /** One iteration: `out[id] = ii`, or `out.insert(q, ii); out.pop(-1)`. */
  function Place(out: seq<string>, id: nat, ii: string, t: Option<int>): (r: seq<string>)
    requires id < |out|
    ensures |r| == |out|
    ensures t.None? ==> r == out[id := ii]
    ensures t.Some? && 0 <= t.value < |out| ==>
      r[t.value] == ii && r[..t.value] == out[..t.value] && r[t.value + 1..] == out[t.value..|out| - 1]
  {
    match t
    case None => out[id := ii]
    case Some(q) => Insert(out, q, ii)[..|out|]
  }

  /** `[""] * n`. */
  function Blank(n: nat): (r: seq<string>)
    ensures |r| == n && forall j :: 0 <= j < n ==> r[j] == ""
  {
    seq(n, _ => "")
  }

  /** The output list after the first k iterations. */
  function MatchUpTo(names: seq<string>, tail: TailDict, full: FullDict, p: int, k: nat): (r: Result<seq<string>>)
    requires k <= |names|
    ensures r.Ok? ==> |r.value| == |names|
    decreases k, 1
  {
    if k == 0 then Ok(Blank(|names|)) else MatchThrough(names, tail, full, p, k - 1)
  }

  /** The output list after iterations 0..id: iteration id runs only when the earlier ones
      succeeded. */
  function MatchThrough(names: seq<string>, tail: TailDict, full: FullDict, p: int, id: nat): (r: Result<seq<string>>)
    requires id < |names|
    ensures r.Ok? ==> |r.value| == |names|
    decreases id + 1, 0
  {
    var out :- MatchUpTo(names, tail, full, p, id);
    var t :- Target(names, id, tail, full, p);
    Ok(Place(out, id, names[id], t))
  }

  function Match(names: seq<string>, tail: TailDict, full: FullDict, p: int): (r: Result<seq<string>>)
    ensures r.Ok? ==> |r.value| == |names|
  {
    MatchUpTo(names, tail, full, p, |names|)
  }

  /** One more iteration of the loop. */
  lemma MatchStep(names: seq<string>, tail: TailDict, full: FullDict, p: int, id: nat)
    requires id < |names|
    requires MatchUpTo(names, tail, full, p, id).Ok? && Target(names, id, tail, full, p).Ok?
    ensures MatchUpTo(names, tail, full, p, id + 1)
      == Ok(Place(MatchUpTo(names, tail, full, p, id).value, id, names[id], Target(names, id, tail, full, p).value))
  {
  }

  /** Once an iteration fails, the whole call fails the same way. */
  lemma {:induction false} MatchErrorPersists(names: seq<string>, tail: TailDict, full: FullDict, p: int, k: nat, m: nat)
    requires k <= m <= |names|
    requires MatchUpTo(names, tail, full, p, k).Err?
    ensures MatchUpTo(names, tail, full, p, m) == MatchUpTo(names, tail, full, p, k)
    decreases m - k
  {
    if k < m {
      MatchErrorPersists(names, tail, full, p, k, m - 1);
    }
  }

  /** `match_layer_names_with_torch`. */
  method MatchLayerNamesWithTorch(names: seq<string>, tail: TailDict, full: FullDict, p: int)
    returns (r: Result<seq<string>>)
    ensures r == Match(names, tail, full, p)
  {
    var out: seq<string> := Blank(|names|);
    var id := 0;
    while id < |names|
      invariant 0 <= id <= |names|
      invariant MatchUpTo(names, tail, full, p, id) == Ok(out)
    {
      var next := MatchOne(names, tail, full, p, id, out);
      if next.Err? {
        return Err(next.error);
      }
      out := next.value;
      id := id + 1;
    }
    return Ok(out);
  }

  /** One iteration of the loop: names[id] is placed into the list the earlier iterations
      built. A failure here is the outcome of the whole call. */
  method MatchOne(names: seq<string>, tail: TailDict, full: FullDict, p: int, id: nat, out: seq<string>)
    returns (next: Result<seq<string>>)
    requires id < |names|
    requires MatchUpTo(names, tail, full, p, id) == Ok(out)
    ensures next == MatchUpTo(names, tail, full, p, id + 1)
    ensures next.Err? ==> next == MatchUpTo(names, tail, full, p, |names|)
  {
    var t := Target(names, id, tail, full, p);
    MatchNext(names, tail, full, p, id);
    if t.Err? {
      MatchErrorPersists(names, tail, full, p, id + 1, |names|);
      return Err(t.error);
    }
    next := Ok(Place(out, id, names[id], t.value));
  }

  /** Iteration id either fails with the error of its target or places names[id]. */
  lemma MatchNext(names: seq<string>, tail: TailDict, full: FullDict, p: int, id: nat)
    requires id < |names|
    requires MatchUpTo(names, tail, full, p, id).Ok?
    ensures var t := Target(names, id, tail, full, p);
      MatchUpTo(names, tail, full, p, id + 1)
        == if t.Err? then Err(t.error) else Ok(Place(MatchUpTo(names, tail, full, p, id).value, id, names[id], t.value))
  {
  }

  /** With both dicts empty every name goes to its own index. */
  lemma {:induction false} MatchEmptyDictsUpTo(names: seq<string>, p: int, k: nat)
    requires k <= |names|
    ensures MatchUpTo(names, map[], map[], p, k) == Ok(names[..k] + Blank(|names| - k))
  {
    if k > 0 {
      MatchEmptyDictsUpTo(names, p, k - 1);
      var out := names[..k - 1] + Blank(|names| - k + 1);
      assert Target(names, k - 1, map[], map[], p) == Ok(None);
      var r := out[k - 1 := names[k - 1]];
      var want := names[..k] + Blank(|names| - k);
      assert |r| == |want|;
      forall j | 0 <= j < |names|
        ensures r[j] == want[j]
      {
        if j < k - 1 {
          assert r[j] == out[j] == names[j];
        }
      }
      assert r == want;
      assert MatchUpTo(names, map[], map[], p, k) == Ok(Place(out, k - 1, names[k - 1], None));
    } else {
      assert names[..0] + Blank(|names|) == Blank(|names|);
    }
  }

  lemma MatchEmptyDicts(names: seq<string>, p: int)
    ensures Match(names, map[], map[], p) == Ok(names)
  {
    MatchEmptyDictsUpTo(names, p, |names|);
    assert names[..|names|] + [] == names;
  }

  /** Every name resolves, and every insert lands at or before the current index. */
  predicate BackwardAligned(names: seq<string>, tail: TailDict, full: FullDict, p: int)
  {
    forall id :: 0 <= id < |names| ==>
      var t := Target(names, id, tail, full, p);
      t.Ok? && (t.value.Some? ==> 0 <= t.value.value <= id)
  }

  /** Under backward alignment the first k slots hold a rearrangement of the first k names
      and the remaining slots are still empty. */
  lemma {:induction false} MatchPermutesUpTo(names: seq<string>, tail: TailDict, full: FullDict, p: int, k: nat)
    requires k <= |names|
    requires BackwardAligned(names, tail, full, p)
    ensures MatchUpTo(names, tail, full, p, k).Ok?
    ensures var out := MatchUpTo(names, tail, full, p, k).value;
      multiset(out[..k]) == multiset(names[..k]) && forall j :: k <= j < |names| ==> out[j] == ""
  {
    if k > 0 {
      MatchPermutesUpTo(names, tail, full, p, k - 1);
      var id := k - 1;
      var out := MatchUpTo(names, tail, full, p, id).value;
      var t := Target(names, id, tail, full, p).value;
      MatchStep(names, tail, full, p, id);
      PlaceFillsSlot(out, id, names[id], t);
      assert names[..k] == names[..id] + [names[id]];
    }
  }

  /** One backward step: the filled prefix grows by the placed name and the empty suffix
      shrinks by one slot. */
  lemma PlaceFillsSlot(out: seq<string>, id: nat, ii: string, t: Option<int>)
    requires id < |out|
    requires forall j :: id <= j < |out| ==> out[j] == ""
    requires t.Some? ==> 0 <= t.value <= id
    ensures var r := Place(out, id, ii, t);
      multiset(r[..id + 1]) == multiset(out[..id]) + multiset{ii}
      && forall j :: id + 1 <= j < |out| ==> r[j] == ""
  {
    var r := Place(out, id, ii, t);
    match t
    case None =>
      assert r[..id + 1] == out[..id] + [ii];
    case Some(q) =>
      assert r[..id + 1] == out[..q] + [ii] + out[q..id] by {
        assert r[..q] == out[..q];
        assert r[q + 1..] == out[q..|out| - 1];
        assert r[..id + 1] == r[..q] + [r[q]] + r[q + 1..][..id - q];
      }
      assert out[..id] == out[..q] + out[q..id];
      forall j | id + 1 <= j < |out|
        ensures r[j] == ""
      {
        assert r[j] == r[q + 1..][j - q - 1] == out[q..|out| - 1][j - q - 1];
      }
  }

  /** The reordered list is a permutation of the names, each moved name sitting where its
      insert put it. */
  lemma MatchIsPermutation(names: seq<string>, tail: TailDict, full: FullDict, p: int)
    requires BackwardAligned(names, tail, full, p)
    ensures Match(names, tail, full, p).Ok?
    ensures multiset(Match(names, tail, full, p).value) == multiset(names)
  {
    MatchPermutesUpTo(names, tail, full, p, |names|);
    assert names[..|names|] == names;
    assert Match(names, tail, full, p).value[..|names|] == Match(names, tail, full, p).value;
  }

  /** A full-name entry `-k` moves the name k places back, right after its step. */
  lemma FullOffsetPlaces(names: seq<string>, tail: TailDict, full: FullDict, p: int, id: nat, k: int)
    requires id < |names| && names[id] in full && full[names[id]] == Offset(-k) && 0 < k <= id
    requires MatchUpTo(names, tail, full, p, id).Ok?
    ensures MatchUpTo(names, tail, full, p, id + 1).Ok?
    ensures MatchUpTo(names, tail, full, p, id + 1).value[id - k] == names[id]
  {
  }

  /** The `tail_align_dict` argument: one dict, or a list of them. */
  datatype TailArg = OneTail(tailDict: TailDict) | TailList(tails: seq<TailDict>)
  /** The `full_name_align_dict` argument. */
  datatype FullArg = OneFull(fullDict: FullDict) | FullList(fulls: seq<FullDict>)
  /** The `tail_split_position` argument: an int means a single pass with the two dicts as
      given. */
  datatype Stages =
    | Single(tail: TailDict, full: FullDict, split: int)
    | Multi(tailArg: TailArg, fullArg: FullArg, splits: seq<int>)

  function FullsOf(st: Stages): seq<FullDict>
  {
    match st
    case Single(_, f, _) => [f]
    case Multi(_, OneFull(f), _) => [f]
    case Multi(_, FullList(fs), _) => fs
  }

  function SplitsOf(st: Stages): seq<int>
  {
    match st
    case Single(_, _, s) => [s]
    case Multi(_, _, ss) => ss
  }

  /** The number of passes: the longer of the position list and the full-name dict list. */
  function Passes(st: Stages): (n: nat)
    ensures n >= |SplitsOf(st)| && n >= |FullsOf(st)|
    ensures n == |SplitsOf(st)| || n == |FullsOf(st)|
  {
    if |SplitsOf(st)| >= |FullsOf(st)| then |SplitsOf(st)| else |FullsOf(st)|
  }

  /** The dicts and split position of pass idx. A missing dict is `{}` and a missing
      position is the last one. A single tail dict given beside a position list is indexed
      by the int idx, which none of its string keys equals. */
  function StageArgs(st: Stages, idx: nat): (r: Result<(TailDict, FullDict, int)>)
    ensures r.Err? <==> (st.Multi? && st.tailArg.OneTail? && idx < |st.tailArg.tailDict|) || SplitsOf(st) == []
    ensures r.Err? ==>
      r.error == if st.Multi? && st.tailArg.OneTail? && idx < |st.tailArg.tailDict| then KeyError else IndexError
    ensures st.Single? && idx == 0 ==> r == Ok((st.tail, st.full, st.split))
    ensures r.Ok? && st.Single? ==> r.value.0 == if idx == 0 then st.tail else map[]
    ensures r.Ok? && st.Multi? && st.tailArg.TailList? ==>
      r.value.0 == if idx < |st.tailArg.tails| then st.tailArg.tails[idx] else map[]
    ensures r.Ok? && st.Multi? && st.tailArg.OneTail? ==> r.value.0 == map[]
    ensures r.Ok? ==> r.value.1 == (if idx < |FullsOf(st)| then FullsOf(st)[idx] else map[])
    ensures r.Ok? && idx < |SplitsOf(st)| ==> r.value.2 == SplitsOf(st)[idx]
    ensures r.Ok? && idx >= |SplitsOf(st)| ==>
      |SplitsOf(st)| > 0 && r.value.2 == SplitsOf(st)[|SplitsOf(st)| - 1]
  {
    var fulls := FullsOf(st);
    var splits := SplitsOf(st);
    var curTail :- match st
      case Single(t, _, _) => if idx < 1 then Ok(t) else Ok(map[])
      case Multi(TailList(ts), _, _) => if idx < |ts| then Ok(ts[idx]) else Ok(map[])
      case Multi(OneTail(t), _, _) => if idx < |t| then Err(KeyError) else Ok(map[]);
    var curFull := if idx < |fulls| then fulls[idx] else map[];
    var curSplit :- Index(splits, if idx < |splits| then idx else -1);
    Ok((curTail, curFull, curSplit))
  }

  /** The names after the first k passes. */
  function MultiUpTo(names: seq<string>, st: Stages, k: nat): (r: Result<seq<string>>)
    requires k <= Passes(st)
    ensures r.Ok? ==> |r.value| == |names|
  {
    if k == 0 then Ok(names)
    else
      var prev :- MultiUpTo(names, st, k - 1);
      var args :- StageArgs(st, k - 1);
      Match(prev, args.0, args.1, args.2)
  }

  /** One more pass. */
  lemma MultiStep(names: seq<string>, st: Stages, k: nat)
    requires k < Passes(st)
    requires MultiUpTo(names, st, k).Ok? && StageArgs(st, k).Ok?
    ensures var args := StageArgs(st, k).value;
      MultiUpTo(names, st, k + 1) == Match(MultiUpTo(names, st, k).value, args.0, args.1, args.2)
  {
  }

  /** `align_layer_names_multi_stage`, with the optional final `specific_match_func`. */
  function MultiStage(names: seq<string>, st: Stages, specific: Option<seq<string> -> seq<string>>)
    : (r: Result<seq<string>>)
    ensures r.Ok? && specific.None? ==> |r.value| == |names|
  {
    var aligned :- MultiUpTo(names, st, Passes(st));
    match specific
    case None => Ok(aligned)
    case Some(f) => Ok(f(aligned))
  }

  lemma {:induction false} MultiErrorPersists(names: seq<string>, st: Stages, k: nat, m: nat)
    requires k <= m <= Passes(st)
    requires MultiUpTo(names, st, k).Err?
    ensures MultiUpTo(names, st, m) == MultiUpTo(names, st, k)
    decreases m - k
  {
    if k < m {
      MultiErrorPersists(names, st, k, m - 1);
      MultiErrorStep(names, st, m);
    }
  }

  /** A failed pass stays failed through the next one. */
  lemma MultiErrorStep(names: seq<string>, st: Stages, j: nat)
    requires 0 < j <= Passes(st)
    requires MultiUpTo(names, st, j - 1).Err?
    ensures MultiUpTo(names, st, j) == MultiUpTo(names, st, j - 1)
  {
  }

  method AlignLayerNamesMultiStage(names: seq<string>, st: Stages, specific: Option<seq<string> -> seq<string>>)
    returns (r: Result<seq<string>>)
    ensures r == MultiStage(names, st, specific)
  {
    var targetNames := names;
    var idx := 0;
    while idx < Passes(st)
      invariant 0 <= idx <= Passes(st)
      invariant MultiUpTo(names, st, idx) == Ok(targetNames)
    {
      var next := AlignPass(names, st, idx, targetNames);
      if next.Err? {
        return Err(next.error);
      }
      targetNames := next.value;
      idx := idx + 1;
    }
    if specific.Some? {
      targetNames := specific.value(targetNames);
    }
    return Ok(targetNames);
  }

  /** One pass of the loop: the dicts and position of pass idx, then one matching of the
      names so far. A failure here is the outcome of the whole loop. */
  method AlignPass(names: seq<string>, st: Stages, idx: nat, targetNames: seq<string>)
    returns (next: Result<seq<string>>)
    requires idx < Passes(st)
    requires MultiUpTo(names, st, idx) == Ok(targetNames)
    ensures next == MultiUpTo(names, st, idx + 1)
    ensures next.Err? ==> next == MultiUpTo(names, st, Passes(st))
  {
    var args := StageArgs(st, idx);
    if args.Err? {
      MultiErrorPersists(names, st, idx + 1, Passes(st));
      return Err(args.error);
    }
    var (curTail, curFull, curSplit) := args.value;
    MultiStep(names, st, idx);
    next := MatchLayerNamesWithTorch(targetNames, curTail, curFull, curSplit);
    if next.Err? {
      MultiErrorPersists(names, st, idx + 1, Passes(st));
    }
  }

  /** An int split position makes exactly one pass of `match_layer_names_with_torch`. */
  lemma SinglePass(names: seq<string>, tail: TailDict, full: FullDict, p: int)
    ensures MultiStage(names, Single(tail, full, p), None) == Match(names, tail, full, p)
  {
    assert Passes(Single(tail, full, p)) == 1;
    assert MultiUpTo(names, Single(tail, full, p), 0) == Ok(names);
  }

  /** With every dict empty, any number of passes leaves the names as they are. */
  lemma {:induction false} MultiEmptyDicts(names: seq<string>, splits: seq<int>, k: nat)
    requires |splits| > 0
    requires k <= Passes(Multi(TailList([]), FullList([]), splits))
    ensures MultiUpTo(names, Multi(TailList([]), FullList([]), splits), k) == Ok(names)
  {
    if k > 0 {
      MultiEmptyDicts(names, splits, k - 1);
      var args := StageArgs(Multi(TailList([]), FullList([]), splits), k - 1);
      assert args.Ok?;
      MatchEmptyDicts(names, args.value.2);
    }
  }
}
