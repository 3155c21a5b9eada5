/** GCViT (`gcvit/gcvit.py`): the down-sampling plan of `to_global_query`, the window size
    of each stage, and the stage / block loop of `GCViT` that hands the global query to
    every other block and numbers the blocks for their drop rates. */
module Gcvit {
  import opened Wrappers
  import opened PyMath
  import opened PySeq
  import Functional
  import PretrainedReload

  function Pow2(k: nat): (p: nat)
    ensures p >= 1
  {
    if k == 0 then 1 else 2 * Pow2(k - 1)
  }

  lemma {:induction false} Pow2Increasing(j: nat, k: nat)
    requires j < k
    ensures Pow2(j) < Pow2(k)
    decreases k
  {
    if j < k - 1 {
      Pow2Increasing(j, k - 1);
    }
  }

  /** One `extract_feature` call: its stride and its name prefix. */
  datatype Extraction = Extraction(strides: int, name: string)

  /** The values `num_window` takes after each doubling, starting from `nw`. */
  function Doublings(nw: nat, ratio: int): (ws: seq<nat>)
    requires nw >= 1
    decreases ratio - nw
  {
    if nw >= ratio then [] else [2 * nw] + Doublings(2 * nw, ratio)
  }

  /** `num_window` once the doubling loop stops. */
  function FinalWindows(nw: nat, ratio: int): (n: nat)
    requires nw >= 1
    decreases ratio - nw
  {
    if nw >= ratio then nw else FinalWindows(2 * nw, ratio)
  }

  /** The stride-2 extractions named after each value of `num_window`. */
  function DownNames(name: string, ws: seq<nat>): (es: seq<Extraction>)
    ensures |es| == |ws|
    ensures forall i :: 0 <= i < |ws| ==> es[i] == Extraction(2, name + "down" + NatToString(ws[i]) + "_")
  {
    if ws == [] then [] else [Extraction(2, name + "down" + NatToString(ws[0]) + "_")] + DownNames(name, ws[1..])
  }

  /** The plan `to_global_query` follows: `num_window` and the extractions, in order. */
  function QueryPlanSpec(ratio: int, name: string): (nat, seq<Extraction>)
  {
    if ratio == 1 then (1, [Extraction(1, name + "down1_")])
    else (FinalWindows(1, ratio), DownNames(name, Doublings(1, ratio)))
  }

  /** The loop of `to_global_query`. */
  method GlobalQueryPlan(ratio: int, name: string) returns (numWindow: nat, extractions: seq<Extraction>)
    ensures (numWindow, extractions) == QueryPlanSpec(ratio, name)
  {
    numWindow := 1;
    if ratio == 1 {
      extractions := [Extraction(1, name + "down1_")];
      return;
    }
    extractions := [];
    while numWindow < ratio
      invariant numWindow >= 1
      invariant FinalWindows(numWindow, ratio) == FinalWindows(1, ratio)
      invariant DownNames(name, Doublings(1, ratio)) == extractions + DownNames(name, Doublings(numWindow, ratio))
      decreases ratio - numWindow
    {
      DoublingStep(name, numWindow, ratio);
      numWindow := numWindow * 2;
      extractions := extractions + [Extraction(2, name + "down" + NatToString(numWindow) + "_")];
    }
    assert Doublings(numWindow, ratio) == [];
    assert DownNames(name, []) == [];
    assert extractions == DownNames(name, Doublings(1, ratio));
    assert numWindow == FinalWindows(1, ratio);
  }

  /** One turn of the doubling loop: one more extraction, named after the doubled count. */
  lemma DoublingStep(name: string, nw: nat, ratio: int)
    requires 1 <= nw < ratio
    ensures DownNames(name, Doublings(nw, ratio)) ==
      [Extraction(2, name + "down" + NatToString(nw * 2) + "_")] + DownNames(name, Doublings(nw * 2, ratio))
    ensures FinalWindows(nw, ratio) == FinalWindows(nw * 2, ratio)
  {
    var rest := Doublings(nw * 2, ratio);
    assert Doublings(nw, ratio) == [nw * 2] + rest;
    assert ([nw * 2] + rest)[1..] == rest;
  }

  /** From `num_window == 2^j`, the loop doubles up to the least power of two reaching
      `ratio`. */
  lemma {:induction false} DoublingsFrom(j: nat, ratio: int)
    ensures var d := Doublings(Pow2(j), ratio);
      (forall i :: 0 <= i < |d| ==> d[i] == Pow2(j + i + 1)) &&
      FinalWindows(Pow2(j), ratio) == Pow2(j + |d|) &&
      ratio <= Pow2(j + |d|) &&
      (|d| > 0 ==> Pow2(j + |d| - 1) < ratio)
    decreases ratio - Pow2(j)
  {
    if Pow2(j) < ratio {
      assert Pow2(j + 1) == 2 * Pow2(j);
      DoublingsFrom(j + 1, ratio);
    }
  }

  /** `window_ratio == 1`: one stride-1 extraction named "down1_", and one window. */
  lemma RatioOnePlan(name: string)
    ensures QueryPlanSpec(1, name) == (1, [Extraction(1, name + "down1_")])
  {
  }

  /** For `window_ratio >= 2`, `num_window` ends as the least power of two reaching the
      ratio, after one stride-2 extraction per doubling named "down2_", "down4_", ... */
  lemma PowerOfTwoPlan(ratio: int, name: string)
    requires ratio >= 2
    ensures var (nw, es) := QueryPlanSpec(ratio, name);
      |es| >= 1 && nw == Pow2(|es|) && Pow2(|es| - 1) < ratio <= nw &&
      (forall i :: 0 <= i < |es| ==> es[i] == Extraction(2, name + "down" + NatToString(Pow2(i + 1)) + "_")) &&
      (forall k: nat :: Pow2(k) >= ratio ==> Pow2(k) >= nw)
  {
    var d := Doublings(1, ratio);
    var es := DownNames(name, d);
    assert Pow2(0) == 1;
    DoublingsFrom(0, ratio);
    forall i | 0 <= i < |es|
      ensures es[i] == Extraction(2, name + "down" + NatToString(Pow2(i + 1)) + "_")
    {
      assert d[i] == Pow2(i + 1);
    }
    LeastPowerReaching(ratio, |d|);
  }

  /** No power of two reaching the ratio is below the first one that does. */
  lemma LeastPowerReaching(ratio: int, n: nat)
    requires n >= 1 && Pow2(n - 1) < ratio
    ensures forall k: nat :: Pow2(k) >= ratio ==> Pow2(k) >= Pow2(n)
  {
    forall k: nat | Pow2(k) >= ratio
      ensures Pow2(k) >= Pow2(n)
    {
      if k < n {
        if k < n - 1 {
          Pow2Increasing(k, n - 1);
        }
      } else if k > n {
        Pow2Increasing(n, k);
      }
    }
  }

  /** A ratio below 1 makes no extraction at all. */
  lemma SmallRatioPlan(ratio: int, name: string)
    requires ratio <= 0
    ensures QueryPlanSpec(ratio, name) == (1, [])
  {
  }

  /** The extraction names of one plan are distinct. */
  lemma PlanNamesDistinct(ratio: int, name: string, i: nat, j: nat)
    requires ratio >= 2
    requires i < j < |QueryPlanSpec(ratio, name).1|
    ensures QueryPlanSpec(ratio, name).1[i].name != QueryPlanSpec(ratio, name).1[j].name
  {
    PowerOfTwoPlan(ratio, name);
    Pow2Increasing(i + 1, j + 1);
    if QueryPlanSpec(ratio, name).1[i].name == QueryPlanSpec(ratio, name).1[j].name {
      PretrainedReload.MiddleCancel(name + "down", NatToString(Pow2(i + 1)), NatToString(Pow2(j + 1)), "_");
      NatToStringInjective(Pow2(i + 1), Pow2(j + 1));
    }
  }

  /** The global query, `[batch, heads, hh * ww, key_dim]`, is repeated `num_window ** 2`
      times along the batch axis. */
  function RepeatedQueryShape(query: seq<nat>, numWindow: nat): (r: Result<seq<nat>>)
    requires |query| == 4
    ensures r.Ok? && |r.value| == 4
    ensures r.value[0] == query[0] * (numWindow * numWindow)
    ensures r.value[1..] == query[1..]
  {
    var res := Functional.RepeatShape(query, numWindow * numWindow, 0);
    assert res.value[1..] == query[1..];
    res
  }

  /** `window_size`: the feature size floor-divided by the ratio in each direction. */
  function WindowSize(height: int, width: int, ratio: int): (r: Result<(int, int)>)
    ensures r.Ok? <==> ratio != 0
    ensures r.Ok? && ratio > 0 ==>
      r.value.0 * ratio <= height < (r.value.0 + 1) * ratio &&
      r.value.1 * ratio <= width < (r.value.1 + 1) * ratio
  {
    if ratio == 0 then Err(ZeroDivisionError) else Ok((FloorDiv(height, ratio), FloorDiv(width, ratio)))
  }

  /** With a power-of-two ratio dividing the feature map, the query is repeated exactly
      once per window: `num_window ** 2` is the number of windows of `window_size`. */
  lemma OneQueryPerWindow(k: nat, a: nat, b: nat, name: string)
    requires a > 0 && b > 0
    ensures var ratio := Pow2(k);
      var ws := WindowSize(a * ratio, b * ratio, ratio).value;
      var nw := QueryPlanSpec(ratio, name).0;
      ws == (a, b) && (a * ratio) / ws.0 * ((b * ratio) / ws.1) == nw * nw
  {
    var ratio := Pow2(k);
    ExactDiv(a, ratio);
    ExactDiv(b, ratio);
    assert a * ratio == ratio * a && b * ratio == ratio * b;
    ExactDiv(ratio, a);
    ExactDiv(ratio, b);
    if ratio == 1 {
    } else {
      assert k >= 1;
      DoublingsFrom(0, ratio);
      var n := |Doublings(1, ratio)|;
      if n < k {
        Pow2Increasing(n, k);
      } else if n > k {
        Pow2Increasing(k, n - 1);
      }
      assert QueryPlanSpec(ratio, name).0 == ratio;
    }
  }

  /** The affine layer-scale layers a `gcvit_block` adds: both only when
      `layer_scale >= 0`. */
  function GammaLayers(name: string, layerScale: real): (r: seq<string>)
    ensures layerScale >= 0.0 ==> r == [name + "1_gamma", name + "2_gamma"]
    ensures layerScale < 0.0 ==> r == []
  {
    if layerScale >= 0.0 then [name + "1_gamma", name + "2_gamma"] else []
  }

  /** One block of a stage as `GCViT` configures it. */
  datatype BlockPlan = BlockPlan(
    name: string,
    heads: int,
    globalQuery: bool,
    globalBlockId: nat,
    dropRate: real,
    gammas: seq<string>)

  /** One stage: its name, window size, global-query plan and blocks. */
  datatype StagePlan = StagePlan(
    name: string,
    windowSize: (int, int),
    numWindow: nat,
    extractions: seq<Extraction>,
    blocks: seq<BlockPlan>)

  /** The per-stage configuration: `(num_block, num_head, window_ratio)`. */
  type StageConfig = (int, int, int)

  /** `zip(num_blocks, num_heads, window_ratios)` stops at the shortest list. */
  function Zip3(a: seq<int>, b: seq<int>, c: seq<int>): (z: seq<StageConfig>)
    ensures |z| == Functional.Min(Functional.Min(|a|, |b|), |c|)
    ensures forall i :: 0 <= i < |z| ==> z[i] == (a[i], b[i], c[i])
  {
    var n := Functional.Min(Functional.Min(|a|, |b|), |c|);
    seq(n, i requires 0 <= i < n => (a[i], b[i], c[i]))
  }

  function StackName(stackId: nat): string
  {
    "stack" + NatToString(stackId + 1) + "_"
  }

  function BlockName(stackId: nat, blockId: nat): string
  {
    StackName(stackId) + "block" + NatToString(blockId + 1) + "_"
  }

  /** Block `blockId` of a stage whose first block has the global id `start`: odd blocks
      take the stage's global query, and the drop rate grows with the global id. */
  function Block(stackId: nat, blockId: nat, heads: int, start: nat, total: int, rate: real, layerScale: real): BlockPlan
    requires total != 0
  {
    var id := start + blockId;
    BlockPlan(BlockName(stackId, blockId), heads, blockId % 2 == 1, id,
      rate * (id as real) / (total as real), GammaLayers(BlockName(stackId, blockId), layerScale))
  }

  /** The blocks of one stage; the drop rate divides by `total_blocks`, so a block in a
      model whose block counts sum to 0 is a ZeroDivisionError. */
  function StageBlocks(stackId: nat, numBlock: int, heads: int, start: nat, total: int, rate: real, layerScale: real)
    : (r: Result<seq<BlockPlan>>)
    ensures r.Ok? <==> numBlock <= 0 || total != 0
    ensures r.Ok? ==> |r.value| == (if numBlock <= 0 then 0 else numBlock)
  {
    if numBlock <= 0 then Ok([])
    else if total == 0 then Err(ZeroDivisionError)
    else Ok(seq(numBlock, b requires 0 <= b < numBlock => Block(stackId, b, heads, start, total, rate, layerScale)))
  }

  /** One stage: the window size, then the global query, then the blocks. */
  function Stage(stackId: nat, cfg: StageConfig, side: (int, int), start: nat, total: int, rate: real, layerScale: real)
    : (r: Result<StagePlan>)
  {
    var ws :- WindowSize(side.0, side.1, cfg.2);
    var (nw, es) := QueryPlanSpec(cfg.2, StackName(stackId) + "q_global_");
    var blocks :- StageBlocks(stackId, cfg.0, cfg.1, start, total, rate, layerScale);
    Ok(StagePlan(StackName(stackId), ws, nw, es, blocks))
  }

  /** The first n stages and the global block counter after them. */
  function StagesUpTo(cfgs: seq<StageConfig>, n: nat, side: nat -> (int, int), total: int, rate: real, layerScale: real)
    : (r: Result<(seq<StagePlan>, nat)>)
    requires n <= |cfgs|
    ensures r.Ok? ==> |r.value.0| == n
  {
    if n == 0 then Ok(([], 0))
    else
      var prev :- StagesUpTo(cfgs, n - 1, side, total, rate, layerScale);
      var st :- Stage(n - 1, cfgs[n - 1], side(n - 1), prev.1, total, rate, layerScale);
      Ok((prev.0 + [st], prev.1 + |st.blocks|))
  }

  /** The whole stage loop of `GCViT`. `side(s)` is the spatial size of the feature map
      entering stage s, which the layer graph decides. */
  function Stages(numBlocks: seq<int>, numHeads: seq<int>, windowRatios: seq<int>, side: nat -> (int, int),
                  rate: real, layerScale: real): Result<seq<StagePlan>>
  {
    var cfgs := Zip3(numBlocks, numHeads, windowRatios);
    var r :- StagesUpTo(cfgs, |cfgs|, side, Sum(numBlocks), rate, layerScale);
    Ok(r.0)
  }

  lemma StagesStep(cfgs: seq<StageConfig>, n: nat, side: nat -> (int, int), total: int, rate: real, layerScale: real)
    requires n < |cfgs|
    requires StagesUpTo(cfgs, n, side, total, rate, layerScale).Ok?
    ensures var prev := StagesUpTo(cfgs, n, side, total, rate, layerScale).value;
      var st := Stage(n, cfgs[n], side(n), prev.1, total, rate, layerScale);
      StagesUpTo(cfgs, n + 1, side, total, rate, layerScale) ==
        if st.Err? then Err(st.error) else Ok((prev.0 + [st.value], prev.1 + |st.value.blocks|))
  {
  }

  /** A failed stage stops the loop: the error is the outcome of the whole model. */
  lemma {:induction false} StagesErrorPersists(cfgs: seq<StageConfig>, n: nat, m: nat, side: nat -> (int, int), total: int,
                                               rate: real, layerScale: real)
    requires n <= m <= |cfgs|
    requires StagesUpTo(cfgs, n, side, total, rate, layerScale).Err?
    ensures StagesUpTo(cfgs, m, side, total, rate, layerScale) == StagesUpTo(cfgs, n, side, total, rate, layerScale)
    decreases m - n
  {
    if n < m {
      StagesErrorPersists(cfgs, n, m - 1, side, total, rate, layerScale);
    }
  }

  /** `Stage` spelled out case by case. */
  lemma StageCases(stackId: nat, cfg: StageConfig, side: (int, int), start: nat, total: int, rate: real, layerScale: real)
    ensures var ws := WindowSize(side.0, side.1, cfg.2);
      var blocks := StageBlocks(stackId, cfg.0, cfg.1, start, total, rate, layerScale);
      var plan := QueryPlanSpec(cfg.2, StackName(stackId) + "q_global_");
      Stage(stackId, cfg, side, start, total, rate, layerScale) ==
        if ws.Err? then Err(ws.error)
        else if blocks.Err? then Err(blocks.error)
        else Ok(StagePlan(StackName(stackId), ws.value, plan.0, plan.1, blocks.value))
  {
  }

  /** The block loop of one stage; `global_block_id` starts at `start` and counts up. */
  method PlanBlocks(s: nat, numBlock: int, heads: int, start: nat, total: int, rate: real, layerScale: real)
    returns (r: Result<seq<BlockPlan>>)
    ensures r == StageBlocks(s, numBlock, heads, start, total, rate, layerScale)
  {
    var globalBlockId := start;
    var blocks: seq<BlockPlan> := [];
    var b := 0;
    while b < numBlock
      invariant 0 <= b && (b == 0 || b <= numBlock)
      invariant globalBlockId == start + b
      invariant total != 0 || b == 0
      invariant |blocks| == b
      invariant forall i :: 0 <= i < b ==> total != 0 && blocks[i] == Block(s, i, heads, start, total, rate, layerScale)
    {
      if total == 0 {
        return Err(ZeroDivisionError);
      }
      var blockRate := rate * (globalBlockId as real) / (total as real);
      var cur := b % 2 == 1;
      var name := BlockName(s, b);
      var block := BlockPlan(name, heads, cur, globalBlockId, blockRate, GammaLayers(name, layerScale));
      assert block == Block(s, b, heads, start, total, rate, layerScale);
      SnocIndex(blocks, block);
      blocks := blocks + [block];
      globalBlockId := globalBlockId + 1;
      b := b + 1;
    }
    if numBlock <= 0 {
      assert blocks == [];
    } else {
      assert blocks == seq(numBlock, i requires 0 <= i < numBlock => Block(s, i, heads, start, total, rate, layerScale));
    }
    r := Ok(blocks);
  }

  /** The nested loops of `GCViT` over stages and blocks, with the running
      `global_block_id`. */
  method PlanStages(numBlocks: seq<int>, numHeads: seq<int>, windowRatios: seq<int>, side: nat -> (int, int),
                    rate: real, layerScale: real) returns (r: Result<seq<StagePlan>>)
    ensures r == Stages(numBlocks, numHeads, windowRatios, side, rate, layerScale)
  {
    var total := Sum(numBlocks);
    var cfgs := Zip3(numBlocks, numHeads, windowRatios);
    var globalBlockId: nat := 0;
    var stages: seq<StagePlan> := [];
    var s := 0;
    while s < |cfgs|
      invariant 0 <= s <= |cfgs|
      invariant StagesUpTo(cfgs, s, side, total, rate, layerScale) == Ok((stages, globalBlockId))
    {
      var next := PlanStage(cfgs, s, side, total, rate, layerScale, stages, globalBlockId);
      if next.Err? {
        return Err(next.error);
      }
      stages, globalBlockId := next.value.0, next.value.1;
      s := s + 1;
    }
    r := Ok(stages);
  }

  /** One turn of the stage loop: the window size, the global query plan and the blocks
      of stage s, appended to the stages so far. */
  method PlanStage(cfgs: seq<StageConfig>, s: nat, side: nat -> (int, int), total: int, rate: real,
                   layerScale: real, stages: seq<StagePlan>, globalBlockId: nat)
    returns (next: Result<(seq<StagePlan>, nat)>)
    requires s < |cfgs|
    requires StagesUpTo(cfgs, s, side, total, rate, layerScale) == Ok((stages, globalBlockId))
    ensures next == StagesUpTo(cfgs, s + 1, side, total, rate, layerScale)
    ensures next.Err? ==> next == StagesUpTo(cfgs, |cfgs|, side, total, rate, layerScale)
  {
    StagesStep(cfgs, s, side, total, rate, layerScale);
    StageCases(s, cfgs[s], side(s), globalBlockId, total, rate, layerScale);
    var ws := WindowSize(side(s).0, side(s).1, cfgs[s].2);
    if ws.Err? {
      StagesErrorPersists(cfgs, s + 1, |cfgs|, side, total, rate, layerScale);
      return Err(ws.error);
    }
    var nw, es := GlobalQueryPlan(cfgs[s].2, StackName(s) + "q_global_");
    var blocks := PlanBlocks(s, cfgs[s].0, cfgs[s].1, globalBlockId, total, rate, layerScale);
    if blocks.Err? {
      StagesErrorPersists(cfgs, s + 1, |cfgs|, side, total, rate, layerScale);
      return Err(blocks.error);
    }
    next := Ok((stages + [StagePlan(StackName(s), ws.value, nw, es, blocks.value)], globalBlockId + |blocks.value|));
  }

  /** The blocks of all stages, in order. */
  function AllBlocks(stages: seq<StagePlan>): seq<BlockPlan>
  {
    if stages == [] then [] else AllBlocks(stages[..|stages| - 1]) + stages[|stages| - 1].blocks
  }

  /** Every block carries its position in the whole model as its global id, and the
      counter after n stages is the number of blocks so far. */
  lemma {:induction false} GlobalIdsCount(cfgs: seq<StageConfig>, n: nat, side: nat -> (int, int), total: int, rate: real,
                                          layerScale: real)
    requires n <= |cfgs|
    requires StagesUpTo(cfgs, n, side, total, rate, layerScale).Ok?
    ensures var (stages, next) := StagesUpTo(cfgs, n, side, total, rate, layerScale).value;
      next == |AllBlocks(stages)| &&
      forall i :: 0 <= i < |AllBlocks(stages)| ==> AllBlocks(stages)[i].globalBlockId == i
  {
    if n > 0 {
      GlobalIdsCount(cfgs, n - 1, side, total, rate, layerScale);
      var prev := StagesUpTo(cfgs, n - 1, side, total, rate, layerScale).value;
      StagesStep(cfgs, n - 1, side, total, rate, layerScale);
      StageBlockIds(n - 1, cfgs[n - 1], side(n - 1), prev.1, total, rate, layerScale);
      var st := Stage(n - 1, cfgs[n - 1], side(n - 1), prev.1, total, rate, layerScale).value;
      AllBlocksSnoc(prev.0, st);
    }
  }

  /** The blocks of a stage starting at `start` carry the ids start, start + 1, ... */
  lemma StageBlockIds(stackId: nat, cfg: StageConfig, side: (int, int), start: nat, total: int, rate: real, layerScale: real)
    requires Stage(stackId, cfg, side, start, total, rate, layerScale).Ok?
    ensures var blocks := Stage(stackId, cfg, side, start, total, rate, layerScale).value.blocks;
      forall k :: 0 <= k < |blocks| ==> blocks[k].globalBlockId == start + k
  {
    StageCases(stackId, cfg, side, start, total, rate, layerScale);
  }

  /** One more stage puts its blocks after those of the stages before it. */
  lemma AllBlocksSnoc(stages: seq<StagePlan>, st: StagePlan)
    ensures AllBlocks(stages + [st]) == AllBlocks(stages) + st.blocks
    ensures forall i :: |AllBlocks(stages)| <= i < |AllBlocks(stages + [st])| ==>
      AllBlocks(stages + [st])[i] == st.blocks[i - |AllBlocks(stages)|]
  {
    var all := stages + [st];
    assert all[..|all| - 1] == stages;
  }

  /** Within every stage, even blocks get no global query and odd blocks get the stage's;
      blocks carry the layer-scale layers exactly when `layer_scale >= 0`. */
  lemma AlternatingGlobalQuery(numBlocks: seq<int>, numHeads: seq<int>, windowRatios: seq<int>, side: nat -> (int, int),
                               rate: real, layerScale: real, s: nat, b: nat)
    requires Stages(numBlocks, numHeads, windowRatios, side, rate, layerScale).Ok?
    requires s < |Stages(numBlocks, numHeads, windowRatios, side, rate, layerScale).value|
    requires b < |Stages(numBlocks, numHeads, windowRatios, side, rate, layerScale).value[s].blocks|
    ensures var blk := Stages(numBlocks, numHeads, windowRatios, side, rate, layerScale).value[s].blocks[b];
      (blk.globalQuery <==> b % 2 == 1) &&
      blk.name == BlockName(s, b) &&
      |blk.gammas| == (if layerScale >= 0.0 then 2 else 0)
  {
    var cfgs := Zip3(numBlocks, numHeads, windowRatios);
    StageAt(cfgs, |cfgs|, side, Sum(numBlocks), rate, layerScale, s);
  }

  /** Stage s of the first n is what `Stage` builds from its own configuration. */
  lemma {:induction false} StageAt(cfgs: seq<StageConfig>, n: nat, side: nat -> (int, int), total: int, rate: real,
                                   layerScale: real, s: nat)
    requires n <= |cfgs|
    requires StagesUpTo(cfgs, n, side, total, rate, layerScale).Ok?
    requires s < n
    ensures exists start: nat ::
      (Stage(s, cfgs[s], side(s), start, total, rate, layerScale) ==
       Ok(StagesUpTo(cfgs, n, side, total, rate, layerScale).value.0[s]))
  {
    var prev := StagesUpTo(cfgs, n - 1, side, total, rate, layerScale).value;
    if s < n - 1 {
      StageAt(cfgs, n - 1, side, total, rate, layerScale, s);
      assert StagesUpTo(cfgs, n, side, total, rate, layerScale).value.0[s] == prev.0[s];
    } else {
      var start := prev.1;
      assert Stage(s, cfgs[s], side(s), start, total, rate, layerScale) ==
        Ok(StagesUpTo(cfgs, n, side, total, rate, layerScale).value.0[s]);
    }
  }

  /** With a non-negative rate, a block whose global id is below the total count has a
      drop rate in [0, rate). */
  lemma DropRateBelowRate(stackId: nat, blockId: nat, heads: int, start: nat, total: int, rate: real, layerScale: real)
    requires total > 0 && start + blockId < total && rate > 0.0
    ensures var d := Block(stackId, blockId, heads, start, total, rate, layerScale).dropRate;
      0.0 <= d < rate
  {
    var id := (start + blockId) as real;
    var t := total as real;
    var d := Block(stackId, blockId, heads, start, total, rate, layerScale).dropRate;
    assert d == rate * id / t;
    FractionBelowOne(id, t);
    RegroupDivision(rate, id, t);
    ScaleBelow(rate, id / t);
  }

  lemma FractionBelowOne(x: real, t: real)
    requires 0.0 <= x < t
    ensures 0.0 <= x / t < 1.0
  {
    var f := x / t;
    assert f * t == x;
  }

  lemma RegroupDivision(a: real, x: real, t: real)
    requires t > 0.0
    ensures a * x / t == a * (x / t)
  {
  }

  lemma ScaleBelow(a: real, f: real)
    requires a > 0.0 && 0.0 <= f < 1.0
    ensures 0.0 <= a * f < a
  {
  }
}
