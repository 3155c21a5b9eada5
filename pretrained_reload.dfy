/** `reload_model_weights` and the decisions inside `load_weights_with_mismatch` and
    `load_weights_from_hdf5_file`: which pretrained file to fetch for a model (a plain hash,
    a list of piece hashes, or a dict of hashes keyed by input resolution), which URLs and
    file names that gives, when mismatched layers are reloaded with resizing, and when a
    layer of an h5 file is skipped. Downloading is a parameter that may fail. */
module PretrainedReload {
  import opened Wrappers
  import opened PyMath
  import opened PySeq
  import opened OrderedDicts
  import opened Backend

  /** A release file hash: one file, or a weight file split into numbered pieces. */
  datatype FileHash = Hash(hash: string) | Pieces(hashes: seq<string>)

  /** A `pretrained_dict[model_name][pretrained]` entry. */
  datatype HashEntry = Plain(file: FileHash) | ByResolution(byRes: ODict<int, FileHash>)

  type PretrainedDict = map<string, map<string, HashEntry>>

  /** `load_weights_with_mismatch(model, file, ..., force_reload_mismatch, request_resolution)`. */
  datatype LoadCall = LoadCall(file: string, force: bool, resolution: int)

  /** What the call returns: `None`, the given path, `pretrained_model[0]` (the first
      character of the only downloaded path), or the list of downloaded paths. */
  datatype Returned = NoneReturned | Path(path: string) | FirstChar(c: char) | Paths(paths: seq<string>)

  /** The weight files loaded, in order, and the return value. */
  datatype Reload = Reload(loads: seq<LoadCall>, ret: Returned)

  function Dist(a: int, b: int): nat
  {
    if a >= b then a - b else b - a
  }

  /** `max(keys)`. */
  function MaxOf(keys: seq<int>): (m: int)
    requires |keys| > 0
    ensures m in keys
    ensures forall j :: 0 <= j < |keys| ==> keys[j] <= m
  {
    if |keys| == 1 then keys[0]
    else
      var m := MaxOf(keys[1..]);
      assert forall j :: 1 <= j < |keys| ==> keys[j] == keys[1..][j - 1];
      if keys[0] >= m then keys[0] else m
  }

  /** `min(keys, key=lambda ii: abs(ii - h))`: the position of the first key closest to h. */
  function FirstClosest(keys: seq<int>, h: int): (i: nat)
    requires |keys| > 0
    ensures i < |keys|
    ensures forall j :: 0 <= j < |keys| ==> Dist(keys[i], h) <= Dist(keys[j], h)
    ensures forall j :: 0 <= j < i ==> Dist(keys[i], h) < Dist(keys[j], h)
  {
    if |keys| == 1 then 0
    else
      var i := FirstClosest(keys[1..], h);
      assert forall j :: 1 <= j < |keys| ==> keys[j] == keys[1..][j - 1];
      if Dist(keys[0], h) <= Dist(keys[1 + i], h) then 0 else 1 + i
  }

  /** The resolution picked from the keys of a resolution dict when none is requested:
      the largest key for an unknown input height, else the first key closest to it.
      `max`/`min` of no keys raise ValueError. */
  function ChooseResolution(keys: seq<int>, height: Dim): (r: Result<int>)
    ensures r.Ok? <==> |keys| > 0
    ensures r.Ok? ==> r.value in keys
    ensures r.Ok? && height.None? ==> forall j :: 0 <= j < |keys| ==> keys[j] <= r.value
    ensures r.Ok? && height.Some? ==>
      (exists i :: 0 <= i < |keys| && keys[i] == r.value
        && (forall j :: 0 <= j < |keys| ==> Dist(r.value, height.value) <= Dist(keys[j], height.value))
        && (forall j :: 0 <= j < i ==> Dist(r.value, height.value) < Dist(keys[j], height.value)))
  {
    if |keys| == 0 then Err(ValueError)
    else if height.None? then Ok(MaxOf(keys))
    else Ok(keys[FirstClosest(keys, height.value)])
  }

  /** The resolution, file-name stem and hash to fetch. A plain hash defaults the
      resolution to 224; a resolution dict prefixes the stem with `"{res}_"`. An explicit
      request that is not a key of the dict raises KeyError, and so does a chosen key
      whose hash is missing. The input height is `model.input_shape[2]`. */
  function ChooseFile(entry: HashEntry, inputShape: seq<Dim>, pretrained: string, request: int)
    : (r: Result<(int, string, FileHash)>)
    ensures entry.Plain? ==> r == Ok((if request == -1 then 224 else request, pretrained, entry.file))
    ensures entry.ByResolution? && r.Ok? ==>
      && r.value.1 == IntToString(r.value.0) + "_" + pretrained
      && r.value.0 in entry.byRes.vals && r.value.2 == entry.byRes.vals[r.value.0]
      && (request != -1 ==> r.value.0 == request)
      && (request == -1 ==> r.value.0 in entry.byRes.keys)
      && (request == -1 ==> Index(inputShape, 2).Ok?)
      && (request == -1 ==> ChooseResolution(entry.byRes.keys, Index(inputShape, 2).value) == Ok(r.value.0))
  {
    match entry
    case Plain(f) => Ok((if request == -1 then 224 else request, pretrained, f))
    case ByResolution(d) =>
      var res :- if request == -1 then
          var h :- Index(inputShape, 2);
          ChooseResolution(d.keys, h)
        else Ok(request);
      match Get(d, res)
      case None => Err(KeyError)
      case Some(f) => Ok((res, IntToString(res) + "_" + pretrained, f))
  }

  const ReleasePrefix: string := "https://github.com/leondgarse/keras_cv_attention_models/releases/download/"

  function SingleUrl(sub: string, model: string, stem: string): string
  {
    ReleasePrefix + sub + "/" + model + "_" + stem + ".h5"
  }

  /** Piece n (counted from 1) of a split weight file. */
  function PieceUrl(sub: string, model: string, stem: string, n: nat): string
  {
    ReleasePrefix + sub + "/" + model + "_" + stem + "." + NatToString(n) + ".h5"
  }

  /** `os.path.basename`: the part after the last "/". */
  function Basename(path: string): (r: string)
    ensures '/' !in r
  {
    match LastIndexOf(path, '/')
    case None => path
    case Some(i) =>
      var r := path[i + 1..];
      assert forall j :: 0 <= j < |r| ==> r[j] == path[i + 1 + j];
      r
  }

  lemma BasenameAfterSlash(a: string, b: string)
    requires '/' !in b
    ensures Basename(a + "/" + b) == b
  {
    var s := a + "/" + b;
    assert s[|a|] == '/';
    assert forall j :: |a| < j < |s| ==> s[j] == b[j - |a| - 1];
    assert LastIndexOf(s, '/') == Some(|a|);
    assert s[|a| + 1..] == b;
  }

  /** The files to fetch: (file name, url, hash) for each piece, numbered 1..n. */
  function Downloads(sub: string, model: string, stem: string, f: FileHash): (r: seq<(string, string, string)>)
    ensures f.Hash? ==> |r| == 1 && r[0].1 == SingleUrl(sub, model, stem) && r[0].2 == f.hash
    ensures f.Pieces? ==>
      (|r| == |f.hashes|
        && forall n :: 0 <= n < |r| ==> r[n].1 == PieceUrl(sub, model, stem, n + 1) && r[n].2 == f.hashes[n])
    ensures forall n :: 0 <= n < |r| ==> r[n].0 == Basename(r[n].1)
  {
    match f
    case Hash(h) =>
      var url := SingleUrl(sub, model, stem);
      [(Basename(url), url, h)]
    case Pieces(hs) =>
      seq(|hs|, n requires 0 <= n < |hs| =>
        var url := PieceUrl(sub, model, stem, n + 1);
        (Basename(url), url, hs[n]))
  }

  /** With no "/" in the model name or the stem, the file name is `{model}_{stem}.h5`, and
      piece n is `{model}_{stem}.{n}.h5`; distinct pieces get distinct file names. */
  lemma DownloadFileNames(sub: string, model: string, stem: string, f: FileHash)
    requires '/' !in model && '/' !in stem
    ensures var r := Downloads(sub, model, stem, f);
      && (f.Hash? ==> r[0].0 == model + "_" + stem + ".h5")
      && (f.Pieces? ==> forall n :: 0 <= n < |r| ==> r[n].0 == PieceName(model, stem, n + 1))
      && (f.Pieces? ==> forall m, n :: 0 <= m < n < |r| ==> r[m].0 != r[n].0)
  {
    match f
    case Hash(h) =>
      HashFileName(sub, model, stem, h);
    case Pieces(hs) =>
      PieceFileNames(sub, model, stem, hs);
      PieceFileNamesDistinct(sub, model, stem, hs);
  }

  lemma PieceFileNamesDistinct(sub: string, model: string, stem: string, hs: seq<string>)
    requires '/' !in model && '/' !in stem
    ensures var r := Downloads(sub, model, stem, Pieces(hs));
      forall m, n :: 0 <= m < n < |r| ==> r[m].0 != r[n].0
  {
    var r := Downloads(sub, model, stem, Pieces(hs));
    PieceFileNames(sub, model, stem, hs);
    forall m, n | 0 <= m < n < |r|
      ensures r[m].0 != r[n].0
    {
      var a, b := PieceName(model, stem, m + 1), PieceName(model, stem, n + 1);
      PieceNamesDiffer(model, stem, m + 1, n + 1);
      assert r[m].0 == a && r[n].0 == b && a != b;
    }
  }

  lemma HashFileName(sub: string, model: string, stem: string, h: string)
    requires '/' !in model && '/' !in stem
    ensures Downloads(sub, model, stem, Hash(h))[0].0 == model + "_" + stem + ".h5"
  {
    var name := model + "_" + stem + ".h5";
    assert SingleUrl(sub, model, stem) == (ReleasePrefix + sub) + "/" + name;
    assert '/' !in name;
    BasenameAfterSlash(ReleasePrefix + sub, name);
  }

  lemma PieceFileNames(sub: string, model: string, stem: string, hs: seq<string>)
    requires '/' !in model && '/' !in stem
    ensures var r := Downloads(sub, model, stem, Pieces(hs));
      forall n :: 0 <= n < |r| ==> r[n].0 == PieceName(model, stem, n + 1)
  {
    var r := Downloads(sub, model, stem, Pieces(hs));
    forall n | 0 <= n < |r|
      ensures r[n].0 == PieceName(model, stem, n + 1)
    {
      PieceBasename(sub, model, stem, n + 1);
    }
  }

  /** The file name of piece n. */
  function PieceName(model: string, stem: string, n: nat): string
  {
    model + "_" + stem + "." + NatToString(n) + ".h5"
  }

  lemma PieceBasename(sub: string, model: string, stem: string, n: nat)
    requires '/' !in model && '/' !in stem
    ensures Basename(PieceUrl(sub, model, stem, n)) == PieceName(model, stem, n)
  {
    var tail := PieceName(model, stem, n);
    assert PieceUrl(sub, model, stem, n) == (ReleasePrefix + sub) + "/" + tail;
    assert '/' !in tail;
    BasenameAfterSlash(ReleasePrefix + sub, tail);
  }

  lemma PieceNamesDiffer(model: string, stem: string, m: nat, n: nat)
    requires m != n
    ensures PieceName(model, stem, m) != PieceName(model, stem, n)
  {
    if PieceName(model, stem, m) == PieceName(model, stem, n) {
      MiddleCancel(model + "_" + stem + ".", NatToString(m), NatToString(n), ".h5");
      NatToStringInjective(m, n);
    }
  }

  /** Equal strings with the same prefix and suffix have the same middle part. */
  lemma MiddleCancel(x: string, d1: string, d2: string, y: string)
    requires x + d1 + y == x + d2 + y
    ensures d1 == d2
  {
    var s := x + d1 + y;
    assert |d1| == |d2|;
    assert d1 == s[|x|..|x| + |d1|];
  }

  /** Fetches the files in order and loads each one after it arrives; the first failed
      download stops the loop, keeping the loads already done. */
  function FetchAll(files: seq<(string, string, string)>, fetch: (string, string, string) -> Option<string>,
                    force: bool, res: int): (r: (seq<LoadCall>, Option<seq<string>>))
    ensures |r.0| <= |files|
    ensures r.1.Some? ==>
      (|r.1.value| == |files| && |r.0| == |files|
        && forall i :: 0 <= i < |files| ==>
          (r.0[i] == LoadCall(r.1.value[i], force, res)
            && fetch(files[i].0, files[i].1, files[i].2) == Some(r.1.value[i])))
    ensures r.1.None? <==> exists i :: 0 <= i < |files| && fetch(files[i].0, files[i].1, files[i].2).None?
  {
    if files == [] then ([], Some([]))
    else
      match fetch(files[0].0, files[0].1, files[0].2)
      case None => ([], None)
      case Some(path) =>
        var (loads, paths) := FetchAll(files[1..], fetch, force, res);
        assert forall i :: 1 <= i < |files| ==> files[i] == files[1..][i - 1];
        ([LoadCall(path, force, res)] + loads, if paths.Some? then Some([path] + paths.value) else None)
  }

  /** When fetch f is the first to fail, the call returns None after loading exactly the
      f files fetched before it, in order. */
  lemma {:induction false} FetchStopsAtFirstFailure(files: seq<(string, string, string)>,
                                                    fetch: (string, string, string) -> Option<string>,
                                                    force: bool, res: int, f: nat)
    requires f < |files| && FailsFirstAt(files, fetch, f)
    ensures var r := FetchAll(files, fetch, force, res);
      r.1.None? && |r.0| == f &&
      forall i :: 0 <= i < f ==> r.0[i] == LoadCall(fetch(files[i].0, files[i].1, files[i].2).value, force, res)
  {
    if f > 0 {
      var rest := files[1..];
      assert forall i :: 0 <= i < f - 1 ==> rest[i] == files[i + 1];
      assert FailsFirstAt(rest, fetch, f - 1);
      FetchStopsAtFirstFailure(rest, fetch, force, res, f - 1);
      assert fetch(files[0].0, files[0].1, files[0].2).Some?;
    }
  }

  /** Fetch f is the first one that fails. */
  predicate FailsFirstAt(files: seq<(string, string, string)>, fetch: (string, string, string) -> Option<string>, f: nat)
    requires f < |files|
  {
    && fetch(files[f].0, files[f].1, files[f].2).None?
    && forall i :: 0 <= i < f ==> fetch(files[i].0, files[i].1, files[i].2).Some?
  }

  /** `reload_model_weights`. `pretrained` is `None` when the argument is not a str. */
  function ReloadModelWeights(model: string, inputShape: seq<Dim>, dict: PretrainedDict, sub: string,
                              pretrained: Option<string>, force: bool, request: int,
                              fetch: (string, string, string) -> Option<string>): (r: Result<Reload>)
    ensures pretrained.None? ==> r == Ok(Reload([], NoneReturned))
    ensures pretrained.Some? && EndsWith(pretrained.value, ".h5") ==>
      r == Ok(Reload([LoadCall(pretrained.value, false, request)], Path(pretrained.value)))
    ensures (pretrained.Some? && !EndsWith(pretrained.value, ".h5")
      && (model !in dict || pretrained.value !in dict[model])) ==> r == Ok(Reload([], NoneReturned))
  {
    match pretrained
    case None => Ok(Reload([], NoneReturned))
    case Some(p) =>
      if EndsWith(p, ".h5") then Ok(Reload([LoadCall(p, false, request)], Path(p)))
      else if model !in dict || p !in dict[model] then Ok(Reload([], NoneReturned))
      else
        var (res, stem, f) :- ChooseFile(dict[model][p], inputShape, p, request);
        var (loads, paths) := FetchAll(Downloads(sub, model, stem, f), fetch, force, res);
        match paths
        case None => Ok(Reload(loads, NoneReturned))
        case Some(ps) =>
          if |ps| == 1 then
            var c :- Index(ps[0], 0);
            Ok(Reload(loads, FirstChar(c)))
          else Ok(Reload(loads, Paths(ps)))
  }

  /** A plain hash with no requested resolution loads its single file at resolution 224,
      and a successful download returns the first character of the path rather than the
      path. */
  lemma PlainDefaultsTo224(model: string, inputShape: seq<Dim>, dict: PretrainedDict, sub: string,
                           p: string, force: bool, fetch: (string, string, string) -> Option<string>,
                           h: string, path: string)
    requires !EndsWith(p, ".h5") && model in dict && p in dict[model]
    requires dict[model][p] == Plain(Hash(h))
    requires var u := SingleUrl(sub, model, p);
      fetch(Basename(u), u, h) == Some(path)
    requires |path| > 0
    ensures ReloadModelWeights(model, inputShape, dict, sub, Some(p), force, -1, fetch)
      == Ok(Reload([LoadCall(path, force, 224)], FirstChar(path[0])))
  {
    assert ChooseFile(dict[model][p], inputShape, p, -1) == Ok((224, p, Hash(h)));
    var u := SingleUrl(sub, model, p);
    var files := Downloads(sub, model, p, Hash(h));
    assert files == [(Basename(u), u, h)];
    assert files[1..] == [];
    assert FetchAll(files[1..], fetch, force, 224) == ([], Some([]));
    assert fetch(files[0].0, files[0].1, files[0].2) == Some(path);
    assert [LoadCall(path, force, 224)] + [] == [LoadCall(path, force, 224)];
    assert [path] + [] == [path];
    assert FetchAll(files, fetch, force, 224) == ([LoadCall(path, force, 224)], Some([path]));
  }

  /** A resolution dict and an input of unknown height fetch the largest resolution, under
      the stem `"{res}_{pretrained}"`. */
  lemma UnknownHeightTakesLargest(entry: HashEntry, inputShape: seq<Dim>, p: string)
    requires entry.ByResolution? && |inputShape| > 2 && inputShape[2].None?
    requires ChooseFile(entry, inputShape, p, -1).Ok?
    ensures var (res, stem, _) := ChooseFile(entry, inputShape, p, -1).value;
      res in entry.byRes.keys && stem == IntToString(res) + "_" + p
      && forall j :: 0 <= j < |entry.byRes.keys| ==> entry.byRes.keys[j] <= res
  {
  }

  /** `(input_height, input_width)` as `load_weights_with_mismatch` reads them: `-1` for a
      model whose input is not 4-D. */
  function InputHeightWidth(inputShape: seq<Dim>, fmt: ImageDataFormat): (r: (Dim, Dim))
    ensures |inputShape| != 4 ==> r == (Some(-1), Some(-1))
  {
    if |inputShape| == 4 && fmt == ChannelsFirst then (inputShape[2], inputShape[3])
    else if |inputShape| == 4 then (inputShape[1], inputShape[2])
    else (Some(-1), Some(-1))
  }

  /** `request_resolution != input_height`: an int never equals `None`. */
  predicate Differs(request: int, d: Dim)
  {
    d.None? || d.value != request
  }

  /** Whether layers of the mismatch classes are reloaded with resized weights. */
  predicate ReloadMismatched(hasMismatchClass: bool, force: bool, request: int, inputShape: seq<Dim>, fmt: ImageDataFormat)
  {
    var (h, w) := InputHeightWidth(inputShape, fmt);
    hasMismatchClass && (force || Differs(request, h) || Differs(request, w))
  }

  /** With the request left at its default of -1, every image model with a mismatch class
      is reloaded, since no input size is -1, and no other model is unless forced. */
  lemma DefaultRequestReload(hasMismatchClass: bool, force: bool, inputShape: seq<Dim>, fmt: ImageDataFormat)
    requires forall i :: 0 <= i < |inputShape| && inputShape[i].Some? ==> inputShape[i].value >= 0
    ensures |inputShape| == 4 ==> (ReloadMismatched(hasMismatchClass, force, -1, inputShape, fmt) <==> hasMismatchClass)
    ensures |inputShape| != 4 ==> (ReloadMismatched(hasMismatchClass, force, -1, inputShape, fmt) <==> hasMismatchClass && force)
  {
    if |inputShape| == 4 {
      if fmt == ChannelsFirst {
        assert Differs(-1, inputShape[2]);
      } else {
        assert Differs(-1, inputShape[1]);
      }
    }
  }

  /** An unforced load whose request equals both the input height and width keeps the
      mismatched layers as loaded. */
  lemma MatchingRequestNoReload(hasMismatchClass: bool, request: int, inputShape: seq<Dim>, fmt: ImageDataFormat)
    requires InputHeightWidth(inputShape, fmt) == (Some(request), Some(request))
    ensures !ReloadMismatched(hasMismatchClass, false, request, inputShape, fmt)
  {
  }

  /** An image model whose input height or width is unknown has its mismatched layers
      reloaded whatever the request, since an int never equals `None`. */
  lemma UnknownSizeReloads(force: bool, request: int, inputShape: seq<Dim>, fmt: ImageDataFormat)
    requires |inputShape| == 4
    requires InputHeightWidth(inputShape, fmt).0.None? || InputHeightWidth(inputShape, fmt).1.None?
    ensures ReloadMismatched(true, force, request, inputShape, fmt)
  {
  }

  /** A model whose input is not 4-D is reloaded for any request other than -1. */
  lemma NonImageExplicitRequestReloads(force: bool, request: int, inputShape: seq<Dim>, fmt: ImageDataFormat)
    requires |inputShape| != 4 && request != -1
    ensures ReloadMismatched(true, force, request, inputShape, fmt)
  {
  }

  /** `skip_mismatch` in `load_weights_from_hdf5_file`: skip when the weight counts differ
      or some pair of weights holds different numbers of elements. */
  predicate SkipLayer(skipMismatch: bool, source: seq<seq<int>>, target: seq<seq<int>>)
  {
    skipMismatch && (|source| != |target| || exists i :: 0 <= i < |source| && i < |target| && Prod(source[i]) != Prod(target[i]))
  }

  /** Only element counts are compared: weights whose axes are permuted, as between torch
      and Keras layouts, are never skipped. */
  lemma SkipIgnoresAxisOrder(skipMismatch: bool, source: seq<seq<int>>, target: seq<seq<int>>)
    requires |source| == |target|
    requires forall i :: 0 <= i < |source| ==> multiset(source[i]) == multiset(target[i])
    ensures !SkipLayer(skipMismatch, source, target)
  {
    forall i | 0 <= i < |source|
      ensures Prod(source[i]) == Prod(target[i])
    {
      ProdPermutation(source[i], target[i]);
    }
  }

  /** A layer of the model as the h5 loader sees it: its name and its weight shapes. */
  datatype ModelLayer = ModelLayer(name: string, shapes: seq<seq<int>>)

  /** Whether the loop of `load_weights_from_hdf5_file` sets the weights of a layer. */
  predicate LoadsLayer(layer: ModelLayer, file: map<string, seq<seq<int>>>, skipMismatch: bool)
  {
    |layer.shapes| > 0 && layer.name in file && !SkipLayer(skipMismatch, file[layer.name], layer.shapes)
  }

  /** The names of the layers whose weights are set, in model order. */
  function LoadedLayers(layers: seq<ModelLayer>, file: map<string, seq<seq<int>>>, skipMismatch: bool): (r: seq<string>)
    ensures |r| <= |layers|
    ensures forall x :: x in r <==> exists i :: 0 <= i < |layers| && layers[i].name == x && LoadsLayer(layers[i], file, skipMismatch)
  {
    if layers == [] then []
    else
      var rest := LoadedLayers(layers[1..], file, skipMismatch);
      assert forall i :: 1 <= i < |layers| ==> layers[i] == layers[1..][i - 1];
      if LoadsLayer(layers[0], file, skipMismatch) then [layers[0].name] + rest else rest
  }

  /** The loaded names keep the model's layer order: those of an earlier run of layers
      come before those of a later one. */
  lemma {:induction false} LoadedLayersInOrder(a: seq<ModelLayer>, b: seq<ModelLayer>, file: map<string, seq<seq<int>>>, skipMismatch: bool)
    ensures LoadedLayers(a + b, file, skipMismatch) == LoadedLayers(a, file, skipMismatch) + LoadedLayers(b, file, skipMismatch)
  {
    if a == [] {
      assert a + b == b;
    } else {
      assert (a + b)[1..] == a[1..] + b;
      LoadedLayersInOrder(a[1..], b, file, skipMismatch);
    }
  }
}
