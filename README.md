# keras_cv_attention_models: a verified model of its bookkeeping

keras_cv_attention_models is a zoo of vision and language networks built for Keras and
for its own PyTorch backend. Most of it builds graphs out of framework layers. Around
those graphs sits bookkeeping that is plain integer, sequence and dictionary logic. This
project models that bookkeeping in Dafny and proves what the code promises about it:

- **Weight transplantation** (`download_and_load.py`). This covers grouping a torch state
  dict by layer, re-ordering Keras layer names so they line up with torch's, choosing the
  pretrained resolution and file names, the reload and skip rules for mismatched layers,
  the HDF5 attribute chunking loop, and the torch-to-Keras weight layouts. The modules are
  `StateDictStack`, `LayerNameAlign`, `PretrainedReload`, `Hdf5Attributes` and
  `TorchWeightLayout`.
- **Shape and index arithmetic.** `Backend` models `image_data_format`,
  `align_input_shape_by_image_data_format` and the rank guard of `numpy_image_resize`.
  `Functional` models the torch backend's `split`, `repeat`, `gather` and `unstack`.
- **Positional embeddings** (`Beit`). This covers the BEiT relative-position index table
  with its class-token row and column, how `load_resized_weights` carries the class-token
  entries over, the rotary pair rotation, and the `attention_block` width and bias flags.
- **GPT-2 helpers** (`Gpt2`). This covers the causal mask, the positional index, the
  generation loop's context crop, top-k masking and token appending, and the grouping in
  `load_weights_from_huggingface`.
- **Planning rules.** `Cmt` models the CMT bias-shape and grid-size computation.
  `Gcvit` models the GCViT global-query down-sampling plan, window size, and the
  alternating global query of its block loop.

Shared modules make Python's semantics explicit:

- `Wrappers` has `Option` and `Result`. Python exceptions are values of `PyError`, not
  preconditions.
- `PyMath` has floor and truncating division, the integer square root behind
  `int(float(n) ** 0.5)`, and decimal formatting.
- `PySeq` has negative indexing, slice clamping, `list.insert` and `str.split`/`join`.
- `OrderedDicts` has the insertion-ordered dict.
- `Tensors` has the tensor as a shape plus an element function.

Code that updates state step by step is modelled by methods with loops or by classes. The
methods are proved equal to specification functions, and the properties are proved about
those functions. Examples:

- the name-alignment insert/pop loop;
- the state-dict grouping loops;
- the chunk-count loop;
- the in-place top-k mask;
- the GPT-2 generation loop;
- CMT's `bb_shape` loop;
- the GCViT doubling loop and block counter;
- the BEiT and CMT embedding layers.

Integers are unbounded. A float expression the code truncates to an integer is modelled
exactly on integers: `int(float(n) ** 0.5)` becomes the floor square root, and
`int(float(a) / b)` becomes truncating division.

## Model

| member | source | states |
|---|---|---|
| Backend.ImageDataFormatOf | keras_cv_attention_models/backend.py:36-40 | the torch backend is always channels first; TensorFlow reports its configured format |
| Backend.FirstKnown | keras_cv_attention_models/backend.py:74-75 | the channel axis of a shape with an unknown entry is the first known entry, or 0 when every entry is unknown |
| Backend.FirstArgMin | keras_cv_attention_models/backend.py:76-77 | on a fully known shape the channel axis holds a least entry, and no earlier entry is as small (first minimum wins) |
| Backend.AlignInputShape | keras_cv_attention_models/backend.py:70-82 | a 4-D shape drops its first entry; otherwise the channel entry moves last (channels last) or first (channels first) and the other entries keep their order; an empty shape is a ValueError and a 1-D shape an IndexError |
| Backend.AlignIsPermutation | keras_cv_attention_models/backend.py:78-79 | re-aligning a shape that is not 4-D keeps the same multiset of entries |
| Backend.AlignDocumentedExamples | keras_cv_attention_models/backend.py:55-67 | the four documented examples under the torch backend give the documented results |
| Backend.AlignedEntry | keras_cv_attention_models/backend.py:78-79 | every aligned entry outside the channel slot is some input entry other than the channel entry |
| Backend.AlignIdempotentKnown | keras_cv_attention_models/backend.py:70-82 | a fully known shape with a unique least entry is unchanged by aligning a second time |
| Backend.AlignedUniqueMin | keras_cv_attention_models/backend.py:70-82 | after one alignment of a fully known shape with a unique least entry, that entry sits at the target end (last for channels last, first for channels first) and is still the unique least one |
| Backend.AlignChannelInPlace | keras_cv_attention_models/backend.py:70-82 | a shape whose channel axis already sits at the target end comes back unchanged |
| Backend.AlignIdempotentUnknownFirst | keras_cv_attention_models/backend.py:74-79 | under channels first, a shape with an unknown entry is also unchanged by a second alignment |
| Backend.AlignNotIdempotentUnknownLast | keras_cv_attention_models/backend.py:74-79 | under channels last, `[None, 5, 3]` and `[None, 3, 5]` align to each other, so alignment is not idempotent there |
| Backend.ImageResizeShape | keras_cv_attention_models/backend.py:93-95 | the rank guard accepts exactly ranks 2 to 4; the rejection raises NameError, because the message names an undefined variable |
| Backend.ImageResizeKeepsRank | keras_cv_attention_models/backend.py:97-115 | for ranks 2 to 4, in either source layout and under either backend format, the result keeps the input's rank and every non-spatial entry, and the two spatial axes take the target size |
| Functional.SplitSizes | keras_cv_attention_models/pytorch_backend/functional.py:219-230 | an int argument takes the count rule and a list takes the size-list rule |
| Functional.CountSizes | keras_cv_attention_models/pytorch_backend/functional.py:219-222 | a count k > 0 gives k sizes of ceil(n / k); a count of 0 is a ZeroDivisionError; a negative count gives no sizes |
| Functional.ListSizes | keras_cv_attention_models/pytorch_backend/functional.py:223-230 | `None` and -1 become 0; two literal zeros in the list as given fail the assertion; with no literal zero the mapped list is used unchanged |
| Functional.ListSizesOneZero | keras_cv_attention_models/pytorch_backend/functional.py:229-230 | with exactly one literal 0, size i is the axis length minus the sum of the normalised sizes when size i reads as unknown (`None`, -1 or 0), and size i itself otherwise |
| Functional.SplitSeq | keras_cv_attention_models/pytorch_backend/functional.py:232-235 | one piece per size, each the Python slice between the running sums |
| Functional.SplitFlatten | keras_cv_attention_models/pytorch_backend/functional.py:232-235 | with non-negative sizes the pieces are contiguous and together hold the first min(sum, n) elements |
| Functional.SplitCount | keras_cv_attention_models/pytorch_backend/functional.py:219-222 | a count k > 0 gives k pieces; piece i covers [min(i·s, n), min((i+1)·s, n)) with s = ceil(n / k), and the pieces cover the whole axis |
| Functional.SplitFiveThree | keras_cv_attention_models/pytorch_backend/functional.py:220 | an axis of 5 split 3 ways gives pieces of 2, 2 and 1, as the source's comment says |
| Functional.SplitSingleZeroCovers | keras_cv_attention_models/pytorch_backend/functional.py:226-230 | a list with one literal 0 and no `None` or -1 is filled so that the sizes add up to the axis length |
| Functional.SplitMinusOneAsWritten | keras_cv_attention_models/pytorch_backend/functional.py:225-230 | as written, `[1, -1]` becomes `[1, 0]` and the second piece is empty; the intended sizes `[1, n-1]` cover the axis |
| Functional.MinusOneSizes | keras_cv_attention_models/pytorch_backend/functional.py:225-230 | for the sizes `[1, -1]` on an axis of n, the code as written yields `[1, 0]` and the intended reading yields `[1, n - 1]` |
| Functional.ListSizesIntended | keras_cv_attention_models/pytorch_backend/functional.py:225-230 | corrected rule: the unknown count is taken on the mapped list, so `None`, -1 and 0 each mark the size to infer |
| Functional.IntendedSizesCover | keras_cv_attention_models/pytorch_backend/functional.py:225-230 | with exactly one size to infer, the corrected sizes add up to the axis length |
| Functional.SplitAxis | keras_cv_attention_models/pytorch_backend/functional.py:215-234 | -1 becomes the last axis; another negative axis reads its size from the end but slices axis 0; an axis out of range is an IndexError |
| Functional.SplitShapes | keras_cv_attention_models/pytorch_backend/functional.py:214-235 | the shapes exist exactly when the axis and the sizes do; there is one piece per size, each of the input's rank; piece j is as long on the sliced axis as the j-th slice of that axis, and every other axis keeps its size |
| Functional.SplitNegativeAxisSlicesFirst | keras_cv_attention_models/pytorch_backend/functional.py:215-235 | splitting axis -2 of a [2, 6, 4] tensor 3 ways reads 6 but slices axis 0 into 2, 0 and 0 rows |
| Functional.SplitAxisIntended | keras_cv_attention_models/pytorch_backend/functional.py:215-235 | as intended, any axis in `[-rank, rank)` is accepted and counted from the end when negative, and the axis the size is read from is the axis that is sliced; any other axis is an error |
| Functional.SplitAxisIntendedAgrees | keras_cv_attention_models/pytorch_backend/functional.py:215-235 | the written and intended axis agree for every axis from -1 up; below -1 both read the same size, but the written one slices axis 0 and the intended one slices axis `rank + axis`, which differ whenever the axis is above `-rank` |
| Functional.ClassTokenSplit | keras_cv_attention_models/beit/beit.py:95-96 | on a `[batch, heads, tokens, channels]` tensor, the written `split(x, [1, -1], axis=-2)` slices the batch axis with sizes `[1, 0]`, while the intended one slices the token axis into `[1, tokens - 1]` |
| Functional.RepeatByExpand | keras_cv_attention_models/pytorch_backend/functional.py:171-175 | the torch construction has length n·r, and element j is element j div r of the input |
| Functional.RepeatEachAt | keras_cv_attention_models/pytorch_backend/functional.py:168 | copy c of element i of `tf.repeat` sits at i·r + c |
| Functional.RepeatMatchesTf | keras_cv_attention_models/pytorch_backend/functional.py:165-170 | the torch construction equals `tf.repeat`, as the docstring claims |
| Functional.RepeatShape | keras_cv_attention_models/pytorch_backend/functional.py:171-175 | the repeated axis grows r-fold and every other axis keeps its size; a count of -1 succeeds, leaving the shape as it was, exactly when the axis is empty, or has size 1 and no other axis is empty; every other negative count fails |
| Functional.GatherAxis | keras_cv_attention_models/pytorch_backend/functional.py:72-73 | `None` means `batch_dims`; a negative axis counts from the end |
| Functional.WrapIndices | keras_cv_attention_models/pytorch_backend/functional.py:74-75 | negative indices wrap once; an index out of range is an IndexError |
| Functional.WrapIndex | keras_cv_attention_models/pytorch_backend/functional.py:74-75 | one entry succeeds exactly when it lies in [-n, n), and then names the position it counts to from the front or the back |
| Functional.Gather | keras_cv_attention_models/pytorch_backend/functional.py:71-75 | the gathered axis is replaced by one entry per index, and everything else keeps its shape |
| Functional.GatherAt | keras_cv_attention_models/pytorch_backend/functional.py:74-75 | each gathered element is the source element at the listed (wrapped) index on the gathered axis |
| Functional.WrapTable | keras_cv_attention_models/pytorch_backend/functional.py:74-75 | an index table is accepted exactly when every entry lies in `[-n, n)`, and each row is wrapped as a list of indices is |
| Functional.GatherTable | keras_cv_attention_models/pytorch_backend/functional.py:71-75 | with a 2-D index table the gathered axis is replaced by the table's rows and columns, and everything else keeps its shape; any entry out of range is an IndexError |
| Functional.GatherTableRow | keras_cv_attention_models/pytorch_backend/functional.py:74-75 | element q of a table gather is the element of gathering the table's row q[b] alone, found by dropping q's row position |
| Functional.GatherTableByRow | keras_cv_attention_models/pytorch_backend/functional.py:74-75 | on the wrapped table, entry (i, j) of the gathered axis is entry j of gathering row i |
| Functional.Unstack | keras_cv_attention_models/pytorch_backend/functional.py:254-260 | one tensor per index along the normalised axis, each one rank lower |
| Functional.UnstackAt | keras_cv_attention_models/pytorch_backend/functional.py:259-260 | piece i holds the elements whose index on the axis is i |
| StateDictStack.StripIndexSuffix | keras_cv_attention_models/download_and_load.py:220-221 | a name whose second-last character is ':' loses its last two characters; other names are kept; a name shorter than two characters is an IndexError |
| StateDictStack.SplitToken | keras_cv_attention_models/download_and_load.py:222 | names containing '/' split on '/', all others on '.' |
| StateDictStack.LayerAndLeafRebuild | keras_cv_attention_models/download_and_load.py:223-232 | layer name, separator and last component spell the name again, and the last component holds no separator |
| StateDictStack.Classify | keras_cv_attention_models/download_and_load.py:220-233 | an entry is skipped exactly when its last component is in `skip_weights`; otherwise it is unstacked under its full key exactly when that component is in `unstack_weights`; otherwise it is grouped under its layer name |
| StateDictStack.Stack | keras_cv_attention_models/download_and_load.py:217-234 | the dict is defined exactly when every name has at least two characters; otherwise the outcome is an IndexError |
| StateDictStack.StateDictStackByLayer | keras_cv_attention_models/download_and_load.py:217-234 | the loop computes exactly `Stack` of the entries, in order |
| StateDictStack.StackErrorPersists | keras_cv_attention_models/download_and_load.py:219-221 | the first badly formed name decides the outcome of the whole call |
| StateDictStack.StackKeyOrder | keras_cv_attention_models/download_and_load.py:229-233 | the output keys are the written keys in order of first occurrence |
| StateDictStack.StackGroups | keras_cv_attention_models/download_and_load.py:232-233 | when no unstacked entry has the layer's name as its full key, the layer's list holds exactly its weights' values in source order |
| StateDictStack.UnstackedStoredAlone | keras_cv_attention_models/download_and_load.py:228-229 | an unstacked entry that no later entry overwrites or appends to leaves exactly `[vv]` under its full key |
| StateDictStack.UnstackedLast | keras_cv_attention_models/download_and_load.py:228-229 | when the last entry is unstacked, its full key holds the one-element list of its value |
| StateDictStack.LastKeeps | keras_cv_attention_models/download_and_load.py:224-233 | a last entry that is skipped or writes another key leaves every other key's list unchanged |
| StateDictStack.GroupEmpty | keras_cv_attention_models/download_and_load.py:232-233 | a layer absent from the dict had no weight grouped under it |
| LayerNameAlign.HeadTailRebuild | keras_cv_attention_models/download_and_load.py:243-246 | head, '_' and tail spell the name again when the split position falls inside the parts |
| LayerNameAlign.CurTailOf | keras_cv_attention_models/download_and_load.py:248 | the tail dict used is `tail_align_dict[stack_name]` when that key exists, else the whole dict |
| LayerNameAlign.LookupTail | keras_cv_attention_models/download_and_load.py:258-259 | a per-stack dict is looked up by tail name; a tail name absent from a flat dict finds nothing |
| LayerNameAlign.Resolve | keras_cv_attention_models/download_and_load.py:252-263 | a negative offset -k means id - k; a non-negative one is the index itself; a name resolves to the index of that name and fails when it is absent |
| LayerNameAlign.FullNamePrecedence | keras_cv_attention_models/download_and_load.py:250-257 | a name in the full-name dict is placed by that dict alone, whatever the tail dict holds |
| LayerNameAlign.Place | keras_cv_attention_models/download_and_load.py:256-267 | one step keeps the length; no alignment writes slot id; an insert at q puts the name at q and shifts the rest right, dropping the last slot |
| LayerNameAlign.MatchLayerNamesWithTorch | keras_cv_attention_models/download_and_load.py:237-268 | the loop computes exactly `Match`, whose result has the input's length |
| LayerNameAlign.MatchOne | keras_cv_attention_models/download_and_load.py:242-267 | one iteration yields the next state of `MatchUpTo`, and a failure there is the outcome of the whole call |
| LayerNameAlign.MatchNext | keras_cv_attention_models/download_and_load.py:242-267 | iteration id fails with its target's error, or places names[id] into the list built so far |
| LayerNameAlign.Match | keras_cv_attention_models/download_and_load.py:237-268 | a successful match returns a list as long as its input, since each step fills one slot or inserts one name and pops one |
| LayerNameAlign.MatchErrorPersists | keras_cv_attention_models/download_and_load.py:242-265 | once a step fails, the whole call fails the same way |
| LayerNameAlign.MatchEmptyDicts | keras_cv_attention_models/download_and_load.py:237-268 | with both dicts empty the names come back unchanged |
| LayerNameAlign.MatchIsPermutation | keras_cv_attention_models/download_and_load.py:242-267 | when every alignment is a backward offset -k with k at most the index, the result is a permutation of the input |
| LayerNameAlign.PlaceFillsSlot | keras_cv_attention_models/download_and_load.py:256-267 | a backward step adds the placed name to the filled prefix and keeps the rest empty |
| LayerNameAlign.FullOffsetPlaces | keras_cv_attention_models/download_and_load.py:250-257 | a full-name entry -k puts the name at index id - k right after its step |
| LayerNameAlign.Passes | keras_cv_attention_models/download_and_load.py:276 | the number of passes is the longer of the position list and the full-name dict list |
| LayerNameAlign.StageArgs | keras_cv_attention_models/download_and_load.py:272-279 | an int position means one pass with the given dicts; pass idx takes the idx-th tail dict, full dict and position, a missing dict being `{}` and a missing position the last one; a single tail dict beside a position list is indexed by the int idx, a KeyError while idx is below its size and `{}` after; an empty position list is an IndexError |
| LayerNameAlign.AlignLayerNamesMultiStage | keras_cv_attention_models/download_and_load.py:271-288 | the loop computes exactly `MultiStage`; without `specific_match_func` the length is kept |
| LayerNameAlign.AlignPass | keras_cv_attention_models/download_and_load.py:276-284 | one pass yields the next state of `MultiUpTo`, and a failure there is the outcome of all passes |
| LayerNameAlign.MultiStage | keras_cv_attention_models/download_and_load.py:271-288 | without `specific_match_func` every pass keeps the length, so the final names are as many as the input names |
| LayerNameAlign.MultiErrorPersists | keras_cv_attention_models/download_and_load.py:276-284 | a failed pass decides the outcome of all later passes |
| LayerNameAlign.MultiErrorStep | keras_cv_attention_models/download_and_load.py:276-284 | a failed pass stays failed through the next one |
| LayerNameAlign.SinglePass | keras_cv_attention_models/download_and_load.py:272-284 | an int split position makes exactly one matching pass |
| LayerNameAlign.MultiEmptyDicts | keras_cv_attention_models/download_and_load.py:276-284 | with every dict empty, any number of passes leaves the names as they are |
| PretrainedReload.MaxOf | keras_cv_attention_models/download_and_load.py:30 | `max` of the keys is one of them and no key exceeds it |
| PretrainedReload.FirstClosest | keras_cv_attention_models/download_and_load.py:32 | `min` with an `abs` key picks a key nearest the height, the first such on ties |
| PretrainedReload.ChooseResolution | keras_cv_attention_models/download_and_load.py:27-32 | with no request, an unknown height takes the largest key and a known one the first nearest key; no keys is a ValueError |
| PretrainedReload.ChooseFile | keras_cv_attention_models/download_and_load.py:25-37 | a plain hash keeps the stem and defaults the resolution to 224; a resolution dict prefixes the stem with `"{res}_"` and takes that resolution's hash; an explicit request is used as given; with no request, the resolution is the one ChooseResolution picks from the dict keys for the input height `input_shape[2]` |
| PretrainedReload.Basename | keras_cv_attention_models/download_and_load.py:51 | the base name holds no '/' |
| PretrainedReload.BasenameAfterSlash | keras_cv_attention_models/download_and_load.py:51 | the base name of `a/b` is `b` when `b` holds no '/' |
| PretrainedReload.Downloads | keras_cv_attention_models/download_and_load.py:39-51 | one file for a plain hash; one file per piece, numbered from 1, for a hash list; each file name is the URL's base name |
| PretrainedReload.DownloadFileNames | keras_cv_attention_models/download_and_load.py:41-51 | the file name is `{model}_{stem}.h5`, or `{model}_{stem}.{n}.h5` for piece n, and pieces get distinct names |
| PretrainedReload.HashFileName | keras_cv_attention_models/download_and_load.py:44-51 | a single weight file is saved as `{model}_{stem}.h5` |
| PretrainedReload.PieceFileNames | keras_cv_attention_models/download_and_load.py:41-51 | piece n of a split weight file is saved as `{model}_{stem}.{n}.h5`, counting from 1 |
| PretrainedReload.PieceFileNamesDistinct | keras_cv_attention_models/download_and_load.py:41-51 | the pieces of a split weight file are saved under pairwise different names |
| PretrainedReload.PieceNamesDiffer | keras_cv_attention_models/download_and_load.py:41 | different piece numbers give different file names |
| PretrainedReload.FetchAll | keras_cv_attention_models/download_and_load.py:48-61 | each fetched file is loaded right after it arrives; the first failed download stops the loop and the call returns None |
| PretrainedReload.FetchStopsAtFirstFailure | keras_cv_attention_models/download_and_load.py:48-61 | when fetch f is the first to fail, the call returns None after loading exactly the f files fetched before it, in order, each with the forced flag and the resolution |
| PretrainedReload.ReloadModelWeights | keras_cv_attention_models/download_and_load.py:9-62 | a non-str `pretrained` does nothing; a `.h5` path is loaded directly and returned; an unknown model or weight name loads nothing and returns None |
| PretrainedReload.PlainDefaultsTo224 | keras_cv_attention_models/download_and_load.py:36-62 | a plain hash loads its single file at resolution 224, and the call returns the first character of the path |
| PretrainedReload.UnknownHeightTakesLargest | keras_cv_attention_models/download_and_load.py:28-33 | an input of unknown height fetches the largest resolution under the stem `"{res}_{pretrained}"` |
| PretrainedReload.InputHeightWidth | keras_cv_attention_models/download_and_load.py:67-72 | an input that is not 4-D reads as height and width -1 |
| PretrainedReload.DefaultRequestReload | keras_cv_attention_models/download_and_load.py:66-75 | with the default request -1, every 4-D model with a mismatch class is reloaded, and any other model only when forced |
| PretrainedReload.MatchingRequestNoReload | keras_cv_attention_models/download_and_load.py:66-75 | an unforced load whose request equals both the input height and the input width reloads no mismatched layer |
| PretrainedReload.UnknownSizeReloads | keras_cv_attention_models/download_and_load.py:66-75 | a 4-D model with unknown height or width reloads its mismatched layers for every request |
| PretrainedReload.NonImageExplicitRequestReloads | keras_cv_attention_models/download_and_load.py:66-75 | a model whose input is not 4-D, read as size -1, reloads its mismatched layers for every request other than -1 |
| PretrainedReload.SkipIgnoresAxisOrder | keras_cv_attention_models/download_and_load.py:135 | only element counts are compared, so weights with permuted axes are never skipped |
| PretrainedReload.LoadedLayers | keras_cv_attention_models/download_and_load.py:119-142 | a layer's weights are set exactly when it has weights, is in the file, and is not skipped for a count mismatch |
| PretrainedReload.LoadedLayersInOrder | keras_cv_attention_models/download_and_load.py:119-142 | the loaded layer names follow model order: for a model made of two runs of layers, the names loaded from the first run come first, followed by those from the second |
| Hdf5Attributes.MaxLen | keras_cv_attention_models/download_and_load.py:161 | the longest item's length bounds every item and is reached by one |
| Hdf5Attributes.Itemsize | keras_cv_attention_models/download_and_load.py:161 | the array's item size is at least 1 byte, and at most the header limit when no item exceeds it |
| Hdf5Attributes.ArraySplitSizes | keras_cv_attention_models/download_and_load.py:164-169 | `np.array_split` into n chunks gives n sizes adding up to the length, with no size above the first |
| Hdf5Attributes.SpreadSum | keras_cv_attention_models/download_and_load.py:164-169 | n sizes of q, with one extra on the first r, add up to n·q + r |
| Hdf5Attributes.OnePerItemFits | keras_cv_attention_models/download_and_load.py:153-169 | once no item is too large, one chunk per item fits, so the loop stops |
| Hdf5Attributes.Chunks | keras_cv_attention_models/download_and_load.py:164-169 | there are exactly n chunks |
| Hdf5Attributes.ChunksCoverData | keras_cv_attention_models/download_and_load.py:164-169 | the chunks laid end to end give back the list |
| Hdf5Attributes.Attributes | keras_cv_attention_models/download_and_load.py:171-175 | several chunks are written in order, chunk i under `name{i}`; a single chunk writes the whole list under `name` |
| Hdf5Attributes.AttributesCoverData | keras_cv_attention_models/download_and_load.py:164-175 | the items of the written attributes, read back in order and laid end to end, give the saved list |
| Hdf5Attributes.AttributeKeysDistinct | keras_cv_attention_models/download_and_load.py:173 | the chunk keys are all different |
| Hdf5Attributes.SaveAttributesToHdf5Group | keras_cv_attention_models/download_and_load.py:145-175 | an item over 64512 bytes is a RuntimeError; otherwise the chunk count is the least that fits, is at most one per item, and the attributes are those for that count |
| TorchWeightLayout.NpTranspose | keras_cv_attention_models/download_and_load.py:304-312 | `np.transpose` with a permutation of the tensor's rank transposes it; any other rank is a ValueError |
| TorchWeightLayout.Layout | keras_cv_attention_models/download_and_load.py:303-315 | the class checks run in order: depthwise (rank 4), Conv2D (rank 4, with a third weight squeezed), PReLU, Conv1D (rank 3), Dense; other layers are unchanged; only the first weight is converted otherwise; an empty list is an IndexError |
| TorchWeightLayout.LayoutPermutations | keras_cv_attention_models/download_and_load.py:304-312 | the three fixed axis orders are permutations |
| TorchWeightLayout.Conv2DKernelLayout | keras_cv_attention_models/download_and_load.py:305-306 | a torch (out, in, h, w) kernel becomes (h, w, in, out), and each element moves with its index |
| TorchWeightLayout.DepthwiseKernelLayout | keras_cv_attention_models/download_and_load.py:303-304 | a depthwise (c, m, h, w) kernel becomes (h, w, c, m), element by element |
| TorchWeightLayout.DenseKernelLayout | keras_cv_attention_models/download_and_load.py:313-315 | a dense (out, in) kernel becomes (in, out), entry by entry |
| TorchWeightLayout.Conv1DKernelLayout | keras_cv_attention_models/download_and_load.py:311-312 | a Conv1D (out, in, w) kernel becomes (w, in, out) |
| TorchWeightLayout.PReLULayout | keras_cv_attention_models/download_and_load.py:309-310 | a PReLU slope gains two leading unit axes and keeps its elements |
| TorchWeightLayout.ApplyTransfers | keras_cv_attention_models/download_and_load.py:317-322 | with no matching transfer the weights are unchanged |
| TorchWeightLayout.DepthwiseMatchesConv2D | keras_cv_attention_models/download_and_load.py:303-321 | a transfer keyed by Conv2D also reaches depthwise layers, and not the other way round |
| TorchWeightLayout.Step | keras_cv_attention_models/download_and_load.py:297-326 | one pair either updates that layer alone, with every weight shape kept, or reports its error with the weights unchanged |
| TorchWeightLayout.ReloadKeepsShapes | keras_cv_attention_models/download_and_load.py:294-326 | reloading never changes which layers exist or any weight shape, and unpaired layers keep their weights |
| TorchWeightLayout.OtherLayerLoadsAsIs | keras_cv_attention_models/download_and_load.py:303-326 | a layer of an unlisted class with no matching transfer receives the torch weights as they are |
| TorchWeightLayout.SaveTarget | keras_cv_attention_models/download_and_load.py:328-334 | no save name means `{model.name}.h5`, and an empty name means no save |
| TorchWeightLayout.KerasModel.ReloadStackedStateDict | keras_cv_attention_models/download_and_load.py:291-334 | pairs are zipped to the shorter list; the model's new weights are the fold of the pairs; the first error stops the loop with earlier pairs kept; otherwise the save target is returned |
| TorchWeightLayout.LoadPairs | keras_cv_attention_models/download_and_load.py:293-326 | the loop over the zipped pairs ends with exactly the fold's weights and error, stopping at the first failing pair |
| TorchWeightLayout.LoadPair | keras_cv_attention_models/download_and_load.py:296-326 | one pass of the body yields the fold's next state, and an error there is the outcome of the whole loop |
| TorchWeightLayout.ReloadErrorPersists | keras_cv_attention_models/download_and_load.py:294-326 | a failed pair decides the outcome of the rest of the loop |
| OrderedDicts.AppendTo | keras_cv_attention_models/download_and_load.py:233 | `setdefault(k, []).append(v)` adds k at the end if it is new and appends v to its list |
| PySeq.LastIndexOf | keras_cv_attention_models/download_and_load.py:239 | `raw_id_dict` maps a name to its last position |
| PySeq.Insert | keras_cv_attention_models/download_and_load.py:256-264 | `insert` puts x at position i, at `len + i` for a negative i (at the front when that is still negative) and at the end for an i past the length; the entries before it stay, the rest shift right, and the multiset gains exactly x |
| Beit.GridShape | keras_cv_attention_models/beit/beit.py:129-133 | with `attn_height` -1 the grid is the square of side floor-sqrt of the block count (TypeError for a negative count); otherwise it has `attn_height` rows of the truncated quotient, and a zero height is a ZeroDivisionError |
| Beit.GridIndexRange | keras_cv_attention_models/beit/beit.py:141-149 | every grid entry of the index lies in `[0, (2h-1)(2w-1))` |
| Beit.GridIndexRelative | keras_cv_attention_models/beit/beit.py:141-149 | two position pairs get the same index exactly when their coordinate differences agree |
| Beit.KeptColumns | keras_cv_attention_models/beit/beit.py:150-152 | when key and query lengths differ only the last `key_len - cls_len` key columns are kept, as a contiguous suffix; equal lengths or a zero count keep all of them |
| Beit.PositionIndex | keras_cv_attention_models/beit/beit.py:141-162 | the index has one row per grid position plus the class-token row, each as wide as the kept columns plus the class-token column |
| Beit.PositionIndexEntries | keras_cv_attention_models/beit/beit.py:149-162 | each inner entry is the grid index of its query and kept key position; with a class token the corner holds N-1, the top row N-3 and the left column N-2, N being `num_relative_distance` |
| Beit.PositionIndexInRange | keras_cv_attention_models/beit/beit.py:135-170 | every index entry selects an existing column of the `(heads, num_relative_distance)` table, so the gather stays inside it |
| Beit.PositionIndexMatchesScores | keras_cv_attention_models/beit/beit.py:150-172 | for scores of `h*w + cls` queries and at most as many keys, the gathered bias has one row per query and one column per key, so it adds to the scores |
| Beit.GatheredBiasShape | keras_cv_attention_models/beit/beit.py:169-171 | gathering the `(heads, num_relative_distance)` table along axis 1 with the index table succeeds and gives a `(heads, queries, keys)` bias |
| Beit.BuildTables | keras_cv_attention_models/beit/beit.py:125-162 | a grid-shape error is passed on; otherwise the head count is `attn_shape[1]` when `num_heads` is -1, the table width is `(2h-1)(2w-1)` plus 3 with a class token, and the index is `PositionIndex` |
| Beit.ResizedTable | keras_cv_attention_models/beit/beit.py:187-200 | the resized table exists exactly when the source side and the target grid can be computed, and keeps the source's head count |
| Beit.ResizedRows | keras_cv_attention_models/beit/beit.py:189-200 | each head's new row is its leading `s*s` source entries resized to the target grid, followed by the source row's last three class-token entries |
| Beit.RelativePositionalEmbedding.Build | keras_cv_attention_models/beit/beit.py:125-167 | on success the layer holds a zero table of `(heads, num_relative_distance)` and the index of `BuildTables`; on error nothing changes |
| Beit.RelativePositionalEmbedding.LoadResizedWeights | keras_cv_attention_models/beit/beit.py:179-201 | the table becomes the resized table when it has the layer's own shape; a resize error or a shape mismatch (ValueError) leaves the table as it was; the index is never touched |
| Beit.Rotate | keras_cv_attention_models/beit/beit.py:97-99 | each channel pair `(x[2i], x[2i+1])` becomes `(-x[2i+1], x[2i])` and the width is kept |
| Beit.RotateTwiceNegates | keras_cv_attention_models/beit/beit.py:97-99 | rotating twice negates every channel |
| Beit.RotatePreservesSquares | keras_cv_attention_models/beit/beit.py:97-99 | the rotation keeps the sum of squares |
| Beit.Rotated | keras_cv_attention_models/beit/beit.py:98-101 | the call succeeds exactly when the tokens, tables and channel count conform, and then every token becomes `x * cos + rot(x) * sin` with its own table row |
| Beit.RotaryCall | keras_cv_attention_models/beit/beit.py:94-104 | without a class token the call succeeds exactly when the tokens conform to the tables; with one it succeeds exactly when there is a first token and the tokens after it conform; the result has as many tokens as the input, and with a class token its first token is the input's first token |
| Beit.RotaryKeepsClassToken | keras_cv_attention_models/beit/beit.py:95-104 | with a class token, the first token is passed through unchanged and every later token is rotated against the table row of its grid position |
| Beit.RotaryCallSplitsClassToken | keras_cv_attention_models/beit/beit.py:95-104 | with a class token the call fails exactly when rotating the tokens after the first fails, and otherwise gives the first token followed by the rotated rest |
| Beit.AttentionKeyDim | keras_cv_attention_models/beit/beit.py:303 | a positive `key_dim` is kept; otherwise it is the floor of channels over heads, and zero heads is a ZeroDivisionError |
| Beit.AttentionBiasFlags | keras_cv_attention_models/beit/beit.py:308 | the fused bias is kept as given, and the separate query/value bias survives only without it; the two are never both on |
| Gpt2.CausalMaskTable | keras_cv_attention_models/gpt2/gpt2.py:48-49 | a `block_size` square whose entry `[i][j]` is 0 when `j <= i` and -1e10 when `j > i` |
| Gpt2.CausalMaskCall | keras_cv_attention_models/gpt2/gpt2.py:56-57 | adding the mask's top-left corner succeeds exactly when each cut dimension and the score dimension are equal or one of them is 1; the result keeps the scores' shape, except that a block size of 0 leaves it empty |
| Gpt2.EmptyBlockBroadcasts | keras_cv_attention_models/gpt2/gpt2.py:48-57 | with a block size of 0 the call succeeds exactly when there is at most one query and one key, and then the result is empty |
| Gpt2.CausalMaskCallEntries | keras_cv_attention_models/gpt2/gpt2.py:49-57 | within the block, scores on or below the diagonal are unchanged and later ones are lowered by 1e10 |
| Gpt2.PositionalIndexCall | keras_cv_attention_models/gpt2/gpt2.py:24-33 | for an input of length L the positions are `0 .. min(L, block_size) - 1` |
| Gpt2.Context | keras_cv_attention_models/gpt2/gpt2.py:206 | the whole sequence when it fits `max_block_size`, else its last `max_block_size` tokens; a block size of 0 keeps everything |
| Gpt2.ContextFitsBlock | keras_cv_attention_models/gpt2/gpt2.py:206 | for a positive block size the context is a suffix of the tokens and never longer than the block |
| Gpt2.SortAsc | keras_cv_attention_models/gpt2/gpt2.py:216 | the sorted logits are ascending and a permutation of the input |
| Gpt2.TopKThreshold | keras_cv_attention_models/gpt2/gpt2.py:215-216 | the threshold read at index `-min(top_k, vocab)` exists exactly when that index is in range, and is an IndexError otherwise |
| Gpt2.TopKMasked | keras_cv_attention_models/gpt2/gpt2.py:213-217 | without `top_k` the logits are untouched; with it the step succeeds exactly when the threshold exists |
| Gpt2.MaskBelow | keras_cv_attention_models/gpt2/gpt2.py:217 | the array is masked in place to exactly `MaskBelowSpec` of its old contents |
| Gpt2.CountSort | keras_cv_attention_models/gpt2/gpt2.py:216 | sorting does not change how many logits reach a threshold |
| Gpt2.ThresholdCount | keras_cv_attention_models/gpt2/gpt2.py:215-216 | for `top_k >= 1` at least `min(top_k, vocab)` logits reach the threshold |
| Gpt2.TopKKeepsAtLeast | keras_cv_attention_models/gpt2/gpt2.py:213-217 | for `top_k >= 1` at least `min(top_k, vocab)` logits survive, a logit is set to minus infinity exactly when it is below the threshold, and survivors keep their value |
| Gpt2.TopKZeroMasksNothing | keras_cv_attention_models/gpt2/gpt2.py:215-217 | `top_k = 0` reads index 0, the smallest logit, so nothing is masked |
| Gpt2.DrawToken | keras_cv_attention_models/gpt2/gpt2.py:205-220 | one step computes exactly `NextToken`: the cropped context's logits, masked below the k-th largest when `top_k` is given, and the drawn token; the only failure is the top-k IndexError |
| Gpt2.DrawnSnoc | keras_cv_attention_models/gpt2/gpt2.py:203-221 | appending the token drawn at the next step keeps every earlier token the one drawn from its prefix |
| Gpt2.Generate | keras_cv_attention_models/gpt2/gpt2.py:203-222 | a sample keeps the start tokens and grows by exactly one token per step to `len(start) + max_new_tokens`; each new token is the one drawn from the masked logits of its cropped context; the only failure is the top-k IndexError |
| Gpt2.ModelType | keras_cv_attention_models/gpt2/gpt2.py:230-231 | a HuggingFace checkpoint exists exactly for the four GPT-2 sizes |
| Gpt2.LayerNameBeforeLastDot | keras_cv_attention_models/gpt2/gpt2.py:256-260 | the layer name is everything before the last "." (which it spells back with the last part), and empty without a "." |
| Gpt2.StackStateDict | keras_cv_attention_models/gpt2/gpt2.py:251-261 | the loop builds exactly `HfGroups` of the entries |
| Gpt2.HfGroupOrder | keras_cv_attention_models/gpt2/gpt2.py:253-261 | the groups come in order of first appearance of their layer among the kept entries |
| Gpt2.HfGroupContents | keras_cv_attention_models/gpt2/gpt2.py:253-261 | each group holds exactly its layer's kept weights in source order, and a layer without a group has no kept weights |
| Gpt2.TransposeLmHead | keras_cv_attention_models/gpt2/gpt2.py:262 | every `lm_head` weight is transposed and all other groups and the key order are kept; without an `lm_head` group it is a KeyError |
| Gpt2.Pairing | keras_cv_attention_models/gpt2/gpt2.py:265-266 | the i-th layer with weights gets the i-th group, cut to the shorter of the two lists |
| Gpt2.LoadWeightsFromHuggingface | keras_cv_attention_models/gpt2/gpt2.py:227-281 | an unknown model is left alone; an existing saved file is loaded unless forced; otherwise the converted groups are paired with the layers, and the save name defaults to `<name>_huggingface.h5` |
| Cmt.Filled | keras_cv_attention_models/cmt/cmt.py:37-40 | after the listed axes are written, each entry is the input size at a covered axis and 1 everywhere else, over the full rank |
| Cmt.FillAxes | keras_cv_attention_models/cmt/cmt.py:37-40 | the loop writes the input size at each listed axis into a list of ones, giving exactly `Filled` when every axis is in range; an axis out of range is an IndexError |
| Cmt.BuildBiasShape | keras_cv_attention_models/cmt/cmt.py:33-41 | the loop yields exactly `BiasShapeSpec`: `(last dim,)` for a last-axis `axis`, an IndexError for an axis out of range, else the filled list without its batch entry, a scalar axis read as a one-element list |
| Cmt.DefaultAxisKeepsShape | keras_cv_attention_models/cmt/cmt.py:29-41 | the default `axis=[1, 2, 3]` on a 4-D input gives exactly `input_shape[1:]` |
| Cmt.LastAxisBias | keras_cv_attention_models/cmt/cmt.py:34-35 | `axis` -1 or the last axis gives the one-entry shape of the last dimension |
| Cmt.SizeAt | keras_cv_attention_models/cmt/cmt.py:44-48 | reading a size succeeds exactly when the index is in range and the size is known, and gives that size |
| Cmt.SrRatio | keras_cv_attention_models/cmt/cmt.py:46 | a zero key count is a ZeroDivisionError, a negative ratio fails, and otherwise the ratio is the floor square root of queries over keys |
| Cmt.AttnGrid | keras_cv_attention_models/cmt/cmt.py:44-48 | the sizes exist exactly when both counts are known, every divisor is non-zero and the square root is real; `query_hh` is `attn_height` when given and the floor square root of the query count otherwise; `query_ww` and `kv_ww` are the query and key counts over `query_hh` and `kv_hh`, truncated toward zero; `kv_hh` is `query_hh` floor-divided by a positive `sr_ratio` |
| PyMath.TruncDiv | keras_cv_attention_models/cmt/cmt.py:45 | `int(float(a) / b)` has the magnitude of `abs(a) // abs(b)` and the sign of the true quotient |
| Cmt.StageGrid | keras_cv_attention_models/cmt/cmt.py:33-48 | for a stage grid h x w divisible by `sr_ratio` (the stages create the layer at lines 211-213), `build` recovers queries on h x w and keys on `(h // sr) x (w // sr)`, and the bias has shape `[heads, h*w, (h // sr)(w // sr)]` |
| Cmt.MhsaDims | keras_cv_attention_models/cmt/cmt.py:89-91 | `key_dim` defaults to channels floor-divided by heads, `out_shape` falls back to the channel count when it is `None` or `out_weight` is false, and the embedding width is heads times `key_dim` |
| Cmt.BiasPositionalEmbedding.Build | keras_cv_attention_models/cmt/cmt.py:33-48 | on a bias-shape error nothing changes; otherwise the weight shape is set first, and the grid sizes are set too unless computing them fails, in which case the error is returned and the weight stays |
| Gcvit.DownNames | keras_cv_attention_models/gcvit/gcvit.py:56-58 | one stride-2 extraction per recorded `num_window` value, named `down<num_window>_` |
| Gcvit.GlobalQueryPlan | keras_cv_attention_models/gcvit/gcvit.py:49-58 | the doubling loop ends with exactly the window count and extractions of `QueryPlanSpec` |
| Gcvit.DoublingStep | keras_cv_attention_models/gcvit/gcvit.py:55-58 | one turn of the doubling loop adds exactly one stride-2 extraction named after the doubled window count, and does not change the final count |
| Gcvit.DoublingsFrom | keras_cv_attention_models/gcvit/gcvit.py:56-57 | from `num_window = 2^j` the loop records `2^(j+1), 2^(j+2), ...` and stops at the first power of two reaching the ratio |
| Gcvit.RatioOnePlan | keras_cv_attention_models/gcvit/gcvit.py:53-54 | `window_ratio` 1 gives one stride-1 extraction named `down1_` and one window |
| Gcvit.PowerOfTwoPlan | keras_cv_attention_models/gcvit/gcvit.py:55-58 | for a ratio of at least 2, `num_window` ends as the least power of two reaching the ratio, with one stride-2 extraction per doubling named `down2_`, `down4_`, ... |
| Gcvit.SmallRatioPlan | keras_cv_attention_models/gcvit/gcvit.py:55-56 | a ratio below 1 makes no extraction and leaves one window |
| Gcvit.PlanNamesDistinct | keras_cv_attention_models/gcvit/gcvit.py:54-58 | the extraction names of one plan are pairwise distinct |
| Gcvit.RepeatedQueryShape | keras_cv_attention_models/gcvit/gcvit.py:67 | the global query is repeated `num_window ** 2` times along axis 0, all other axes kept |
| Gcvit.WindowSize | keras_cv_attention_models/gcvit/gcvit.py:131 | the window size is the feature size floor-divided by the ratio in each direction; a zero ratio is a ZeroDivisionError |
| Gcvit.OneQueryPerWindow | keras_cv_attention_models/gcvit/gcvit.py:49-58 | for a power-of-two ratio dividing the feature map, `num_window ** 2` equals the number of windows, so each window gets one query copy |
| Gcvit.GammaLayers | keras_cv_attention_models/gcvit/gcvit.py:38-44 | a block gets its `1_gamma` and `2_gamma` layer-scale layers exactly when `layer_scale >= 0` |
| Gcvit.Zip3 | keras_cv_attention_models/gcvit/gcvit.py:126 | the stage configurations are the triples of the three lists, cut to the shortest |
| Gcvit.StageBlocks | keras_cv_attention_models/gcvit/gcvit.py:123-141 | a stage has `num_block` blocks (none for a non-positive count), and fails with ZeroDivisionError exactly when it has blocks and the total is 0 |
| Gcvit.StagesUpTo | keras_cv_attention_models/gcvit/gcvit.py:126-141 | after n successful stages there are n stage plans |
| Gcvit.StagesErrorPersists | keras_cv_attention_models/gcvit/gcvit.py:126-141 | a failed stage ends the whole plan with its error |
| Gcvit.PlanBlocks | keras_cv_attention_models/gcvit/gcvit.py:136-141 | the block loop produces exactly `StageBlocks`, with `global_block_id` counting up from the stage's start |
| Gcvit.PlanStages | keras_cv_attention_models/gcvit/gcvit.py:122-141 | the nested stage and block loops produce exactly `Stages`, with `total_blocks` the sum of the block counts |
| Gcvit.PlanStage | keras_cv_attention_models/gcvit/gcvit.py:126-141 | one turn of the stage loop extends the stages so far to exactly the first s + 1 stages of the model, and a failing stage is the outcome of the whole loop |
| Gcvit.GlobalIdsCount | keras_cv_attention_models/gcvit/gcvit.py:124-141 | every block carries its position in the whole model as its global id, and the counter after n stages is the number of blocks so far |
| Gcvit.StageBlockIds | keras_cv_attention_models/gcvit/gcvit.py:136-141 | the blocks of a stage that starts at `global_block_id` = start carry the ids start, start + 1, ... in order |
| Gcvit.StageAt | keras_cv_attention_models/gcvit/gcvit.py:126-141 | each stage plan is what one stage builds from its own configuration |
| Gcvit.AlternatingGlobalQuery | keras_cv_attention_models/gcvit/gcvit.py:136-140 | even block ids get no global query and odd ones get the stage's; the block is named `stack<s+1>_block<b+1>_` and has its gamma layers exactly when `layer_scale >= 0` |
| Gcvit.DropRateBelowRate | keras_cv_attention_models/gcvit/gcvit.py:138 | with a positive rate and a global id below the total, the drop rate lies in `[0, rate)` |

## Left out

- File and network I/O is outside the model. This covers h5py reads and writes, `get_file` downloads, `torch.load`, `model.save`/`save_weights`, ONNX and JIT export, and printing. Downloads, "does the saved file exist" and the HuggingFace state dict are parameters. The HDF5 attributes are returned instead of written.
- Floating-point numerics are outside the model. The BEiT sin/cos tables (`PositionalEncodingFourierRot.build`, keras_cv_attention_models/beit/beit.py:54-92) and bilinear resize enter as parameters. Softmax, `qk_scale`, temperature scaling and the multinomial draw of GPT-2 generation enter as a logits function and a sampler. Drop-connect rates are exact reals, so rounding is not modelled.
- `int(float(n) ** 0.5)` and `int(float(a) / b)` are modelled as exact integer floor square root and truncating division. Float rounding for integers beyond 2^53 is not modelled. The `assert ... is not None` checks on the size of the axis that `split` and `unstack` cut (keras_cv_attention_models/pytorch_backend/functional.py:217 and 257) are not modelled, because every shape in the model is fully known. The count form of `split` takes `math.ceil(size / count)` through a float; the model uses exact integer ceiling division.
- Graph assembly is outside the model: the `Beit`, `GPT2`, `CMT` and `GCViT` builders and the per-block functions (`attention_mlp_block`, `causal_self_attention`, `cmt_block`, `gcvit_block`, `window_attention`, `extract_feature`). Only the plans these builders compute are modelled.
- Gcvit.PlanStages: the feature size each stage sees is a parameter (`side`), because it comes from the convolutions of the graph.
- Gcvit.RepeatedQueryShape: the reshape and transpose of `to_global_query` into `[batch, heads, hh*ww, key_dim]` (keras_cv_attention_models/gcvit/gcvit.py:61-66), in either data format, are not modelled; the repeat starts from that shape.
- Beit.RotaryCall: the class token is split off the token axis, as `tf.split` does. On the torch backend, `split(inputs, [1, -1], axis=-2)` (keras_cv_attention_models/beit/beit.py:96) reads its size from axis -2 but slices axis 0, and its sizes come out as `[1, 0]` (both rows of the Findings table, Functional.ClassTokenSplit). Correcting the sizes alone does not repair that call, and this model does not describe what the torch backend computes there.
- Beit.RotaryKeepsClassToken: states the token-axis split of Beit.RotaryCall, not the torch backend's split of axis 0.
- Beit.RotaryCallSplitsClassToken: states the token-axis split of Beit.RotaryCall, not the torch backend's split of axis 0.
- Functional.Gather and Functional.GatherTable: index lists of rank 1 and 2 are modelled; index tensors of higher rank are not, as no modelled caller passes one.
- `MultiHeadRelativePositionalEmbedding.call` adds the gathered bias; the model proves that the gather succeeds and gives the scores' shape (Beit.GatheredBiasShape), but not the float addition.
- `show_pos_emb` (matplotlib) and the `get_config` methods are left out.
- CMT `BiasPositionalEmbedding.call` and `load_resized_weights` are left out: the former is a float addition, and the latter is a sequence of bilinear resizes and reshapes of the weight.
- GPT-2 generation models one sample. The outer `num_samples` loop repeats the same thing with fresh draws. The tiktoken encoding and decoding is left out: the model works on token ids.
- Gpt2.LoadWeightsFromHuggingface stops at the pairing of layers and groups. The `set_weights` and `set_weights_channels_last` calls that follow belong to the framework.
- Exception classes are the Python ones each modelled statement raises (`IndexError`, `KeyError`, `ValueError`, `TypeError`, `ZeroDivisionError`, `NameError`, `RuntimeError`, `AssertionError`). Messages are not modelled, and neither are framework-specific exception types.
- TorchWeightLayout.IsInstance: `DepthwiseConv2D` is the only `Conv2D` subclass modelled. Other Keras subclasses of `Conv2D` (such as `Conv2DTranspose` in Keras 2) are `OtherLayer` in the model, so their weights are loaded as they are, while the Python `isinstance(tf_layer, layers.Conv2D)` test at keras_cv_attention_models/download_and_load.py:305 would transpose them.
- TorchWeightLayout.KerasModel.ReloadStackedStateDict: the conversion writes `torch_weight[0]` into the stacked dict's own list. The model treats the lists as values, so this aliasing side effect on the caller's dict is not captured.
- LayerNameAlign: the alignment dicts are modelled with integer offsets or layer names as values, and with one level of per-stack nesting. Other value types the Python code would accept are not modelled.
- PretrainedReload: `reload_model_weights` returns `pretrained_model[0]`, the first character of the path, when a single file is loaded. This defect is modelled as written.
- `extract_patches`, `cast`, `log` and the thin torch wrappers of `functional.py` are not modelled. The first three reference undefined names, and the wrappers only delegate to torch.

## Findings

| source | as written | input that shows it | evidently intended | confidence | as-written member | corrected member |
|---|---|---|---|---|---|---|
| keras_cv_attention_models/pytorch_backend/functional.py:225-230 | in the list form of `split`, `None` and -1 are turned into 0, but the unknown size is counted on the original list, so only a literal 0 is ever filled | `split(x, [1, -1], axis=-2)` on an axis of n > 1, as called at keras_cv_attention_models/beit/beit.py:96: the sizes become `[1, 0]` and the second piece is empty (that call also slices the wrong axis, see the next row, so this fix alone does not repair it) | `None`, -1 and 0 all mark the one size to infer, giving `[1, n - 1]` | not executed | Functional.SplitMinusOneAsWritten | Functional.ListSizesIntended (with Functional.IntendedSizesCover) |
| keras_cv_attention_models/pytorch_backend/functional.py:215-235 | only `axis == -1` is turned into a positive axis; another negative axis reads its size from the end of the shape, but `[slice(None)] * axis` is then empty, so axis 0 is sliced | `split(x, [1, -1], axis=-2)` on a `[batch, heads, tokens, channels]` tensor, as called at keras_cv_attention_models/beit/beit.py:96, slices the batch axis; 3 pieces of axis -2 of a `[2, 6, 4]` tensor have 2, 0 and 0 rows of axis 0 | every negative axis counts from the end, and the axis read is the axis sliced | not executed | Functional.SplitNegativeAxisSlicesFirst | Functional.SplitAxisIntended (with Functional.SplitAxisIntendedAgrees and Functional.ClassTokenSplit) |
