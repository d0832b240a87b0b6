# Detection post-processing of maskrcnn_benchmark.cpp, in Dafny

This project models the detection post-processing of maskrcnn_benchmark.cpp, a C++/libtorch
port of maskrcnn-benchmark. This is the code that turns a detector head's per-level,
per-image outputs into per-image lists of boxes. It covers:

- **The RPN post-processor** (`RPNPostProcessorImpl`, module `RpnInference`):
  - for every feature level, it keeps each image's `min(pre_nms_top_n, A·H·W)` anchors with
    the highest objectness;
  - it decodes their regression rows against the same anchors, clips, removes small boxes
    and runs `nms`, capped at `post_nms_top_n`;
  - it regroups the level-major lists by image and concatenates each image's levels;
  - with more than one level, it keeps the `fpn_post_nms_top_n` best proposals, per image
    or, when training with `fpn_post_nms_per_batch`, over the whole batch through one
    global mask split back by image;
  - when training, it appends each image's ground-truth boxes with objectness 1.
- **The RPN module's routing** (`RPNModuleImpl`, module `RpnModule`):
  - `forward` with targets takes the training path iff the module is training;
  - `forward` without targets always takes the test path;
  - with `rpn_only`, training concatenates the raw anchors and testing sorts each list by
    objectness;
  - training returns exactly the two losses, testing none.
- **The FCOS post-processor** (`FCOSPostProcessorImpl`, module `FcosInference`):
  - it thresholds the class probabilities and caps each image's candidates at
    `pre_nms_top_n`;
  - it scores each candidate by its class probability times its location's centerness;
  - it decodes each candidate's location and distances into a labelled, scored box;
  - it concatenates and then, list by list, runs `nms` class by class, relabels and
    concatenates the classes, and applies the final cut.
- **The FCOS module** (`FCOSModuleImpl`, module `FcosModule`):
  - the grid of locations of every level: `h·w` points, row by row, at
    `(c·stride + stride/2, r·stride + stride/2)`;
  - the two `forward` overloads and their test and train paths.

## Design

- **BoxLists.** A BoxList (module `Boxes`) is a sequence of rows plus an image size. Each
  row has its box and the optional fields "objectness", "scores" and "labels", so a field
  can never disagree with the boxes in length.
- **Collaborators.** The code these stages call but whose source is not part of this
  model is a datatype of function values:
  - `sigmoid`;
  - the box coder's `decode`;
  - the clamp of `ClipToImage`;
  - the size test of `RemoveSmallBoxes`;
  - `nms`, whose type carries the one contract the call sites rely on: it keeps distinct
    rows of its input, and no more than `max_keep` of them when `max_keep` is positive.
- **`topk`** (module `Selection`) is a method, proved to return `k` distinct positions in
  descending order of value, with no position left out holding a larger value than one
  picked.
  - Torch does not fix the order of ties, so every stage that uses `topk` is specified by
    a predicate that asks for some admissible choice of positions.
  - Each method is proved to meet that predicate.
- **The loops** of the source are methods whose invariants tie the lists built so far to
  these specifications:
  - the regrouping and concatenation loops;
  - the per-image and per-class loops;
  - `AddGtProposals`;
  - `compute_locations`;
  - `forward_train`;
  - the `rpn_only` sort.

The FCOS post-processor is modelled as the code is written:

- the label of a candidate is its location index plus one (inference.cpp:79);
- the right and bottom edges are the location minus the distance (inference.cpp:99-100);
- `forward` concatenates the images of one level, so it returns one list per level
  (inference.cpp:37-41);
- the class loop visits labels `0 … num_classes-1` (inference.cpp:128-130);
- the cut is decided on the number of classes and reads a field named "score", which the
  lists do not carry (inference.cpp:150-154). Its failure is modelled as an error result.

Module `FcosFindings` sets each of these beside its evidently intended version; see
"## Findings".

## Model

| member | source | states |
|---|---|---|
| Selection.TopK | source/rcnn/modeling/rpn/inference.cpp:48 | `topk(k, largest, sorted)`: k distinct in-range positions, in descending order of value, and no position left out has a larger value than any position picked |
| Selection.ArgSortDescending | source/rcnn/modeling/rpn/rpn.cpp:119 | `sort(descending)`: every position exactly once, in descending order of value |
| Selection.GatherPermutation | source/rcnn/modeling/rpn/rpn.cpp:119 | indexing a list by an order of all its positions permutes it: same multiset of elements |
| Selection.TruePositions | source/rcnn/modeling/rpn/fcos/inference.cpp:77 | `nonzero()`: increasing positions, and a position is in the result iff the mask holds there |
| Selection.MaskedIsGather | source/rcnn/modeling/rpn/fcos/inference.cpp:75-78 | indexing by a boolean mask equals gathering at the mask's nonzero positions |
| Selection.SplitBySizes | source/rcnn/modeling/rpn/inference.cpp:167 | `split_with_sizes`: one piece per size, of that size, and the pieces concatenate back to the input |
| Selection.MaskCount | source/rcnn/modeling/rpn/inference.cpp:164-165 | the mask that `index_fill_` builds from k distinct positions has exactly k entries set |
| Boxes.GetRealField | source/rcnn/modeling/rpn/fcos/inference.cpp:154 | a lookup succeeds iff it asks for "objectness" or "scores" and every row carries that field, and then returns that field's values; otherwise it fails with a missing-field error naming the field asked for (so "score" always fails) |
| Boxes.StripFields | source/rcnn/modeling/rpn/inference.cpp:26 | `CopyWithFields({})`: same image size and boxes, and no row carries any field |
| Boxes.AddObjectness | source/rcnn/modeling/rpn/inference.cpp:82 | `AddField("objectness", v)`: same size and rows, boxes unchanged, objectness of row k is `v[k]` |
| Boxes.AddScores | source/rcnn/modeling/rpn/fcos/inference.cpp:106 | `AddField("scores", v)`: same rows and boxes, scores are `v`, labels kept |
| Boxes.AddLabels | source/rcnn/modeling/rpn/fcos/inference.cpp:105 | `AddField("labels", v)`: same rows and boxes, labels are `v`, scores kept |
| Boxes.Select | source/rcnn/modeling/rpn/inference.cpp:178 | `boxlist[idx]`: same image size, one row per index, and row k is the input's row `idx[k]` |
| Boxes.Keep | source/rcnn/modeling/rpn/inference.cpp:169 | `boxlist[mask]`: same image size, as many rows as the mask has set entries, each an input row |
| Boxes.Cat | source/rcnn/modeling/rpn/inference.cpp:130 | `CatBoxList`: as many rows as its inputs together, and the first input's image size |
| Boxes.CatLabels | source/rcnn/modeling/rpn/fcos/inference.cpp:149 | the labels of a concatenation are the concatenation of the labels |
| Boxes.CatPerImageAt | source/rcnn/modeling/rpn/inference.cpp:116-131 | image j's list is its level lists concatenated in level order: row k of level l sits at the offset of the earlier levels plus k, and the list has level 0's image size |
| Boxes.ClipToImage | source/rcnn/modeling/rpn/inference.cpp:83 | `ClipToImage(false)` keeps the image size and every row, and row k is the input's row k with only its box replaced by the box clamped to the image |
| Boxes.RemoveSmallBoxes | source/rcnn/modeling/rpn/inference.cpp:84 | keeps a subset of the rows, same image size |
| Boxes.Nms | source/rcnn/modeling/rpn/inference.cpp:85 | keeps a subset of the rows, at most `max_keep` when that is positive |
| RpnInference.TopKPerImage | source/rcnn/modeling/rpn/inference.cpp:38-48 | per image, the sigmoid objectness values and the positions `topk` picks among them, those values in descending order |
| RpnInference.Proposals | source/rcnn/modeling/rpn/inference.cpp:74-81 | `box_coder.decode` and `BoxList(proposal, image_shape)`: the image's size, one row per anchor, row k the decoding of regression row k against anchor k, with no field |
| RpnInference.ProposalsPerImage | source/rcnn/modeling/rpn/inference.cpp:49-87 | regression rows and anchors gathered with the same per-image positions as the objectness values, decoded and finished: one list per image |
| RpnInference.ImageProposals | source/rcnn/modeling/rpn/inference.cpp:80-86 | one image's list: the decoded boxes with their objectness and the anchors' image size, clipped, small boxes removed, suppressed |
| RpnInference.Finish | source/rcnn/modeling/rpn/inference.cpp:83-85 | keeps the image size and objectness, never adds rows, caps at `post_nms_top_n` when positive |
| RpnInference.FinishAddsNoField | source/rcnn/modeling/rpn/inference.cpp:81-85 | rows without scores and labels stay without them |
| RpnInference.ForwardForSingleFeatureMap | source/rcnn/modeling/rpn/inference.cpp:35-89 | one list per image, each the decoded top-`min(pre_nms_top_n, A·H·W)` anchors, finished |
| RpnInference.SingleMapFacts | source/rcnn/modeling/rpn/inference.cpp:77-87 | image i's list has `anchors[i]`'s size, at most `pre_nms_top_n` rows, at most `post_nms_top_n` when positive, objectness on every row and no score or label |
| RpnInference.AllObjectness | source/rcnn/modeling/rpn/inference.cpp:156-160 | the concatenated objectness has one value per row of all lists |
| RpnInference.SelectOverAllLayers | source/rcnn/modeling/rpn/inference.cpp:147-182 | one list per image, selected per batch (training with the flag) or per image, as `SelectedOverAllLayers` defines |
| RpnInference.SelectedFacts | source/rcnn/modeling/rpn/inference.cpp:147-182 | in both modes every kept row is a row of the same image's input, with its size and objectness |
| RpnInference.PerImageSelection | source/rcnn/modeling/rpn/inference.cpp:172-180 | per-image mode: image i keeps `min(fpn_post_nms_top_n, len_i)` rows in descending objectness, and no dropped row beats a kept one |
| RpnInference.MaskAtGlobal | source/rcnn/modeling/rpn/inference.cpp:160-167 | row j of image i is position `Σ len_<i + j` of the concatenated objectness, and its mask bit is set iff `topk` picked that position |
| RpnInference.MaskedTotal | source/rcnn/modeling/rpn/inference.cpp:164-170 | masking every image with its piece of the global mask keeps as many rows as were picked |
| RpnInference.BatchSelectionCount | source/rcnn/modeling/rpn/inference.cpp:150-170 | per-batch mode keeps `min(fpn_post_nms_top_n, Σ len_i)` rows in total |
| RpnInference.BatchSelectionOrder | source/rcnn/modeling/rpn/inference.cpp:167-170 | per-batch mode: each image keeps a subsequence of its rows, in their original order |
| RpnInference.MaskedDominance | source/rcnn/modeling/rpn/inference.cpp:163-169 | a row the global mask drops never has higher objectness than a row it keeps, across images |
| RpnInference.BatchSelectionGlobal | source/rcnn/modeling/rpn/inference.cpp:150-170 | per-batch mode is a global top-k: a dropped row of any image never beats a kept row of any image |
| RpnInference.Regroup | source/rcnn/modeling/rpn/inference.cpp:97-108 | the `bucket` loops: column j holds every image's level-j anchors |
| RpnInference.SampleLevels | source/rcnn/modeling/rpn/inference.cpp:112-114 | one `ForwardForSingleFeatureMap` result per level, each with one list per image |
| RpnInference.CatByImage | source/rcnn/modeling/rpn/inference.cpp:116-131 | the transposition and `CatBoxList` loops give each image its levels concatenated in level order |
| RpnInference.CatPerImageObjectness | source/rcnn/modeling/rpn/inference.cpp:116-131 | each image's concatenation carries objectness on every row and the size of its level-0 anchors |
| RpnInference.Forward | source/rcnn/modeling/rpn/inference.cpp:91-137 | one list per image: levels concatenated per image, then cross-level selection iff there is more than one level |
| RpnInference.ForwardSingleLevel | source/rcnn/modeling/rpn/inference.cpp:133-136 | with one level, image i's list is that level's list for image i, unchanged |
| RpnInference.ForwardFacts | source/rcnn/modeling/rpn/inference.cpp:91-137 | one list per image, with objectness and the image's size |
| RpnInference.GtAppendedCat | source/rcnn/modeling/rpn/inference.cpp:25-30 | proposals followed by the targets' boxes with objectness 1 and no other field: the length is the sum, and the prefix is the proposals unchanged |
| RpnInference.AddGtProposals | source/rcnn/modeling/rpn/inference.cpp:19-33 | list i is `proposals[i]` followed by `targets[i]`'s boxes, each with objectness exactly 1 and no score or label |
| RpnInference.ForwardWithTargets | source/rcnn/modeling/rpn/inference.cpp:139-145 | training: the forward result with the ground truth appended; otherwise the forward result |
| RpnModule.ForwardTrain | source/rcnn/modeling/rpn/rpn.cpp:88-111 | `rpn_only`: each image's anchors concatenated; otherwise the training selector's proposals with the ground truth; the two losses of the evaluator |
| RpnModule.ForwardTest | source/rcnn/modeling/rpn/rpn.cpp:113-123 | the test selector's lists, sorted by objectness when `rpn_only`; no loss |
| RpnModule.SortEachByObjectness | source/rcnn/modeling/rpn/rpn.cpp:116-121 | every list replaced by itself indexed by a descending order of its objectness |
| RpnModule.ForwardWithTargets | source/rcnn/modeling/rpn/rpn.cpp:64-76 | the training path iff training, the test path otherwise; the loss keys are the two losses iff training |
| RpnModule.Forward | source/rcnn/modeling/rpn/rpn.cpp:78-86 | always the test path, with an empty loss map |
| RpnModule.TrainLossKeysExact | source/rcnn/modeling/rpn/rpn.cpp:107-110 | the training loss map has exactly `loss_objectness` and `loss_rpn_box_reg`, the evaluator's two values |
| RpnModule.RpnOnlyTrainAnchors | source/rcnn/modeling/rpn/rpn.cpp:93-97 | with `rpn_only`, image i's list has all its anchors of every level, and the level-0 image size |
| RpnModule.RpnOnlyTestSorted | source/rcnn/modeling/rpn/rpn.cpp:116-121 | with `rpn_only`, each list keeps its length, size and multiset of rows, in descending objectness |
| RpnModule.TestWithoutRpnOnly | source/rcnn/modeling/rpn/rpn.cpp:114-122 | without `rpn_only`, the selector's lists are returned unchanged, with no loss |
| FcosInference.Candidates | source/rcnn/modeling/rpn/fcos/inference.cpp:63-77 | `(box_cls > pre_nms_thresh).nonzero()`: the (location, class) pairs in strictly increasing row-major order, each naming a location of the level |
| FcosInference.CandidatesExact | source/rcnn/modeling/rpn/fcos/inference.cpp:63 | a (location, class) pair is a candidate iff its class probability is strictly above `pre_nms_thresh` |
| FcosInference.CandidatesValid | source/rcnn/modeling/rpn/fcos/inference.cpp:77 | every row of `nonzero()` is a candidate |
| FcosInference.CandidateCount | source/rcnn/modeling/rpn/fcos/inference.cpp:64 | the number of candidates is the number of set mask entries |
| FcosInference.ForwardForSingleFeatureMap | source/rcnn/modeling/rpn/fcos/inference.cpp:47-113 | one list per image, each the image's detections for some admissible `topk` choice |
| FcosInference.ImageForward | source/rcnn/modeling/rpn/fcos/inference.cpp:71-110 | image i's detections: the `pre_nms_top_n` best-scored candidates when there are more, otherwise all, decoded, labelled, scored, clipped, small boxes removed |
| FcosInference.ImagePicked | source/rcnn/modeling/rpn/fcos/inference.cpp:85-95 | at most `pre_nms_top_n` candidates reach decoding, all of them above the threshold |
| FcosInference.DetectionsFacts | source/rcnn/modeling/rpn/fcos/inference.cpp:96-109 | the detections have the image size, scores and labels, no more rows than picked candidates, and each row is a picked candidate's |
| FcosInference.ImageFacts | source/rcnn/modeling/rpn/fcos/inference.cpp:70-112 | every list has its image's size, at most `pre_nms_top_n` rows, labels and scores on every row, and each row is a candidate's |
| FcosInference.LabelAsWritten | source/rcnn/modeling/rpn/fcos/inference.cpp:79 | as written, a label minus one is the candidate's location, so it names the candidate's class only when the location index equals the class index |
| FcosInference.DecodeAsWritten | source/rcnn/modeling/rpn/fcos/inference.cpp:96-102 | as written, each of the four distances is the location minus its edge, so the width is the left distance minus the right one |
| FcosInference.ImageEntryFields | source/rcnn/modeling/rpn/fcos/inference.cpp:68-109 | a row's score is the class probability times the location's centerness probability, its label is the location plus one, its box is the clamped as-written decoding, and it has no objectness |
| FcosInference.CandidateFields | source/rcnn/modeling/rpn/fcos/inference.cpp:68-106 | the same fields, for any candidate's row |
| FcosInference.ClassPositions | source/rcnn/modeling/rpn/fcos/inference.cpp:130 | `(labels == j).nonzero()`: increasing positions, exactly those labelled j |
| FcosInference.ClassEntries | source/rcnn/modeling/rpn/fcos/inference.cpp:130-134 | the rows labelled j, in order, keeping box and score only |
| FcosInference.ClassBlock | source/rcnn/modeling/rpn/fcos/inference.cpp:130-144 | class j's block keeps the list's image size and carries scores and labels on every row |
| FcosInference.ClassBlocks | source/rcnn/modeling/rpn/fcos/inference.cpp:128-147 | one block per class `0 … num_classes-1` |
| FcosInference.SuppressPerClass | source/rcnn/modeling/rpn/fcos/inference.cpp:127-147 | the class loop pushes exactly the class blocks |
| FcosInference.ClassBlockFacts | source/rcnn/modeling/rpn/fcos/inference.cpp:130-144 | block j has the list's size and no more rows than are labelled j, and every row is a row of the list labelled j, relabelled j |
| FcosInference.PerClassFrom | source/rcnn/modeling/rpn/fcos/inference.cpp:127-149 | every row after the class loop is an input row, with scores and labels |
| FcosInference.PerClassLabels | source/rcnn/modeling/rpn/fcos/inference.cpp:128-149 | labels lie in `[0, num_classes)` and ascend: classes are concatenated in order, and other labels are dropped |
| FcosInference.SelectOverOneList | source/rcnn/modeling/rpn/fcos/inference.cpp:121-160 | one list: a missing-field error on "score" iff the cut runs, otherwise its class blocks concatenated |
| FcosInference.SelectOverAllLevels | source/rcnn/modeling/rpn/fcos/inference.cpp:115-165 | a missing-field error on "score" iff there is a list and the cut runs, otherwise one result per list, its class blocks concatenated |
| FcosInference.CatEach | source/rcnn/modeling/rpn/fcos/inference.cpp:36-41 | one concatenation per level: the level's image lists |
| FcosInference.SampledFields | source/rcnn/modeling/rpn/fcos/inference.cpp:26-41 | each level's concatenation carries scores and labels |
| FcosInference.Forward | source/rcnn/modeling/rpn/fcos/inference.cpp:18-45 | an error iff there is a level and the cut runs; otherwise one list per level, each the class-by-class suppression of that level's images concatenated |
| FcosInference.ForwardLabels | source/rcnn/modeling/rpn/fcos/inference.cpp:18-45 | every result's labels lie in `[0, num_classes)` and ascend |
| FcosInference.ForwardProvenance | source/rcnn/modeling/rpn/fcos/inference.cpp:18-45 | every row of level l's result is a candidate's row of some image of level l |
| FcosInference.LevelProvenance | source/rcnn/modeling/rpn/fcos/inference.cpp:36-42 | the same, for the class blocks of one level's concatenation |
| FcosModule.Build | source/rcnn/modeling/rpn/fcos/fcos.cpp:88-102 | the post-processor gets the configured thresholds, caps and class count, and a minimum size of 0 |
| FcosModule.Half | source/rcnn/modeling/rpn/fcos/fcos.cpp:157 | `(int)(stride / 2)` rounds toward zero |
| FcosModule.LocationsPerLevel | source/rcnn/modeling/rpn/fcos/fcos.cpp:144-159 | `compute_locations_per_level`: one point per cell of the h-by-w grid |
| FcosModule.LocationAt | source/rcnn/modeling/rpn/fcos/fcos.cpp:144-159 | `h·w` points; point `r·w + c` is `(c·stride + stride/2, r·stride + stride/2)` |
| FcosModule.ComputeLocations | source/rcnn/modeling/rpn/fcos/fcos.cpp:128-142 | one grid per level, with that level's h, w and stride |
| FcosModule.Forward | source/rcnn/modeling/rpn/fcos/fcos.cpp:104-114 | the post-processor's result over the computed locations (`_forward_test`), with an empty loss map |
| FcosModule.ForwardWithTargets | source/rcnn/modeling/rpn/fcos/fcos.cpp:116-126 | always the training path, which returns no boxes and an empty loss map |
| FcosFindings.LabelFromLocation | source/rcnn/modeling/rpn/fcos/inference.cpp:77-79 | the sole candidate (location 1, class 0) is labelled 2 as written, naming a class below the threshold; intended 1 |
| FcosFindings.AsWrittenKeepsFirstLocations | source/rcnn/modeling/rpn/fcos/inference.cpp:79 | as written, every detection `forward` returns comes from one of the first `num_classes - 1` locations of its level |
| FcosFindings.LabelIntendedNamesClass | source/rcnn/modeling/rpn/fcos/inference.cpp:79 | the intended label names a class column in `[1, C]` whose probability passed the threshold |
| FcosFindings.DecodeSubtracts | source/rcnn/modeling/rpn/fcos/inference.cpp:96-102 | at (10, 10) with distances 1 the code yields the empty box (9, 9, 9, 9); intended (9, 9, 11, 11) |
| FcosFindings.AsWrittenMissesLocation | source/rcnn/modeling/rpn/fcos/inference.cpp:99-100 | as written, a positive right or bottom distance puts that edge before the location |
| FcosFindings.EncodeDecode | source/rcnn/modeling/rpn/fcos/inference.cpp:96-102 | intended decoding then encoding gives back the distances |
| FcosFindings.DecodeEncode | source/rcnn/modeling/rpn/fcos/inference.cpp:96-102 | intended encoding then decoding gives back the box |
| FcosFindings.DecodeContains | source/rcnn/modeling/rpn/fcos/inference.cpp:96-102 | intended: non-negative distances give a box containing its location |
| FcosFindings.ListsPerLevel | source/rcnn/modeling/rpn/fcos/inference.cpp:36-42 | as written, two levels over one image give two lists |
| FcosFindings.PerImageIntended | source/rcnn/modeling/rpn/fcos/inference.cpp:36-42 | intended: one list per image, with that image's size, each row a candidate's row of that image |
| FcosFindings.CutCountsClasses | source/rcnn/modeling/rpn/fcos/inference.cpp:150-154 | as written, with 81 classes a cap of 100 never cuts and a cap of 50 always reads the missing field "score" |
| FcosFindings.TopThreshold | source/rcnn/modeling/rpn/fcos/inference.cpp:155 | the `top`-th value of a descending order is the `top`-th largest score (the `(n - top + 1)`-th smallest) |
| FcosFindings.KeptCount | source/rcnn/modeling/rpn/fcos/inference.cpp:156-158 | keeping the scores at or above t keeps as many rows as there are such scores |
| FcosFindings.KeepsExactly | source/rcnn/modeling/rpn/fcos/inference.cpp:156-158 | a row is kept iff its score is at or above the threshold |
| FcosFindings.CutToTop | source/rcnn/modeling/rpn/fcos/inference.cpp:150-159 | intended cut: more than `top` rows keep exactly those at or above the `top`-th largest score (at least `top` rows); otherwise all |
| FcosFindings.SelectIntended | source/rcnn/modeling/rpn/fcos/inference.cpp:149-159 | intended per-list selection: the class blocks, then the intended cut on their number of rows and "scores" |

## Left out

- Network layers (RPN head, FCOS head towers, FPN, `Scale`, batch norm) and their
  floating-point numerics: their outputs are inputs of the model.
- `PermuteAndFlatten`, `view`, `permute` and `reshape`: the head outputs are given already
  in the per-image, per-location layout these produce.
- Configuration lookups and `MakeRPNPostprocessor`: the settings are fields of
  `RpnConfig`, `FcosConfig` and the module datatypes.
- `MakeFCOSPostprocessor` only forwards its arguments to the constructor, which
  `FcosModule.Build` covers.
- The anchor generator and the RPN loss evaluator. Anchors are inputs, and the evaluator
  is a function field of the module.
- `clone`, devices and `NoGradGuard`: runtime plumbing with no effect on the lists.
- The BoxList class is not part of this model. Its operations the core calls
  (`GetField`, `AddField`, `CopyWithFields`, indexing by positions and by a mask,
  `CatBoxList`, `ClipToImage`, `RemoveSmallBoxes`) are functions in module `Boxes`
  written from how the core uses them.
- The box coder, sigmoid, `ClipToImage`'s clamp, `RemoveSmallBoxes`' size test and the
  `nms` algorithm. Their code is not part of this model; they are function values with
  only the contracts their call sites rely on.
- Boxes.Cat: `CatBoxList`'s code is not part of this model. It is modelled without a
  check that the lists share one image size: the result takes the first list's size.
  Where `CatBoxList` rejects lists of different sizes, the model returns a list where
  the source would fail. This affects the FCOS concatenation of one level's images at
  fcos/inference.cpp:39.
- Floating point: scores and coordinates are reals, locations integers.
- Boxes.Nms: `nms` without a max-keep argument is modelled as uncapped (a max-keep of
  -1); the library's default is not part of this model.
- Boxes.GetRealField: `GetField`'s code is not part of this model. A lookup of a field
  the list does not carry is assumed to fail, and is modelled as an error result.
- RpnInference.Forward and RpnInference.ForwardForSingleFeatureMap: these require at
  least one level and that every image has a list for every level. The source indexes
  `sampled_boxes[0]` and `anchors[i][j]` without checking either.
- RpnInference.AddGtProposals: this requires at least one proposal list and a target
  list for every proposal list. The source reads `proposals[0]` and `gt_boxes[i]`
  without checking either.
- FcosInference.SelectOverAllLevels, FcosInference.Forward and FcosModule.Forward:
  these require `num_classes > 0`. With no class the source concatenates an empty
  vector of lists.
- The `pre_nms_top_n` caps of both post-processors are natural numbers. A negative cap
  in the source's `int64_t`/`int` is not modelled.
- RpnInference.SelectOverAllLayers: `fpn_post_nms_top_n` is a natural number. The
  source's `int64_t` may be negative, and then `topk` gets a negative `k` at
  inference.cpp:162 and :176 and fails; that failure is not modelled.
- FcosInference.Forward and FcosModule.Forward: these require every level to hold at
  least one image. With no image the source calls `CatBoxList` on an empty vector at
  fcos/inference.cpp:39; what that does is not part of this model.
- FcosModule.ComputeLocations: this requires non-zero strides, as `arange` does.
- The FCOS training path is modelled as the source has it: no boxes, no losses. The
  FCOS loss evaluator is not part of this model.

## Findings

Each row is an evident error in the FCOS post-processor. The rest of the FCOS model
follows the code as written. Each corrected member states the property the code was
after.

| source | as written | input that shows it | evidently intended | confidence | as-written member | corrected member |
|---|---|---|---|---|---|---|
| source/rcnn/modeling/rpn/fcos/inference.cpp:79 | the label is column 0 of the nonzero row (the location) plus one | class probabilities `[[0.1,0.1,0.1],[0.9,0.1,0.1]]`, threshold 0.5: the only candidate (location 1, class 0) is labelled 2 | column 1 (the class) plus one, so label 1 | not executed | FcosFindings.LabelFromLocation | FcosFindings.LabelIntendedNamesClass |
| source/rcnn/modeling/rpn/fcos/inference.cpp:99-100 | x2 and y2 are the location minus the right and bottom distances | location (10, 10), distances (1, 1, 1, 1): box (9, 9, 9, 9) | location plus those distances: box (9, 9, 11, 11), which decodes and encodes back | not executed | FcosFindings.DecodeSubtracts | FcosFindings.EncodeDecode |
| source/rcnn/modeling/rpn/fcos/inference.cpp:37-41 | each level's images are concatenated, so there is one list per level (its image size is whatever `CatBoxList`, not part of this model, gives lists of different images; the model assumes the first image's) | two levels over one image: two result lists | each image's levels concatenated: one list per image, with its own size | not executed | FcosFindings.ListsPerLevel | FcosFindings.PerImageIntended |
| source/rcnn/modeling/rpn/fcos/inference.cpp:150-154 | the cut tests the number of classes and reads the field "score" | 81 classes and a cap of 50: every list is cut and the lookup of "score" fails; with a cap of 100 no list is ever cut | test the number of detections and read "scores" | not executed | FcosFindings.CutCountsClasses | FcosFindings.SelectIntended |
