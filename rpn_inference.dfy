/** The RPN post-processor (`RPNPostProcessorImpl`): it turns each feature level's
    objectness logits and box regression into at most `post_nms_top_n` proposals per
    image, regroups the levels by image, keeps the `fpn_post_nms_top_n` best proposals
    over all levels and, while training, appends the ground-truth boxes.

    The selections made by `topk` are specified up to ties: each stage's result is
    described by a ghost predicate that asks for SOME valid top-k choice of positions,
    and each method proves its result satisfies it. */
module RpnInference {
  import opened Selection
  import opened Boxes

  /** The constructor's settings. */
  datatype RpnConfig = RpnConfig(
    preNmsTopN: nat,
    postNmsTopN: int,
    nmsThresh: real,
    minSize: int,
    fpnPostNmsTopN: nat,
    fpnPostNmsPerBatch: bool)

  /** The head's output for one feature level, already in the layout `PermuteAndFlatten`
      gives it: `objectness[i]` holds image i's `a*h*w` logits and `regression[i]` the
      matching regression rows. */
  datatype RpnLevel = RpnLevel(
    a: nat, h: nat, w: nat,
    objectness: seq<seq<real>>,
    regression: seq<seq<Delta>>)

  function NumAnchors(level: RpnLevel): nat { level.a * level.h * level.w }

  /** The shapes the views and reshapes of `ForwardForSingleFeatureMap` rely on: one row
      of logits, one of regression and one anchor list per image, all `a*h*w` long. */
  predicate LevelFits(level: RpnLevel, anchors: seq<BoxList>) {
    |level.objectness| == |anchors| && |level.regression| == |anchors| &&
    forall i :: 0 <= i < |anchors| ==>
      |level.objectness[i]| == NumAnchors(level) &&
      |level.regression[i]| == NumAnchors(level) &&
      Length(anchors[i]) == NumAnchors(level)
  }

  function Sigmoid(ops: Collaborators, logits: seq<real>): seq<real> {
    seq(|logits|, k requires 0 <= k < |logits| => ops.sigmoid(logits[k]))
  }

  /** `box_coder.decode`: row k of the regression applied to anchor k. */
  function Proposals(ops: Collaborators, regression: seq<Delta>, anchors: seq<Box>, size: ImageSize): (r: BoxList)
    requires |regression| == |anchors|
    ensures r.size == size && Length(r) == |anchors|
    ensures forall k :: 0 <= k < |anchors| ==>
      r.entries[k] == Entry(ops.decode(regression[k], anchors[k]), None, None, None)
  {
    FromBoxes(seq(|regression|, k requires 0 <= k < |regression| => ops.decode(regression[k], anchors[k])), size)
  }

  /** Clip to the image, drop small boxes, then nms on objectness keeping at most
      `post_nms_top_n`. */
  function Finish(cfg: RpnConfig, ops: Collaborators, l: BoxList): (r: BoxList)
    requires HasObjectness(l)
    ensures r.size == l.size && Length(r) <= Length(l)
    ensures cfg.postNmsTopN > 0 ==> Length(r) <= cfg.postNmsTopN
    ensures HasObjectness(r)
  {
    var clipped := ClipToImage(ops, l);
    var large := RemoveSmallBoxes(ops, clipped, cfg.minSize);
    Nms(ops, large, Objectness(large), cfg.nmsThresh, cfg.postNmsTopN)
  }

  /** Finishing adds no field: a row without scores or labels stays without them. */
  lemma FinishAddsNoField(cfg: RpnConfig, ops: Collaborators, l: BoxList)
    requires HasObjectness(l)
    requires forall e :: e in l.entries ==> e.score.None? && e.classLabel.None?
    ensures forall e :: e in Finish(cfg, ops, l).entries ==> e.score.None? && e.classLabel.None?
  {
    var clipped := ClipToImage(ops, l);
    assert forall e :: e in clipped.entries ==> e.score.None? && e.classLabel.None?;
  }

  /* ---------------------------------------------------------------------------
     One feature level
     ------------------------------------------------------------------------- */

  /** Image `i`'s proposals once the positions `idx` are picked: the picked anchors
      decoded with their regression rows, carrying their probability as objectness,
      then finished. */
  function ImageResult(cfg: RpnConfig, ops: Collaborators, level: RpnLevel, anchors: BoxList, i: nat, idx: seq<nat>): BoxList
    requires i < |level.objectness| && i < |level.regression|
    requires |level.objectness[i]| == |level.regression[i]| == Length(anchors)
    requires InRange(idx, Length(anchors))
  {
    var probs := Sigmoid(ops, level.objectness[i]);
    Finish(cfg, ops, AddObjectness(
      Proposals(ops, Gather(level.regression[i], idx), Gather(BBox(anchors), idx), anchors.size),
      Gather(probs, idx)))
  }

  /** What `ForwardForSingleFeatureMap` yields for image `i`: the result for the
      `min(pre_nms_top_n, a*h*w)` most probable anchors, best first. */
  ghost predicate SingleMapImage(cfg: RpnConfig, ops: Collaborators, level: RpnLevel, anchors: BoxList, i: nat, out: BoxList)
    requires i < |level.objectness| && i < |level.regression|
    requires |level.objectness[i]| == |level.regression[i]| == Length(anchors)
  {
    exists idx ::
      IsTopK(Sigmoid(ops, level.objectness[i]), Min(cfg.preNmsTopN, NumAnchors(level)), idx) &&
      out == ImageResult(cfg, ops, level, anchors, i, idx)
  }

  /** One level's result for every image. */
  ghost predicate LevelResult(cfg: RpnConfig, ops: Collaborators, level: RpnLevel, anchors: seq<BoxList>, result: seq<BoxList>)
    requires LevelFits(level, anchors)
  {
    |result| == |anchors| &&
    forall i :: 0 <= i < |anchors| ==> SingleMapImage(cfg, ops, level, anchors[i], i, result[i])
  }

  /** Lines 38-48: the sigmoid of every image's logits, and the `k` best positions of
      each, best first, with their probabilities. */
  method TopKPerImage(ops: Collaborators, logits: seq<seq<real>>, k: nat)
    returns (objectness: seq<seq<real>>, topkIdx: seq<seq<nat>>)
    requires forall i :: 0 <= i < |logits| ==> k <= |logits[i]|
    ensures |objectness| == |logits| && |topkIdx| == |logits|
    ensures forall i :: 0 <= i < |logits| ==>
      IsTopK(Sigmoid(ops, logits[i]), k, topkIdx[i]) && objectness[i] == Gather(Sigmoid(ops, logits[i]), topkIdx[i])
  {
    objectness, topkIdx := [], [];
    for i := 0 to |logits|
      invariant |objectness| == i && |topkIdx| == i
      invariant forall j :: 0 <= j < i ==>
        IsTopK(Sigmoid(ops, logits[j]), k, topkIdx[j]) && objectness[j] == Gather(Sigmoid(ops, logits[j]), topkIdx[j])
    {
      var probs := Sigmoid(ops, logits[i]);
      var idx := TopK(probs, k);
      objectness := objectness + [Gather(probs, idx)];
      topkIdx := topkIdx + [idx];
    }
  }

  method ForwardForSingleFeatureMap(cfg: RpnConfig, ops: Collaborators, anchors: seq<BoxList>, level: RpnLevel)
    returns (result: seq<BoxList>)
    requires LevelFits(level, anchors)
    ensures LevelResult(cfg, ops, level, anchors, result)
  {
    var n := |anchors|;
    var preNmsTopN := Min(cfg.preNmsTopN, NumAnchors(level));
    // sigmoid, then the best logits of every image, best first
    var objectness, topkIdx := TopKPerImage(ops, level.objectness, preNmsTopN);
    // the regression rows of the picked anchors
    var boxRegression: seq<seq<Delta>> := [];
    for i := 0 to n
      invariant |boxRegression| == i
      invariant forall j :: 0 <= j < i ==> boxRegression[j] == Gather(level.regression[j], topkIdx[j])
    {
      boxRegression := boxRegression + [Gather(level.regression[i], topkIdx[i])];
    }
    // image sizes, and the picked anchors of every image
    var imageShapes: seq<ImageSize> := [];
    for i := 0 to n
      invariant imageShapes == seq(i, j requires 0 <= j < i => anchors[j].size)
    {
      imageShapes := imageShapes + [anchors[i].size];
    }
    var concatAnchors: seq<seq<Box>> := [];
    for i := 0 to n
      invariant |concatAnchors| == i
      invariant forall j :: 0 <= j < i ==> concatAnchors[j] == Gather(BBox(anchors[j]), topkIdx[j])
    {
      concatAnchors := concatAnchors + [Gather(BBox(anchors[i]), topkIdx[i])];
    }
    // one proposal list per image
    result := ProposalsPerImage(cfg, ops, level, anchors, topkIdx, objectness, boxRegression, imageShapes, concatAnchors);
    forall i | 0 <= i < n
      ensures SingleMapImage(cfg, ops, level, anchors[i], i, result[i])
    {
      assert IsTopK(Sigmoid(ops, level.objectness[i]), preNmsTopN, topkIdx[i]);
    }
  }

  /** The rows the top-k picked for image `i`: its probabilities, regression rows,
      image size and anchors at the positions `idx`. */
  predicate PickedRows(ops: Collaborators, level: RpnLevel, anchors: BoxList, i: nat, idx: seq<nat>,
                       regression: seq<Delta>, anchorBoxes: seq<Box>, size: ImageSize, objectness: seq<real>) {
    i < |level.objectness| && i < |level.regression| &&
    |level.objectness[i]| == |level.regression[i]| == Length(anchors) &&
    InRange(idx, Length(anchors)) &&
    regression == Gather(level.regression[i], idx) && anchorBoxes == Gather(BBox(anchors), idx) &&
    size == anchors.size && objectness == Gather(Sigmoid(ops, level.objectness[i]), idx)
  }

  /** Lines 78-87: each image's picked regression rows decoded against its picked
      anchors, then finished. */
  method ProposalsPerImage(cfg: RpnConfig, ops: Collaborators, level: RpnLevel, anchors: seq<BoxList>,
                           topkIdx: seq<seq<nat>>, objectness: seq<seq<real>>, boxRegression: seq<seq<Delta>>,
                           imageShapes: seq<ImageSize>, concatAnchors: seq<seq<Box>>) returns (result: seq<BoxList>)
    requires LevelFits(level, anchors)
    requires |topkIdx| == |objectness| == |boxRegression| == |imageShapes| == |concatAnchors| == |anchors|
    requires forall i :: 0 <= i < |anchors| ==>
      InRange(topkIdx[i], Length(anchors[i])) &&
      PickedRows(ops, level, anchors[i], i, topkIdx[i], boxRegression[i], concatAnchors[i], imageShapes[i], objectness[i])
    ensures |result| == |anchors|
    ensures forall i :: 0 <= i < |anchors| ==> result[i] == ImageResult(cfg, ops, level, anchors[i], i, topkIdx[i])
  {
    ghost var expected := ImageResults(cfg, ops, level, anchors, topkIdx);
    result := [];
    for i := 0 to |anchors|
      invariant result == expected[..i]
    {
      var boxlist := ImageProposals(cfg, ops, level, anchors[i], i, topkIdx[i],
                                    boxRegression[i], concatAnchors[i], imageShapes[i], objectness[i]);
      assert expected[..i + 1] == expected[..i] + [boxlist];
      result := result + [boxlist];
    }
    assert result == expected;
  }

  /** Every image's result for the positions `topkIdx` picked. */
  function ImageResults(cfg: RpnConfig, ops: Collaborators, level: RpnLevel, anchors: seq<BoxList>,
                        topkIdx: seq<seq<nat>>): seq<BoxList>
    requires LevelFits(level, anchors) && |topkIdx| == |anchors|
    requires forall i :: 0 <= i < |anchors| ==> InRange(topkIdx[i], Length(anchors[i]))
  {
    seq(|anchors|, i requires 0 <= i < |anchors| => ImageResult(cfg, ops, level, anchors[i], i, topkIdx[i]))
  }

  /** The loop body of lines 78-86 for image `i`, on the rows the top-k picked: decode,
      attach the objectness, clip, drop small boxes, suppress. */
  method ImageProposals(cfg: RpnConfig, ops: Collaborators, level: RpnLevel, anchors: BoxList, i: nat, idx: seq<nat>,
                        regression: seq<Delta>, anchorBoxes: seq<Box>, size: ImageSize, objectness: seq<real>)
    returns (boxlist: BoxList)
    requires PickedRows(ops, level, anchors, i, idx, regression, anchorBoxes, size, objectness)
    ensures boxlist == ImageResult(cfg, ops, level, anchors, i, idx)
  {
    boxlist := Proposals(ops, regression, anchorBoxes, size);
    boxlist := AddObjectness(boxlist, objectness);
    boxlist := ClipToImage(ops, boxlist);
    boxlist := RemoveSmallBoxes(ops, boxlist, cfg.minSize);
    boxlist := Nms(ops, boxlist, Objectness(boxlist), cfg.nmsThresh, cfg.postNmsTopN);
  }

  /** Facts every per-image result of one level has: it keeps the image size, holds at
      most `pre_nms_top_n` (and, when positive, `post_nms_top_n`) boxes, and carries
      objectness but neither scores nor labels. */
  lemma SingleMapFacts(cfg: RpnConfig, ops: Collaborators, level: RpnLevel, anchors: BoxList, i: nat, out: BoxList)
    requires i < |level.objectness| && i < |level.regression|
    requires |level.objectness[i]| == |level.regression[i]| == Length(anchors)
    requires SingleMapImage(cfg, ops, level, anchors, i, out)
    ensures out.size == anchors.size
    ensures Length(out) <= cfg.preNmsTopN
    ensures cfg.postNmsTopN > 0 ==> Length(out) <= cfg.postNmsTopN
    ensures HasObjectness(out)
    ensures forall e :: e in out.entries ==> e.score.None? && e.classLabel.None?
  {
    var probs := Sigmoid(ops, level.objectness[i]);
    var idx :| IsTopK(probs, Min(cfg.preNmsTopN, NumAnchors(level)), idx) &&
      out == ImageResult(cfg, ops, level, anchors, i, idx);
    var l := AddObjectness(
               Proposals(ops, Gather(level.regression[i], idx), Gather(BBox(anchors), idx), anchors.size),
               Gather(probs, idx));
    FinishAddsNoField(cfg, ops, l);
  }

  /* ---------------------------------------------------------------------------
     Selection over all levels
     ------------------------------------------------------------------------- */

  predicate AllHaveObjectness(ls: seq<BoxList>) {
    forall i :: 0 <= i < |ls| ==> HasObjectness(ls[i])
  }

  function ObjectnessRows(ls: seq<BoxList>): seq<seq<real>>
    requires AllHaveObjectness(ls)
  {
    seq(|ls|, i requires 0 <= i < |ls| => Objectness(ls[i]))
  }

  /** The objectness of every image, concatenated in image order. */
  function AllObjectness(ls: seq<BoxList>): (r: seq<real>)
    requires AllHaveObjectness(ls)
    ensures |r| == TotalLength(ls)
  {
    FlattenLength(ObjectnessRows(ls));
    assert Lengths(ObjectnessRows(ls)) == Sizes(ls);
    Flatten(ObjectnessRows(ls))
  }

  /** Per-image mode: the image keeps its `min(fpn_post_nms_top_n, n)` most objective
      boxes, best first. */
  ghost predicate ImageTopK(topN: nat, l: BoxList, out: BoxList)
    requires HasObjectness(l)
  {
    exists idx :: IsTopK(Objectness(l), Min(topN, Length(l)), idx) && out == Select(l, idx)
  }

  /** Per-batch mode: the masks mark the `min(fpn_post_nms_top_n, total)` most objective
      boxes of the whole batch, cut back into one mask per image. */
  ghost predicate BatchMasks(topN: nat, ls: seq<BoxList>, masks: seq<seq<bool>>)
    requires AllHaveObjectness(ls)
  {
    var all := AllObjectness(ls);
    exists idx :: IsTopK(all, Min(topN, |all|), idx) && masks == SplitBySizes(MaskOf(idx, |all|), Sizes(ls))
  }

  /** What `SelectOverAllLayers` yields for the per-image proposal lists `ls`. */
  ghost predicate SelectedOverAllLayers(cfg: RpnConfig, training: bool, ls: seq<BoxList>, outs: seq<BoxList>)
    requires AllHaveObjectness(ls)
  {
    |outs| == |ls| &&
    if training && cfg.fpnPostNmsPerBatch then
      exists masks :: BatchMasks(cfg.fpnPostNmsTopN, ls, masks) && |masks| == |ls| &&
        forall i :: 0 <= i < |ls| ==> |masks[i]| == Length(ls[i]) && outs[i] == Keep(ls[i], masks[i])
    else
      forall i :: 0 <= i < |ls| ==> ImageTopK(cfg.fpnPostNmsTopN, ls[i], outs[i])
  }

  method SelectOverAllLayers(cfg: RpnConfig, training: bool, boxlists: seq<BoxList>) returns (result: seq<BoxList>)
    requires AllHaveObjectness(boxlists)
    ensures |result| == |boxlists|
    ensures SelectedOverAllLayers(cfg, training, boxlists, result)
  {
    var numImages := |boxlists|;
    result := boxlists;
    if training && cfg.fpnPostNmsPerBatch {
      var objectnessVec: seq<seq<real>> := [];
      var boxSizes: seq<nat> := [];
      for i := 0 to numImages
        invariant objectnessVec == ObjectnessRows(boxlists[..i])
        invariant boxSizes == Sizes(boxlists[..i])
      {
        assert boxlists[..i + 1] == boxlists[..i] + [boxlists[i]];
        objectnessVec := objectnessVec + [Objectness(boxlists[i])];
        boxSizes := boxSizes + [Length(boxlists[i])];
      }
      assert boxlists[..numImages] == boxlists;
      var objectness := Flatten(objectnessVec);
      assert objectness == AllObjectness(boxlists);
      var postNmsTopN := Min(cfg.fpnPostNmsTopN, |objectness|);
      var indsSorted := TopK(objectness, postNmsTopN);
      var indsMask := new bool[|objectness|](p => false);
      for a := 0 to |indsSorted|
        invariant forall p :: 0 <= p < indsMask.Length ==> indsMask[p] == (p in indsSorted[..a])
      {
        assert indsSorted[..a + 1] == indsSorted[..a] + [indsSorted[a]];
        indsMask[indsSorted[a]] := true;
      }
      assert indsSorted[..|indsSorted|] == indsSorted;
      assert indsMask[..] == MaskOf(indsSorted, |objectness|);
      var indsMaskVec := SplitBySizes(indsMask[..], boxSizes);
      for i := 0 to numImages
        invariant |result| == numImages
        invariant forall k :: 0 <= k < i ==> result[k] == Keep(boxlists[k], indsMaskVec[k])
      {
        result := result[i := Keep(boxlists[i], indsMaskVec[i])];
      }
      assert BatchMasks(cfg.fpnPostNmsTopN, boxlists, indsMaskVec);
    } else {
      for i := 0 to numImages
        invariant |result| == numImages
        invariant forall k :: 0 <= k < i ==> ImageTopK(cfg.fpnPostNmsTopN, boxlists[k], result[k])
        invariant forall k :: i <= k < numImages ==> result[k] == boxlists[k]
      {
        var objectness := Objectness(result[i]);
        var postNmsTopN := Min(cfg.fpnPostNmsTopN, |objectness|);
        var indsSorted := TopK(objectness, postNmsTopN);
        result := result[i := Select(result[i], indsSorted)];
      }
    }
  }

  /** Both modes keep each image's size and only ever keep its own boxes. */
  lemma SelectedFacts(cfg: RpnConfig, training: bool, ls: seq<BoxList>, outs: seq<BoxList>, i: nat)
    requires AllHaveObjectness(ls) && SelectedOverAllLayers(cfg, training, ls, outs)
    requires i < |ls|
    ensures outs[i].size == ls[i].size
    ensures forall e :: e in outs[i].entries ==> e in ls[i].entries
    ensures HasObjectness(outs[i])
  {
    if training && cfg.fpnPostNmsPerBatch {
      var idx, masks := BatchWitness(cfg, training, ls, outs);
      assert outs[i].entries == Masked(ls[i].entries, masks[i]);
    } else {
      assert ImageTopK(cfg.fpnPostNmsTopN, ls[i], outs[i]);
      var idx :| IsTopK(Objectness(ls[i]), Min(cfg.fpnPostNmsTopN, Length(ls[i])), idx) && outs[i] == Select(ls[i], idx);
      forall e | e in outs[i].entries
        ensures e in ls[i].entries
      {
        SelectMember(ls[i], idx, e);
      }
    }
  }

  /** Per-image mode: an image keeps exactly `min(fpn_post_nms_top_n, n)` of its boxes,
      in descending objectness, and none it drops beats one it keeps. */
  lemma PerImageSelection(cfg: RpnConfig, training: bool, ls: seq<BoxList>, outs: seq<BoxList>, i: nat)
    requires AllHaveObjectness(ls) && SelectedOverAllLayers(cfg, training, ls, outs)
    requires !(training && cfg.fpnPostNmsPerBatch) && i < |ls|
    ensures HasObjectness(outs[i])
    ensures Length(outs[i]) == Min(cfg.fpnPostNmsTopN, Length(ls[i]))
    ensures forall a, b :: 0 <= a < b < Length(outs[i]) ==> Objectness(outs[i])[b] <= Objectness(outs[i])[a]
    ensures forall e, d :: e in ls[i].entries && e !in outs[i].entries && d in outs[i].entries ==>
              e.objectness.value <= d.objectness.value
  {
    SelectedFacts(cfg, training, ls, outs, i);
    var l := ls[i];
    var idx :| IsTopK(Objectness(l), Min(cfg.fpnPostNmsTopN, Length(l)), idx) && outs[i] == Select(l, idx);
    forall e, d | e in l.entries && e !in outs[i].entries && d in outs[i].entries
      ensures e.objectness.value <= d.objectness.value
    {
      var p :| 0 <= p < Length(l) && l.entries[p] == e;
      var a :| 0 <= a < |idx| && outs[i].entries[a] == d;
      assert forall b :: 0 <= b < |idx| ==> outs[i].entries[b] == l.entries[idx[b]];
      assert p !in idx;
      assert Objectness(l)[p] <= Objectness(l)[idx[a]];
    }
  }

  /** Per-batch mode: the global position of element `j` of image `i`, and the mask bit
      that decides it. */
  lemma MaskAtGlobal(ls: seq<BoxList>, idx: seq<nat>, masks: seq<seq<bool>>, i: nat, j: nat)
    requires AllHaveObjectness(ls)
    requires masks == SplitBySizes(MaskOf(idx, |AllObjectness(ls)|), Sizes(ls))
    requires i < |ls| && j < Length(ls[i])
    ensures Sum(Sizes(ls[..i])) + j < |AllObjectness(ls)|
    ensures AllObjectness(ls)[Sum(Sizes(ls[..i])) + j] == Objectness(ls[i])[j]
    ensures masks[i][j] == (Sum(Sizes(ls[..i])) + j in idx)
  {
    ObjectnessAtGlobal(ls, i, j);
    FlattenAt(masks, i, j);
    FlattenLength(masks[..i]);
    assert Lengths(masks[..i]) == Sizes(ls[..i]);
  }

  /** The global position of element `j` of image `i` in the concatenated objectness. */
  lemma ObjectnessAtGlobal(ls: seq<BoxList>, i: nat, j: nat)
    requires AllHaveObjectness(ls)
    requires i < |ls| && j < Length(ls[i])
    ensures Sum(Sizes(ls[..i])) + j < |AllObjectness(ls)|
    ensures AllObjectness(ls)[Sum(Sizes(ls[..i])) + j] == Objectness(ls[i])[j]
  {
    var rows := ObjectnessRows(ls);
    FlattenAt(rows, i, j);
    FlattenLength(rows[..i]);
    assert Lengths(rows[..i]) == Sizes(ls[..i]);
  }

  /** The choice of positions and the masks behind a per-batch selection. */
  lemma BatchWitness(cfg: RpnConfig, training: bool, ls: seq<BoxList>, outs: seq<BoxList>)
    returns (idx: seq<nat>, masks: seq<seq<bool>>)
    requires AllHaveObjectness(ls) && SelectedOverAllLayers(cfg, training, ls, outs)
    requires training && cfg.fpnPostNmsPerBatch
    ensures IsTopK(AllObjectness(ls), Min(cfg.fpnPostNmsTopN, TotalLength(ls)), idx)
    ensures masks == SplitBySizes(MaskOf(idx, TotalLength(ls)), Sizes(ls))
    ensures |masks| == |ls| == |outs|
    ensures forall i :: 0 <= i < |ls| ==> |masks[i]| == Length(ls[i]) && outs[i] == Keep(ls[i], masks[i])
  {
    masks :| BatchMasks(cfg.fpnPostNmsTopN, ls, masks) && |masks| == |ls| &&
      forall i :: 0 <= i < |ls| ==> |masks[i]| == Length(ls[i]) && outs[i] == Keep(ls[i], masks[i]);
    idx := BatchIndices(cfg.fpnPostNmsTopN, ls, masks);
  }

  /** The positions behind per-batch masks. */
  lemma BatchIndices(topN: nat, ls: seq<BoxList>, masks: seq<seq<bool>>) returns (idx: seq<nat>)
    requires AllHaveObjectness(ls) && BatchMasks(topN, ls, masks)
    ensures IsTopK(AllObjectness(ls), Min(topN, TotalLength(ls)), idx)
    ensures masks == SplitBySizes(MaskOf(idx, TotalLength(ls)), Sizes(ls))
  {
    var all := AllObjectness(ls);
    idx :| IsTopK(all, Min(topN, |all|), idx) && masks == SplitBySizes(MaskOf(idx, |all|), Sizes(ls));
  }

  /** Keeping the pieces of a mask of `idx` keeps `|idx|` elements in total. */
  lemma MaskedTotal(ls: seq<BoxList>, outs: seq<BoxList>, idx: seq<nat>, masks: seq<seq<bool>>)
    requires IsSelection(idx, TotalLength(ls))
    requires masks == SplitBySizes(MaskOf(idx, TotalLength(ls)), Sizes(ls))
    requires |outs| == |ls|
    requires forall i :: 0 <= i < |ls| ==> |masks[i]| == Length(ls[i]) && outs[i] == Keep(ls[i], masks[i])
    ensures TotalLength(outs) == |idx|
  {
    CountTrueFlatten(masks);
    MaskCount(idx, TotalLength(ls));
    assert Sizes(outs) == seq(|masks|, i requires 0 <= i < |masks| => CountTrue(masks[i]));
  }

  /** Per-batch mode keeps `min(fpn_post_nms_top_n, total)` boxes over the whole batch. */
  lemma BatchSelectionCount(cfg: RpnConfig, training: bool, ls: seq<BoxList>, outs: seq<BoxList>)
    requires AllHaveObjectness(ls) && SelectedOverAllLayers(cfg, training, ls, outs)
    requires training && cfg.fpnPostNmsPerBatch
    ensures TotalLength(outs) == Min(cfg.fpnPostNmsTopN, TotalLength(ls))
  {
    var idx, masks := BatchWitness(cfg, training, ls, outs);
    MaskedTotal(ls, outs, idx, masks);
  }

  /** Per-batch mode: every image's survivors keep their original relative order. */
  lemma BatchSelectionOrder(cfg: RpnConfig, training: bool, ls: seq<BoxList>, outs: seq<BoxList>, i: nat)
    requires AllHaveObjectness(ls) && SelectedOverAllLayers(cfg, training, ls, outs)
    requires training && cfg.fpnPostNmsPerBatch && i < |ls|
    ensures exists pos :: InRange(pos, Length(ls[i])) && Increasing(pos) && outs[i] == Select(ls[i], pos)
  {
    var idx, masks := BatchWitness(cfg, training, ls, outs);
    MaskedIsGather(ls[i].entries, masks[i]);
    var pos := TruePositions(masks[i]);
    assert outs[i] == Select(ls[i], pos);
  }

  /** A position its mask drops never beats a position any mask keeps. */
  lemma MaskedDominance(ls: seq<BoxList>, idx: seq<nat>, masks: seq<seq<bool>>, i1: nat, p: nat, i2: nat, q: nat)
    requires AllHaveObjectness(ls)
    requires InRange(idx, TotalLength(ls)) && Dominates(AllObjectness(ls), idx)
    requires masks == SplitBySizes(MaskOf(idx, TotalLength(ls)), Sizes(ls))
    requires i1 < |ls| && p < Length(ls[i1]) && i2 < |ls| && q < Length(ls[i2])
    requires !masks[i1][p] && masks[i2][q]
    ensures Objectness(ls[i1])[p] <= Objectness(ls[i2])[q]
  {
    var all := AllObjectness(ls);
    MaskAtGlobal(ls, idx, masks, i1, p);
    MaskAtGlobal(ls, idx, masks, i2, q);
    var a :| 0 <= a < |idx| && idx[a] == Sum(Sizes(ls[..i2])) + q;
    assert all[Sum(Sizes(ls[..i1])) + p] <= all[idx[a]];
  }

  /** Per-batch mode: a box any image drops never beats a box any image keeps. */
  lemma BatchSelectionGlobal(cfg: RpnConfig, training: bool, ls: seq<BoxList>, outs: seq<BoxList>,
                             i1: nat, i2: nat, e: Entry, d: Entry)
    requires AllHaveObjectness(ls) && SelectedOverAllLayers(cfg, training, ls, outs)
    requires training && cfg.fpnPostNmsPerBatch
    requires i1 < |ls| && i2 < |ls|
    requires e in ls[i1].entries && e !in outs[i1].entries && d in outs[i2].entries
    ensures e.objectness.Some? && d.objectness.Some?
    ensures e.objectness.value <= d.objectness.value
  {
    var idx, masks := BatchWitness(cfg, training, ls, outs);
    MaskedEntryDominance(ls, outs, idx, masks, i1, i2, e, d);
  }

  /** An entry its image's mask drops never beats an entry any mask keeps. */
  lemma MaskedEntryDominance(ls: seq<BoxList>, outs: seq<BoxList>, idx: seq<nat>, masks: seq<seq<bool>>,
                             i1: nat, i2: nat, e: Entry, d: Entry)
    requires AllHaveObjectness(ls)
    requires InRange(idx, TotalLength(ls)) && Dominates(AllObjectness(ls), idx)
    requires masks == SplitBySizes(MaskOf(idx, TotalLength(ls)), Sizes(ls))
    requires |masks| == |ls| == |outs| && i1 < |ls| && i2 < |ls|
    requires |masks[i1]| == Length(ls[i1]) && outs[i1] == Keep(ls[i1], masks[i1])
    requires |masks[i2]| == Length(ls[i2]) && outs[i2] == Keep(ls[i2], masks[i2])
    requires e in ls[i1].entries && e !in outs[i1].entries && d in outs[i2].entries
    ensures e.objectness.Some? && d.objectness.Some?
    ensures e.objectness.value <= d.objectness.value
  {
    var p :| 0 <= p < |ls[i1].entries| && ls[i1].entries[p] == e;
    if masks[i1][p] {
      MaskedKeeps(ls[i1].entries, masks[i1], p);
    }
    MaskedFrom(ls[i2].entries, masks[i2], d);
    var q :| 0 <= q < |ls[i2].entries| && masks[i2][q] && ls[i2].entries[q] == d;
    MaskedDominance(ls, idx, masks, i1, p, i2, q);
  }

  /* ---------------------------------------------------------------------------
     The whole post-processor
     ------------------------------------------------------------------------- */

  /** The shapes `forward` relies on: at least one level, every image has an anchor list
      for every level, and every level fits its anchors. */
  predicate ForwardFits(anchors: seq<seq<BoxList>>, levels: seq<RpnLevel>) {
    |levels| > 0 &&
    (forall i :: 0 <= i < |anchors| ==> |anchors[i]| >= |levels|) &&
    forall l :: 0 <= l < |levels| ==> LevelFits(levels[l], Column(anchors, l))
  }

  /** `sampled[l][i]` is what level `l` yields for image `i`. */
  ghost predicate Sampled(cfg: RpnConfig, ops: Collaborators, anchors: seq<seq<BoxList>>, levels: seq<RpnLevel>,
                          sampled: seq<seq<BoxList>>)
    requires ForwardFits(anchors, levels)
  {
    |sampled| == |levels| &&
    forall l :: 0 <= l < |levels| ==> LevelResult(cfg, ops, levels[l], Column(anchors, l), sampled[l])
  }

  /** `forward` from the per-level results: regroup by image, concatenate, and select
      over all levels when there is more than one. */
  ghost predicate ForwardFrom(cfg: RpnConfig, training: bool, sampled: seq<seq<BoxList>>, n: nat, out: seq<BoxList>)
    requires |sampled| > 0 && forall l :: 0 <= l < |sampled| ==> |sampled[l]| == n
  {
    var cat := CatPerImage(sampled, n);
    if |sampled| > 1 then AllHaveObjectness(cat) && SelectedOverAllLayers(cfg, training, cat, out)
    else out == cat
  }

  ghost predicate ForwardSpec(cfg: RpnConfig, ops: Collaborators, training: bool,
                              anchors: seq<seq<BoxList>>, levels: seq<RpnLevel>, out: seq<BoxList>)
    requires ForwardFits(anchors, levels)
  {
    exists sampled :: Sampled(cfg, ops, anchors, levels, sampled) && ForwardFrom(cfg, training, sampled, |anchors|, out)
  }

  /** Every concatenated per-image list carries objectness. */
  lemma CatPerImageObjectness(cfg: RpnConfig, ops: Collaborators, anchors: seq<seq<BoxList>>, levels: seq<RpnLevel>,
                              sampled: seq<seq<BoxList>>)
    requires ForwardFits(anchors, levels) && Sampled(cfg, ops, anchors, levels, sampled)
    ensures AllHaveObjectness(CatPerImage(sampled, |anchors|))
    ensures forall j :: 0 <= j < |anchors| ==> CatPerImage(sampled, |anchors|)[j].size == anchors[j][0].size
  {
    var cat := CatPerImage(sampled, |anchors|);
    forall l, i | 0 <= l < |levels| && 0 <= i < |anchors|
      ensures HasObjectness(sampled[l][i]) && sampled[l][i].size == anchors[i][l].size
    {
      assert LevelResult(cfg, ops, levels[l], Column(anchors, l), sampled[l]);
      SingleMapFacts(cfg, ops, levels[l], anchors[i][l], i, sampled[l][i]);
    }
    forall j | 0 <= j < |anchors|
      ensures HasObjectness(cat[j])
    {
      forall e | e in cat[j].entries
        ensures e.objectness.Some?
      {
        CatMember(Column(sampled, j), e);
      }
    }
    forall j | 0 <= j < |anchors|
      ensures cat[j].size == anchors[j][0].size
    {
      assert cat[j].size == sampled[0][j].size;
    }
  }

  /** The bucket loops of `forward`: column `j` of `xss` for every `j < width`. */
  method Regroup(xss: seq<seq<BoxList>>, width: nat) returns (columns: seq<seq<BoxList>>)
    requires forall r :: 0 <= r < |xss| ==> |xss[r]| >= width
    ensures |columns| == width
    ensures forall j :: 0 <= j < width ==> columns[j] == Column(xss, j)
  {
    columns := [];
    for j := 0 to width
      invariant |columns| == j
      invariant forall k :: 0 <= k < j ==> columns[k] == Column(xss, k)
    {
      var bucket: seq<BoxList> := [];
      for i := 0 to |xss|
        invariant bucket == seq(i, r requires 0 <= r < i => xss[r][j])
      {
        bucket := bucket + [xss[i][j]];
      }
      columns := columns + [bucket];
    }
  }

  /** The per-level half of `forward`: the anchors regrouped by level, then every
      level's proposals for every image. */
  method SampleLevels(cfg: RpnConfig, ops: Collaborators, anchors: seq<seq<BoxList>>, levels: seq<RpnLevel>)
    returns (sampledBoxes: seq<seq<BoxList>>)
    requires ForwardFits(anchors, levels)
    ensures Sampled(cfg, ops, anchors, levels, sampledBoxes)
    ensures |sampledBoxes| == |levels|
    ensures forall l :: 0 <= l < |sampledBoxes| ==> |sampledBoxes[l]| == |anchors|
  {
    var numLevels := |levels|;
    var anchorsPerFeatureMaps := Regroup(anchors, numLevels);
    sampledBoxes := [];
    for i := 0 to numLevels
      invariant |sampledBoxes| == i
      invariant forall l :: 0 <= l < i ==> |sampledBoxes[l]| == |anchors|
      invariant forall l :: 0 <= l < i ==> LevelResult(cfg, ops, levels[l], Column(anchors, l), sampledBoxes[l])
    {
      var r := ForwardForSingleFeatureMap(cfg, ops, anchorsPerFeatureMaps[i], levels[i]);
      sampledBoxes := sampledBoxes + [r];
    }
  }

  /** The per-image half of `forward`: regroup the level results image by image and
      concatenate each image's lists. */
  method CatByImage(sampledBoxes: seq<seq<BoxList>>, numImgs: nat) returns (catted: seq<BoxList>)
    requires |sampledBoxes| > 0 && forall l :: 0 <= l < |sampledBoxes| ==> |sampledBoxes[l]| == numImgs
    ensures catted == CatPerImage(sampledBoxes, numImgs)
  {
    var boxlists := Regroup(sampledBoxes, numImgs);
    catted := [];
    for j := 0 to numImgs
      invariant |catted| == j
      invariant forall k :: 0 <= k < j ==> catted[k] == Cat(Column(sampledBoxes, k))
    {
      catted := catted + [Cat(boxlists[j])];
    }
  }

  method Forward(cfg: RpnConfig, ops: Collaborators, training: bool,
                 anchors: seq<seq<BoxList>>, levels: seq<RpnLevel>) returns (returnBoxlists: seq<BoxList>)
    requires ForwardFits(anchors, levels)
    ensures |returnBoxlists| == |anchors|
    ensures ForwardSpec(cfg, ops, training, anchors, levels, returnBoxlists)
  {
    var numLevels := |levels|;
    var numImgs := |anchors|;
    var sampledBoxes := SampleLevels(cfg, ops, anchors, levels);
    var catted := CatByImage(sampledBoxes, numImgs);
    if numLevels > 1 {
      CatPerImageObjectness(cfg, ops, anchors, levels, sampledBoxes);
      returnBoxlists := SelectOverAllLayers(cfg, training, catted);
    } else {
      returnBoxlists := catted;
    }
    ForwardSpecIntro(cfg, ops, training, anchors, levels, sampledBoxes, returnBoxlists);
  }

  lemma ForwardSpecIntro(cfg: RpnConfig, ops: Collaborators, training: bool, anchors: seq<seq<BoxList>>,
                         levels: seq<RpnLevel>, sampled: seq<seq<BoxList>>, out: seq<BoxList>)
    requires ForwardFits(anchors, levels) && Sampled(cfg, ops, anchors, levels, sampled)
    requires ForwardFrom(cfg, training, sampled, |anchors|, out)
    ensures ForwardSpec(cfg, ops, training, anchors, levels, out)
  {
  }

  /** With a single level, image `i`'s proposals are that level's result for it, untouched. */
  lemma ForwardSingleLevel(cfg: RpnConfig, ops: Collaborators, training: bool,
                           anchors: seq<seq<BoxList>>, levels: seq<RpnLevel>, out: seq<BoxList>, i: nat)
    requires ForwardFits(anchors, levels) && ForwardSpec(cfg, ops, training, anchors, levels, out)
    requires |levels| == 1 && i < |anchors|
    ensures i < |out| && SingleMapImage(cfg, ops, levels[0], anchors[i][0], i, out[i])
  {
    var sampled :| Sampled(cfg, ops, anchors, levels, sampled) && ForwardFrom(cfg, training, sampled, |anchors|, out);
    assert Column(sampled, i) == [sampled[0][i]];
    CatSingle(sampled[0][i]);
    assert LevelResult(cfg, ops, levels[0], Column(anchors, 0), sampled[0]);
  }

  /** Every proposal list `forward` returns belongs to its image and carries objectness. */
  lemma ForwardFacts(cfg: RpnConfig, ops: Collaborators, training: bool,
                     anchors: seq<seq<BoxList>>, levels: seq<RpnLevel>, out: seq<BoxList>)
    requires ForwardFits(anchors, levels) && ForwardSpec(cfg, ops, training, anchors, levels, out)
    ensures |out| == |anchors|
    ensures forall j :: 0 <= j < |out| ==> HasObjectness(out[j]) && out[j].size == anchors[j][0].size
  {
    var sampled :| Sampled(cfg, ops, anchors, levels, sampled) && ForwardFrom(cfg, training, sampled, |anchors|, out);
    var cat := CatPerImage(sampled, |anchors|);
    CatPerImageObjectness(cfg, ops, anchors, levels, sampled);
    if |levels| > 1 {
      forall j | 0 <= j < |out|
        ensures HasObjectness(out[j]) && out[j].size == anchors[j][0].size
      {
        SelectedFacts(cfg, training, cat, out, j);
      }
    }
  }

  /* ---------------------------------------------------------------------------
     Ground-truth proposals
     ------------------------------------------------------------------------- */

  /** `out` is `proposals` followed by the boxes of `targets`, each with objectness 1 and
      no other field. */
  ghost predicate GtAppendedTo(proposals: BoxList, targets: BoxList, out: BoxList) {
    out.size == proposals.size &&
    Length(out) == Length(proposals) + Length(targets) &&
    out.entries[..Length(proposals)] == proposals.entries &&
    forall k :: 0 <= k < Length(targets) ==>
      out.entries[Length(proposals) + k] == Entry(targets.entries[k].box, Some(1.0), None, None)
  }

  /** Every image's proposals with its ground truth appended. */
  ghost predicate GtAppended(proposals: seq<BoxList>, targets: seq<BoxList>, out: seq<BoxList>)
    requires |targets| >= |proposals|
  {
    |out| == |proposals| &&
    forall i :: 0 <= i < |proposals| ==> GtAppendedTo(proposals[i], targets[i], out[i])
  }

  function Ones(n: nat): seq<real> { seq(n, _ => 1.0) }

  /** The ground-truth boxes of one image, with objectness 1. */
  function GtBoxes(targets: BoxList): BoxList {
    AddObjectness(StripFields(targets), Ones(Length(targets)))
  }

  lemma GtAppendedCat(proposals: BoxList, targets: BoxList)
    ensures GtAppendedTo(proposals, targets, Cat([proposals, GtBoxes(targets)]))
  {
    CatPair(proposals, GtBoxes(targets));
  }

  method AddGtProposals(proposals: seq<BoxList>, targets: seq<BoxList>) returns (returnProposals: seq<BoxList>)
    requires |proposals| > 0 && |targets| >= |proposals|
    ensures GtAppended(proposals, targets, returnProposals)
  {
    var gtBoxes: seq<BoxList> := [];
    for t := 0 to |targets|
      invariant gtBoxes == seq(t, k requires 0 <= k < t => StripFields(targets[k]))
    {
      gtBoxes := gtBoxes + [StripFields(targets[t])];
    }
    for t := 0 to |gtBoxes|
      invariant |gtBoxes| == |targets|
      invariant forall k :: 0 <= k < t ==> gtBoxes[k] == GtBoxes(targets[k])
      invariant forall k :: t <= k < |targets| ==> gtBoxes[k] == StripFields(targets[k])
    {
      gtBoxes := gtBoxes[t := AddObjectness(gtBoxes[t], Ones(Length(gtBoxes[t])))];
    }
    returnProposals := [];
    for i := 0 to |proposals|
      invariant |returnProposals| == i
      invariant forall k :: 0 <= k < i ==> GtAppendedTo(proposals[k], targets[k], returnProposals[k])
    {
      GtAppendedCat(proposals[i], targets[i]);
      returnProposals := returnProposals + [Cat([proposals[i], gtBoxes[i]])];
    }
  }

  /** `forward(anchors, objectness, box_regression, targets)`: the proposals, with the
      ground truth appended while training. */
  method ForwardWithTargets(cfg: RpnConfig, ops: Collaborators, training: bool,
                            anchors: seq<seq<BoxList>>, levels: seq<RpnLevel>, targets: seq<BoxList>)
    returns (boxlists: seq<BoxList>)
    requires ForwardFits(anchors, levels)
    requires training ==> |anchors| > 0 && |targets| >= |anchors|
    ensures training ==> exists proposals :: ForwardSpec(cfg, ops, training, anchors, levels, proposals) &&
                                             GtAppended(proposals, targets, boxlists)
    ensures !training ==> ForwardSpec(cfg, ops, training, anchors, levels, boxlists)
  {
    boxlists := Forward(cfg, ops, training, anchors, levels);
    if training {
      ghost var proposals := boxlists;
      boxlists := AddGtProposals(boxlists, targets);
      assert ForwardSpec(cfg, ops, training, anchors, levels, proposals);
    }
  }
}
