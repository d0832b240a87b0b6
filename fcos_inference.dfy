/** FCOS post-processing (`FCOSPostProcessorImpl`): per level and image, threshold the
    class probabilities, keep the best candidates, turn each candidate location and its
    four regressed distances into a box labelled and scored; then, per list, run
    non-maximum suppression class by class.

    The model follows the code as written, including the label taken from the location
    column, the subtraction in the decoding of the right and bottom edges, the
    concatenation of a level's images into one list and the read of a field named
    "score"; each is discussed, with the evidently intended version, in
    `FcosFindings`. */
module FcosInference {
  import opened Selection
  import opened Boxes

  /** The post-processor's parameters (constructor, inference.cpp:8-16). */
  datatype FcosConfig = FcosConfig(preNmsThresh: real, preNmsTopN: nat, nmsThresh: real,
                                   fpnPostNumTopN: int, minSize: int, numClasses: int)

  /** A feature-map location, in input-image pixels. */
  datatype Point = Point(x: int, y: int)

  /** One level's head outputs for a batch, already in location-major layout:
      `boxCls[i][p][c]` the class logits of image i at location p, `regression[i][p]`
      the four regressed distances, `centerness[i][p]` the centerness logit. */
  datatype FcosLevel = FcosLevel(boxCls: seq<seq<seq<real>>>, regression: seq<seq<Delta>>,
                                 centerness: seq<seq<real>>)

  /** A candidate: a row of `nonzero()` on the [locations, classes] mask. */
  datatype Candidate = Candidate(loc: nat, cls: nat)

  /** Image i of the level has one class row, one regression and one centerness per
      location. */
  predicate ImageFits(level: FcosLevel, locations: seq<Point>, i: nat) {
    i < |level.boxCls| && i < |level.regression| && i < |level.centerness| &&
    |level.boxCls[i]| == |locations| && |level.regression[i]| == |locations| &&
    |level.centerness[i]| == |locations|
  }

  /** Every image of the level fits, and each has an image size. */
  predicate LevelFits(level: FcosLevel, locations: seq<Point>, imageSizes: seq<ImageSize>) {
    |level.boxCls| <= |imageSizes| &&
    |level.regression| == |level.boxCls| && |level.centerness| == |level.boxCls| &&
    forall i :: 0 <= i < |level.boxCls| ==> ImageFits(level, locations, i)
  }

  /* ---------------------------------------------------------------------------
     Per level and image (forward_for_single_feature_map)
     ------------------------------------------------------------------------- */

  /** `box_cls.sigmoid()` for image i. */
  function ClassProbs(ops: Collaborators, level: FcosLevel, i: nat): seq<seq<real>>
    requires i < |level.boxCls|
  {
    var logits := level.boxCls[i];
    seq(|logits|, p requires 0 <= p < |logits| =>
      seq(|logits[p]|, c requires 0 <= c < |logits[p]| => ops.sigmoid(logits[p][c])))
  }

  /** `centerness.sigmoid()` for image i. */
  function CenternessProbs(ops: Collaborators, level: FcosLevel, i: nat): seq<real>
    requires i < |level.centerness|
  {
    seq(|level.centerness[i]|, p requires 0 <= p < |level.centerness[i]| => ops.sigmoid(level.centerness[i][p]))
  }

  /** `box_cls * centerness`: each class probability scaled by its location's centerness. */
  function ScoreMatrix(probs: seq<seq<real>>, ctr: seq<real>): seq<seq<real>>
    requires |ctr| == |probs|
  {
    seq(|probs|, p requires 0 <= p < |probs| =>
      seq(|probs[p]|, c requires 0 <= c < |probs[p]| => probs[p][c] * ctr[p]))
  }

  /** `box_cls > pre_nms_thresh`. */
  function CandidateMask(probs: seq<seq<real>>, thresh: real): seq<seq<bool>> {
    seq(|probs|, p requires 0 <= p < |probs| =>
      seq(|probs[p]|, c requires 0 <= c < |probs[p]| => probs[p][c] > thresh))
  }

  /** The candidates of location p: its classes above the threshold, in class order. */
  function RowCandidates(p: nat, row: seq<real>, thresh: real): seq<Candidate> {
    Masked(seq(|row|, c requires 0 <= c < |row| => Candidate(p, c)),
           seq(|row|, c requires 0 <= c < |row| => row[c] > thresh))
  }

  /** `per_candidate_inds.nonzero()`: the (location, class) pairs above the threshold,
      location by location. */
  function Candidates(probs: seq<seq<real>>, thresh: real): (r: seq<Candidate>)
    ensures RowMajor(r)
    ensures forall k :: 0 <= k < |r| ==> r[k].loc < |probs|
  {
    RowsInOrder(probs, thresh);
    Flatten(CandidateRows(probs, thresh))
  }

  /** The candidates of every location, one sequence per location. */
  function CandidateRows(probs: seq<seq<real>>, thresh: real): seq<seq<Candidate>> {
    seq(|probs|, p requires 0 <= p < |probs| => RowCandidates(p, probs[p], thresh))
  }

  /** Strictly increasing by location, then by class: the order of `nonzero()` on a
      location-by-class matrix. */
  predicate RowMajor(cands: seq<Candidate>) {
    forall a, b :: 0 <= a < b < |cands| ==>
      cands[a].loc < cands[b].loc || (cands[a].loc == cands[b].loc && cands[a].cls < cands[b].cls)
  }

  /** The candidates of one location all name that location, in increasing class order. */
  lemma RowInOrder(p: nat, row: seq<real>, thresh: real)
    ensures RowMajor(RowCandidates(p, row, thresh))
    ensures forall k :: 0 <= k < |RowCandidates(p, row, thresh)| ==> RowCandidates(p, row, thresh)[k].loc == p
  {
    var xs := seq(|row|, c requires 0 <= c < |row| => Candidate(p, c));
    var m := seq(|row|, c requires 0 <= c < |row| => row[c] > thresh);
    MaskedIsGather(xs, m);
  }

  /** The candidates of all locations, location by location, are in row-major order and
      name only those locations. */
  lemma {:induction false} RowsInOrder(probs: seq<seq<real>>, thresh: real)
    ensures RowMajor(Flatten(CandidateRows(probs, thresh)))
    ensures forall k :: 0 <= k < |Flatten(CandidateRows(probs, thresh))| ==> Flatten(CandidateRows(probs, thresh))[k].loc < |probs|
  {
    var n := |probs|;
    if n > 0 {
      var rows := CandidateRows(probs, thresh);
      var init := probs[..n - 1];
      RowsInOrder(init, thresh);
      assert rows[..n - 1] == CandidateRows(init, thresh);
      var g := Flatten(rows[..n - 1]);
      var last := rows[n - 1];
      RowInOrder(n - 1, probs[n - 1], thresh);
      var f := Flatten(rows);
      assert f == g + last;
      forall a, b | 0 <= a < b < |f|
        ensures f[a].loc < f[b].loc || (f[a].loc == f[b].loc && f[a].cls < f[b].cls)
      {
        if b < |g| {
          assert f[a] == g[a] && f[b] == g[b];
        } else if a < |g| {
          assert f[a] == g[a] && f[b] == last[b - |g|];
        } else {
          assert f[a] == last[a - |g|] && f[b] == last[b - |g|];
        }
      }
      forall k | 0 <= k < |f|
        ensures f[k].loc < n
      {
        if k < |g| {
          assert f[k] == g[k];
        } else {
          assert f[k] == last[k - |g|];
        }
      }
    }
  }

  predicate IsCandidate(probs: seq<seq<real>>, thresh: real, cand: Candidate) {
    cand.loc < |probs| && cand.cls < |probs[cand.loc]| && probs[cand.loc][cand.cls] > thresh
  }

  /** The candidates are exactly the entries of the mask that are set. */
  lemma CandidatesExact(probs: seq<seq<real>>, thresh: real, cand: Candidate)
    ensures cand in Candidates(probs, thresh) <==> IsCandidate(probs, thresh, cand)
  {
    var rows := seq(|probs|, p requires 0 <= p < |probs| => RowCandidates(p, probs[p], thresh));
    if cand in Candidates(probs, thresh) {
      FlattenMember(rows, cand);
      var p :| 0 <= p < |rows| && cand in rows[p];
      var row := probs[p];
      MaskedFrom(seq(|row|, c requires 0 <= c < |row| => Candidate(p, c)),
                 seq(|row|, c requires 0 <= c < |row| => row[c] > thresh), cand);
    }
    if IsCandidate(probs, thresh, cand) {
      var p, row := cand.loc, probs[cand.loc];
      MaskedKeeps(seq(|row|, c requires 0 <= c < |row| => Candidate(p, c)),
                  seq(|row|, c requires 0 <= c < |row| => row[c] > thresh), cand.cls);
      assert cand in rows[p];
      var j :| 0 <= j < |rows[p]| && rows[p][j] == cand;
      FlattenAt(rows, p, j);
    }
  }

  /** Every candidate addresses a set entry of the mask. */
  lemma CandidatesValid(probs: seq<seq<real>>, thresh: real)
    ensures forall k :: 0 <= k < |Candidates(probs, thresh)| ==> IsCandidate(probs, thresh, Candidates(probs, thresh)[k])
  {
    forall k | 0 <= k < |Candidates(probs, thresh)|
      ensures IsCandidate(probs, thresh, Candidates(probs, thresh)[k])
    {
      CandidatesExact(probs, thresh, Candidates(probs, thresh)[k]);
    }
  }

  /** `per_candidate_inds.sum()` counts the candidates. */
  lemma CandidateCount(probs: seq<seq<real>>, thresh: real)
    ensures |Candidates(probs, thresh)| == CountTrue(Flatten(CandidateMask(probs, thresh)))
  {
    var n := |probs|;
    var rows := seq(n, p requires 0 <= p < n => RowCandidates(p, probs[p], thresh));
    var masks := CandidateMask(probs, thresh);
    FlattenLength(rows);
    CountTrueFlatten(masks);
    assert Lengths(rows) == seq(n, p requires 0 <= p < n => CountTrue(masks[p])) by {
      forall p | 0 <= p < n
        ensures |rows[p]| == CountTrue(masks[p])
      {
        var row := probs[p];
        assert masks[p] == seq(|row|, c requires 0 <= c < |row| => row[c] > thresh);
      }
    }
  }

  /** Every candidate addresses an entry of the matrix. */
  predicate Addresses(m: seq<seq<real>>, cands: seq<Candidate>) {
    forall k :: 0 <= k < |cands| ==> cands[k].loc < |m| && cands[k].cls < |m[cands[k].loc]|
  }

  /** `per_box_cls[per_candidate_inds]`: the scores at the candidates, in their order. */
  function CandidateScores(scored: seq<seq<real>>, cands: seq<Candidate>): seq<real>
    requires Addresses(scored, cands)
  {
    seq(|cands|, k requires 0 <= k < |cands| => scored[cands[k].loc][cands[k].cls])
  }

  /** The box of a location and its four distances, as inference.cpp:96-102 writes it:
      both x-coordinates are the location's x minus a distance, both y-coordinates its y
      minus a distance. */
  function DecodeAsWritten(loc: Point, r: Delta): (b: Box)
    ensures loc.x as real - b.x1 == r.d0 && loc.y as real - b.y1 == r.d1
    ensures loc.x as real - b.x2 == r.d2 && loc.y as real - b.y2 == r.d3
    ensures b.x2 - b.x1 == r.d0 - r.d2 && b.y2 - b.y1 == r.d1 - r.d3
  {
    Box(loc.x as real - r.d0, loc.y as real - r.d1, loc.x as real - r.d2, loc.y as real - r.d3)
  }

  /** The label of a candidate, as inference.cpp:79 writes it: column 0 of the nonzero
      rows (the location) plus one. */
  function LabelAsWritten(cand: Candidate): (lab: int)
    ensures lab > 0 && lab - 1 == cand.loc
    ensures lab - 1 == cand.cls <==> cand.loc == cand.cls
  {
    cand.loc + 1
  }

  /** Lines 96-109 for the picked candidates: decoded boxes labelled and scored, clamped
      to the image, small boxes removed. */
  function ImageDetections(cfg: FcosConfig, ops: Collaborators, scored: seq<seq<real>>, regression: seq<Delta>,
                           locations: seq<Point>, size: ImageSize, picked: seq<Candidate>): BoxList
    requires Addresses(scored, picked) && |regression| == |scored| && |locations| == |scored|
  {
    var boxes := seq(|picked|, k requires 0 <= k < |picked| =>
                       DecodeAsWritten(locations[picked[k].loc], regression[picked[k].loc]));
    var labels := seq(|picked|, k requires 0 <= k < |picked| => LabelAsWritten(picked[k]));
    var withLabels := AddLabels(FromBoxes(boxes, size), labels);
    var withScores := AddScores(withLabels, CandidateScores(scored, picked));
    RemoveSmallBoxes(ops, ClipToImage(ops, withScores), cfg.minSize)
  }

  /** Image i's list, given the positions `sel` that `topk` picks among the candidates
      when there are more than `pre_nms_top_n` of them: the `pre_nms_top_n`
      best-scored candidates (in any order) when there are more, all candidates
      otherwise. */
  ghost predicate ImageResult(cfg: FcosConfig, ops: Collaborators, level: FcosLevel, locations: seq<Point>,
                              size: ImageSize, i: nat, sel: seq<nat>, out: BoxList)
    requires ImageFits(level, locations, i)
  {
    var probs := ClassProbs(ops, level, i);
    var scored := ScoreMatrix(probs, CenternessProbs(ops, level, i));
    var cands := Candidates(probs, cfg.preNmsThresh);
    CandidatesValid(probs, cfg.preNmsThresh);
    if |cands| > cfg.preNmsTopN then
      IsTopKSet(CandidateScores(scored, cands), cfg.preNmsTopN, sel) &&
      out == ImageDetections(cfg, ops, scored, level.regression[i], locations, size, Gather(cands, sel))
    else
      out == ImageDetections(cfg, ops, scored, level.regression[i], locations, size, cands)
  }

  /** Image i's list, for some admissible choice of `topk`. */
  ghost predicate SingleMapImage(cfg: FcosConfig, ops: Collaborators, level: FcosLevel, locations: seq<Point>,
                                 size: ImageSize, i: nat, out: BoxList)
    requires ImageFits(level, locations, i)
  {
    exists sel :: ImageResult(cfg, ops, level, locations, size, i, sel, out)
  }

  /** `forward_for_single_feature_map`: one list per image of the batch. */
  method ForwardForSingleFeatureMap(cfg: FcosConfig, ops: Collaborators, locations: seq<Point>, level: FcosLevel,
                                    imageSizes: seq<ImageSize>) returns (results: seq<BoxList>)
    requires LevelFits(level, locations, imageSizes)
    ensures |results| == |level.boxCls|
    ensures forall i :: 0 <= i < |results| ==> SingleMapImage(cfg, ops, level, locations, imageSizes[i], i, results[i])
  {
    var n := |level.boxCls|;
    // Lines 71-110: one list per image; the batched lines 56-68 are computed on each
    // image's slice.
    results := [];
    ghost var sels: seq<seq<nat>> := [];
    for i := 0 to n
      invariant |results| == i && |sels| == i
      invariant forall k :: 0 <= k < i ==>
        ImageFits(level, locations, k) && ImageResult(cfg, ops, level, locations, imageSizes[k], k, sels[k], results[k])
    {
      assert ImageFits(level, locations, i);
      var boxlist, sel := ImageForward(cfg, ops, locations, level, i, imageSizes[i]);
      results := results + [boxlist];
      sels := sels + [sel];
    }
    SingleMapIntro(cfg, ops, level, locations, imageSizes, sels, results);
  }

  lemma SingleMapIntro(cfg: FcosConfig, ops: Collaborators, level: FcosLevel, locations: seq<Point>,
                       imageSizes: seq<ImageSize>, sels: seq<seq<nat>>, results: seq<BoxList>)
    requires LevelFits(level, locations, imageSizes)
    requires |results| == |sels| == |level.boxCls|
    requires forall k :: 0 <= k < |results| ==>
      ImageFits(level, locations, k) && ImageResult(cfg, ops, level, locations, imageSizes[k], k, sels[k], results[k])
    ensures forall k :: 0 <= k < |results| ==> SingleMapImage(cfg, ops, level, locations, imageSizes[k], k, results[k])
  {
    forall k | 0 <= k < |results|
      ensures SingleMapImage(cfg, ops, level, locations, imageSizes[k], k, results[k])
    {
      assert ImageResult(cfg, ops, level, locations, imageSizes[k], k, sels[k], results[k]);
    }
  }

  /** The body of the per-image loop of `forward_for_single_feature_map`
      (inference.cpp:73-109), preceded by lines 56-68 on image i's slice; `sel` is the
      positions `topk` picked, if it ran. */
  method ImageForward(cfg: FcosConfig, ops: Collaborators, locations: seq<Point>, level: FcosLevel, i: nat,
                      size: ImageSize)
    returns (boxlist: BoxList, ghost sel: seq<nat>)
    requires ImageFits(level, locations, i)
    ensures ImageResult(cfg, ops, level, locations, size, i, sel, boxlist)
  {
    var probs := ClassProbs(ops, level, i);
    var perCandidateInds := CandidateMask(probs, cfg.preNmsThresh);
    var perPreNmsTopN := Min(CountTrue(Flatten(perCandidateInds)), cfg.preNmsTopN);
    var scored := ScoreMatrix(probs, CenternessProbs(ops, level, i));
    var regression := level.regression[i];
    var nonzeros := Candidates(probs, cfg.preNmsThresh);
    CandidatesValid(probs, cfg.preNmsThresh);
    CandidateCount(probs, cfg.preNmsThresh);
    var perBoxCls := CandidateScores(scored, nonzeros);
    var perBoxLoc := seq(|nonzeros|, k requires 0 <= k < |nonzeros| => nonzeros[k].loc);
    var perClass := seq(|nonzeros|, k requires 0 <= k < |nonzeros| => LabelAsWritten(nonzeros[k]));
    var perBoxRegression := Gather(regression, perBoxLoc);
    var perLocations := Gather(locations, perBoxLoc);
    ghost var picked := nonzeros;
    sel := [];
    if CountTrue(Flatten(perCandidateInds)) > perPreNmsTopN {
      var topKIndices := TopK(perBoxCls, perPreNmsTopN);
      perBoxCls := Gather(perBoxCls, topKIndices);
      perClass := Gather(perClass, topKIndices);
      perBoxRegression := Gather(perBoxRegression, topKIndices);
      perLocations := Gather(perLocations, topKIndices);
      picked := Gather(nonzeros, topKIndices);
      sel := topKIndices;
    }
    assert Addresses(scored, picked);
    assert perBoxCls == CandidateScores(scored, picked);
    assert perClass == seq(|picked|, k requires 0 <= k < |picked| => LabelAsWritten(picked[k]));
    var detections := seq(|perLocations|, k requires 0 <= k < |perLocations| =>
                            DecodeAsWritten(perLocations[k], perBoxRegression[k]));
    assert detections == seq(|picked|, k requires 0 <= k < |picked| =>
                               DecodeAsWritten(locations[picked[k].loc], regression[picked[k].loc]));
    boxlist := FromBoxes(detections, size);
    boxlist := AddLabels(boxlist, perClass);
    boxlist := AddScores(boxlist, perBoxCls);
    boxlist := ClipToImage(ops, boxlist);
    boxlist := RemoveSmallBoxes(ops, boxlist, cfg.minSize);
  }

  /** The entry a candidate becomes: the clamped decoding of its location, no
      objectness, its score, its label as written. */
  function CandidateEntry(ops: Collaborators, scored: seq<seq<real>>, regression: seq<Delta>, locations: seq<Point>,
                          size: ImageSize, cand: Candidate): Entry
    requires cand.loc < |scored| && cand.cls < |scored[cand.loc]|
    requires |regression| == |scored| && |locations| == |scored|
  {
    Entry(ops.clip(DecodeAsWritten(locations[cand.loc], regression[cand.loc]), size), None,
          Some(scored[cand.loc][cand.cls]), Some(LabelAsWritten(cand)))
  }

  /** e is the entry of candidate `cand` of image i: its box the clamped decoding of the
      candidate's location, no objectness, the candidate's score, its label as
      written. */
  ghost predicate FromCandidate(cfg: FcosConfig, ops: Collaborators, level: FcosLevel, locations: seq<Point>,
                                size: ImageSize, i: nat, e: Entry)
    requires ImageFits(level, locations, i)
  {
    var probs := ClassProbs(ops, level, i);
    var scored := ScoreMatrix(probs, CenternessProbs(ops, level, i));
    exists cand :: IsCandidate(probs, cfg.preNmsThresh, cand) &&
      e == CandidateEntry(ops, scored, level.regression[i], locations, size, cand)
  }

  /** The detections of the picked candidates: no more than were picked, scored and
      labelled, each the entry of one picked candidate. */
  lemma DetectionsFacts(cfg: FcosConfig, ops: Collaborators, scored: seq<seq<real>>, regression: seq<Delta>,
                        locations: seq<Point>, size: ImageSize, picked: seq<Candidate>)
    requires Addresses(scored, picked) && |regression| == |scored| && |locations| == |scored|
    ensures var out := ImageDetections(cfg, ops, scored, regression, locations, size, picked);
      out.size == size && Length(out) <= |picked| && HasScores(out) && HasLabels(out) &&
      forall e :: e in out.entries ==>
        exists k :: 0 <= k < |picked| && e == CandidateEntry(ops, scored, regression, locations, size, picked[k])
  {
    var out := ImageDetections(cfg, ops, scored, regression, locations, size, picked);
    var boxes := seq(|picked|, k requires 0 <= k < |picked| =>
                       DecodeAsWritten(locations[picked[k].loc], regression[picked[k].loc]));
    var labels := seq(|picked|, k requires 0 <= k < |picked| => LabelAsWritten(picked[k]));
    var clipped := ClipToImage(ops, AddScores(AddLabels(FromBoxes(boxes, size), labels), CandidateScores(scored, picked)));
    assert out == RemoveSmallBoxes(ops, clipped, cfg.minSize);
    forall e | e in out.entries
      ensures exists k :: 0 <= k < |picked| && e == CandidateEntry(ops, scored, regression, locations, size, picked[k])
    {
      assert e in clipped.entries;
      var k :| 0 <= k < |clipped.entries| && clipped.entries[k] == e;
      assert e == Entry(ops.clip(boxes[k], size), None, Some(scored[picked[k].loc][picked[k].cls]), Some(labels[k]));
    }
  }

  /** The candidates image i's list is made of: no more than `pre_nms_top_n` of them. */
  lemma ImagePicked(cfg: FcosConfig, ops: Collaborators, level: FcosLevel, locations: seq<Point>,
                    size: ImageSize, i: nat, sel: seq<nat>, out: BoxList) returns (picked: seq<Candidate>)
    requires ImageFits(level, locations, i) && ImageResult(cfg, ops, level, locations, size, i, sel, out)
    ensures |picked| <= cfg.preNmsTopN
    ensures forall k :: 0 <= k < |picked| ==> IsCandidate(ClassProbs(ops, level, i), cfg.preNmsThresh, picked[k])
    ensures var scored := ScoreMatrix(ClassProbs(ops, level, i), CenternessProbs(ops, level, i));
      Addresses(scored, picked) &&
      out == ImageDetections(cfg, ops, scored, level.regression[i], locations, size, picked)
  {
    var probs := ClassProbs(ops, level, i);
    var cands := Candidates(probs, cfg.preNmsThresh);
    CandidatesValid(probs, cfg.preNmsThresh);
    if |cands| > cfg.preNmsTopN {
      picked := Gather(cands, sel);
    } else {
      picked := cands;
    }
  }

  /** Image i's list has at most `pre_nms_top_n` entries, scores and labels, and each of
      its entries is a candidate's. */
  lemma ImageFacts(cfg: FcosConfig, ops: Collaborators, level: FcosLevel, locations: seq<Point>,
                   size: ImageSize, i: nat, out: BoxList)
    requires ImageFits(level, locations, i) && SingleMapImage(cfg, ops, level, locations, size, i, out)
    ensures out.size == size && Length(out) <= cfg.preNmsTopN
    ensures HasScores(out) && HasLabels(out)
    ensures forall e :: e in out.entries ==> FromCandidate(cfg, ops, level, locations, size, i, e)
  {
    var sel :| ImageResult(cfg, ops, level, locations, size, i, sel, out);
    var picked := ImagePicked(cfg, ops, level, locations, size, i, sel, out);
    var probs := ClassProbs(ops, level, i);
    var scored := ScoreMatrix(probs, CenternessProbs(ops, level, i));
    var regression := level.regression[i];
    DetectionsFacts(cfg, ops, scored, regression, locations, size, picked);
    forall e | e in out.entries
      ensures FromCandidate(cfg, ops, level, locations, size, i, e)
    {
      var k :| 0 <= k < |picked| && e == CandidateEntry(ops, scored, regression, locations, size, picked[k]);
      assert IsCandidate(probs, cfg.preNmsThresh, picked[k]);
    }
  }

  /** Every entry of image i's list is a candidate's: its score the candidate's class
      probability times its location's centerness probability, its label the location
      plus one, its box the clamped decoding of its location, and no objectness. */
  lemma ImageEntryFields(cfg: FcosConfig, ops: Collaborators, level: FcosLevel, locations: seq<Point>,
                         size: ImageSize, i: nat, out: BoxList, e: Entry)
    returns (cand: Candidate, prob: real, centerness: real)
    requires ImageFits(level, locations, i) && SingleMapImage(cfg, ops, level, locations, size, i, out)
    requires e in out.entries
    ensures IsCandidate(ClassProbs(ops, level, i), cfg.preNmsThresh, cand)
    ensures prob == ClassProbs(ops, level, i)[cand.loc][cand.cls] && prob > cfg.preNmsThresh
    ensures cand.loc < |CenternessProbs(ops, level, i)| && centerness == CenternessProbs(ops, level, i)[cand.loc]
    ensures e.score == Some(prob * centerness)
    ensures e.classLabel == Some(cand.loc + 1) && e.objectness == None
    ensures e.box == ops.clip(DecodeAsWritten(locations[cand.loc], level.regression[i][cand.loc]), size)
  {
    ImageFacts(cfg, ops, level, locations, size, i, out);
    cand, prob, centerness := CandidateFields(cfg, ops, level, locations, size, i, e);
  }

  /** The fields of a candidate's entry. */
  lemma CandidateFields(cfg: FcosConfig, ops: Collaborators, level: FcosLevel, locations: seq<Point>,
                        size: ImageSize, i: nat, e: Entry) returns (cand: Candidate, prob: real, centerness: real)
    requires ImageFits(level, locations, i) && FromCandidate(cfg, ops, level, locations, size, i, e)
    ensures IsCandidate(ClassProbs(ops, level, i), cfg.preNmsThresh, cand)
    ensures prob == ClassProbs(ops, level, i)[cand.loc][cand.cls] && prob > cfg.preNmsThresh
    ensures cand.loc < |CenternessProbs(ops, level, i)| && centerness == CenternessProbs(ops, level, i)[cand.loc]
    ensures e.score == Some(prob * centerness)
    ensures e.classLabel == Some(cand.loc + 1) && e.objectness == None
    ensures e.box == ops.clip(DecodeAsWritten(locations[cand.loc], level.regression[i][cand.loc]), size)
  {
    var probs := ClassProbs(ops, level, i);
    var ctr := CenternessProbs(ops, level, i);
    var scored := ScoreMatrix(probs, ctr);
    cand :| IsCandidate(probs, cfg.preNmsThresh, cand) &&
      e == CandidateEntry(ops, scored, level.regression[i], locations, size, cand);
    prob, centerness := probs[cand.loc][cand.cls], ctr[cand.loc];
    assert scored[cand.loc][cand.cls] == prob * centerness;
  }

  /* ---------------------------------------------------------------------------
     Class by class (select_over_all_levels)
     ------------------------------------------------------------------------- */

  /** The cap passed to `nms` by `nms(nms_thresh)`: none. */
  const NoCap: int := -1

  /** `(labels == j).nonzero()`: the positions labelled j, in increasing order. */
  function ClassPositions(l: BoxList, j: int): (r: seq<nat>)
    requires HasLabels(l)
    ensures InRange(r, Length(l)) && Increasing(r)
    ensures forall a :: 0 <= a < |r| ==> l.entries[r[a]].classLabel == Some(j)
    ensures forall k :: 0 <= k < Length(l) ==> (k in r <==> l.entries[k].classLabel == Some(j))
  {
    var m := seq(Length(l), k requires 0 <= k < Length(l) => Labels(l)[k] == j);
    var r := TruePositions(m);
    forall k | 0 <= k < Length(l)
      ensures m[k] <==> l.entries[k].classLabel == Some(j)
    {
      assert l.entries[k] in l.entries;
      assert m[k] == (Labels(l)[k] == j) && Labels(l)[k] == l.entries[k].classLabel.value;
    }
    assert forall a :: 0 <= a < |r| ==> r[a] in r;
    r
  }

  /** Lines 130-134: the boxes and scores of the entries labelled j, as a new list. */
  function ClassEntries(l: BoxList, j: int): (r: BoxList)
    requires HasScores(l) && HasLabels(l)
    ensures r.size == l.size && HasScores(r) && Length(r) == |ClassPositions(l, j)|
    ensures forall a :: 0 <= a < Length(r) ==>
      r.entries[a] == l.entries[ClassPositions(l, j)[a]].(objectness := None, classLabel := None)
  {
    var inds := ClassPositions(l, j);
    AddScores(FromBoxes(Gather(BBox(l), inds), l.size), Gather(Scores(l), inds))
  }

  /** `torch::full({n}, j)` */
  function Filled(n: nat, j: int): (r: seq<int>)
    ensures |r| == n && forall b :: 0 <= b < n ==> r[b] == j
  {
    seq(n, _ => j)
  }

  /** Lines 130-144: the entries labelled j, suppressed by `nms` on their scores, and
      labelled j again. */
  function ClassBlock(cfg: FcosConfig, ops: Collaborators, l: BoxList, j: int): (r: BoxList)
    requires HasScores(l) && HasLabels(l)
    ensures r.size == l.size && HasScores(r) && HasLabels(r)
  {
    var forClass := ClassEntries(l, j);
    var kept := Nms(ops, forClass, Scores(forClass), cfg.nmsThresh, NoCap);
    AddLabels(kept, Filled(Length(kept), j))
  }

  /** Lines 128-147: the blocks of classes 0 .. num_classes-1. */
  function ClassBlocks(cfg: FcosConfig, ops: Collaborators, l: BoxList): (r: seq<BoxList>)
    requires cfg.numClasses > 0 && HasScores(l) && HasLabels(l)
    ensures |r| == cfg.numClasses
    ensures forall j :: 0 <= j < |r| ==> r[j] == ClassBlock(cfg, ops, l, j)
  {
    seq(cfg.numClasses, j requires 0 <= j < cfg.numClasses => ClassBlock(cfg, ops, l, j))
  }

  /** Line 149: the class blocks, concatenated. */
  function PerClass(cfg: FcosConfig, ops: Collaborators, l: BoxList): BoxList
    requires cfg.numClasses > 0 && HasScores(l) && HasLabels(l)
  {
    Cat(ClassBlocks(cfg, ops, l))
  }

  /** Line 152: the cut runs when there are more class blocks than
      `fpn_post_num_top_n` and that is positive. */
  predicate CutRuns(cfg: FcosConfig) {
    cfg.numClasses > cfg.fpnPostNumTopN > 0
  }

  /** `select_over_all_levels`: each list's class blocks; when the cut runs, the first
      list's lookup of the field "score" fails. */
  method SelectOverAllLevels(cfg: FcosConfig, ops: Collaborators, boxlists: seq<BoxList>) returns (r: Result<seq<BoxList>>)
    requires cfg.numClasses > 0
    requires forall i :: 0 <= i < |boxlists| ==> HasScores(boxlists[i]) && HasLabels(boxlists[i])
    ensures r.Err? <==> |boxlists| > 0 && CutRuns(cfg)
    ensures r.Err? ==> r.error == MissingField("score")
    ensures r.Ok? ==> |r.value| == |boxlists|
    ensures r.Ok? ==> forall i :: 0 <= i < |boxlists| ==> r.value[i] == PerClass(cfg, ops, boxlists[i])
  {
    ghost var expected := seq(|boxlists|, k requires 0 <= k < |boxlists| => PerClass(cfg, ops, boxlists[k]));
    var results: seq<BoxList> := [];
    for i := 0 to |boxlists|
      invariant results == expected[..i]
      invariant CutRuns(cfg) ==> i == 0
    {
      var result := SelectOverOneList(cfg, ops, boxlists[i]);
      if result.Err? {
        r := Err(result.error);
        return;
      }
      assert expected[..i + 1] == expected[..i] + [result.value];
      results := results + [result.value];
    }
    assert results == expected;
    r := Ok(results);
  }

  /** The body of the loop of lines 121-160 for one list: its class blocks, or the
      error of the cut. */
  method SelectOverOneList(cfg: FcosConfig, ops: Collaborators, bList: BoxList) returns (r: Result<BoxList>)
    requires cfg.numClasses > 0 && HasScores(bList) && HasLabels(bList)
    ensures r.Err? <==> CutRuns(cfg)
    ensures r.Err? ==> r.error == MissingField("score")
    ensures r.Ok? ==> r.value == PerClass(cfg, ops, bList)
  {
    var imgret := SuppressPerClass(cfg, ops, bList);
    var result := Cat(imgret);
    var numberOfDetections := |imgret|;
    if numberOfDetections > cfg.fpnPostNumTopN && cfg.fpnPostNumTopN > 0 {
      var clsScores := GetRealField(result, "score");
      // Only "objectness", "scores" and "labels" are ever added, so the lookup fails
      // and the threshold of lines 155-158 is never computed.
      assert clsScores.Err?;
      return Err(clsScores.error);
    }
    r := Ok(result);
  }

  /** An entry of the input list, its objectness dropped and its label kept. */
  ghost predicate FromList(l: BoxList, e: Entry) {
    exists k :: 0 <= k < Length(l) && e == l.entries[k].(objectness := None)
  }

  /** Block j holds only entries labelled j, each an entry of the input list labelled j
      (its objectness dropped), and no more entries than the input has labelled j. */
  lemma ClassBlockFacts(cfg: FcosConfig, ops: Collaborators, l: BoxList, j: int)
    requires HasScores(l) && HasLabels(l)
    ensures ClassBlock(cfg, ops, l, j).size == l.size
    ensures Length(ClassBlock(cfg, ops, l, j)) <= |ClassPositions(l, j)|
    ensures forall e :: e in ClassBlock(cfg, ops, l, j).entries ==> e.classLabel == Some(j) && FromList(l, e)
  {
    var forClass := ClassEntries(l, j);
    var kept := Nms(ops, forClass, Scores(forClass), cfg.nmsThresh, NoCap);
    var r := AddLabels(kept, Filled(Length(kept), j));
    forall e | e in r.entries
      ensures e.classLabel == Some(j) && FromList(l, e)
    {
      var b :| 0 <= b < Length(r) && r.entries[b] == e;
      assert e == kept.entries[b].(classLabel := Some(j));
      assert kept.entries[b] in forClass.entries;
      var a :| 0 <= a < Length(forClass) && forClass.entries[a] == kept.entries[b];
      var k := ClassPositions(l, j)[a];
      assert l.entries[k].classLabel == Some(j);
      assert e == l.entries[k].(objectness := None);
    }
  }

  /** The concatenated class blocks keep the list's size, carry scores and labels, and
      hold only entries of the input list. */
  lemma PerClassFrom(cfg: FcosConfig, ops: Collaborators, l: BoxList)
    requires cfg.numClasses > 0 && HasScores(l) && HasLabels(l)
    ensures PerClass(cfg, ops, l).size == l.size
    ensures HasScores(PerClass(cfg, ops, l)) && HasLabels(PerClass(cfg, ops, l))
    ensures forall e :: e in PerClass(cfg, ops, l).entries ==> FromList(l, e)
  {
    var n := cfg.numClasses;
    var blocks := ClassBlocks(cfg, ops, l);
    ClassBlockFacts(cfg, ops, l, 0);
    forall e | e in Cat(blocks).entries
      ensures e.score.Some? && e.classLabel.Some? && FromList(l, e)
    {
      CatMember(blocks, e);
      var j :| 0 <= j < n && e in blocks[j].entries;
      ClassBlockFacts(cfg, ops, l, j);
    }
  }

  /** The labels of the concatenated class blocks lie in `[0, num_classes)` and never
      decrease: class 0's entries first, then class 1's, and so on. */
  lemma PerClassLabels(cfg: FcosConfig, ops: Collaborators, l: BoxList)
    requires cfg.numClasses > 0 && HasScores(l) && HasLabels(l)
    ensures HasLabels(PerClass(cfg, ops, l))
    ensures forall k :: 0 <= k < Length(PerClass(cfg, ops, l)) ==> 0 <= Labels(PerClass(cfg, ops, l))[k] < cfg.numClasses
    ensures NonDecreasing(Labels(PerClass(cfg, ops, l)))
  {
    var n := cfg.numClasses;
    var blocks := ClassBlocks(cfg, ops, l);
    forall j | 0 <= j < n
      ensures HasLabels(blocks[j])
      ensures forall b :: 0 <= b < Length(blocks[j]) ==> Labels(blocks[j])[b] == j
    {
      ClassBlockFacts(cfg, ops, l, j);
      assert forall b :: 0 <= b < Length(blocks[j]) ==> blocks[j].entries[b] in blocks[j].entries;
    }
    CatLabels(blocks);
    var labelBlocks := seq(n, j requires 0 <= j < n => Labels(blocks[j]));
    FlattenBlocksSorted(labelBlocks);
    var labels := Labels(Cat(blocks));
    assert forall k :: 0 <= k < |labels| ==> labels[k] in Flatten(labelBlocks);
  }

  /* ---------------------------------------------------------------------------
     All levels (forward)
     ------------------------------------------------------------------------- */

  /** Every level the loop visits has a head output that fits its locations and at least
      one image. */
  predicate ForwardFits(locations: seq<seq<Point>>, levels: seq<FcosLevel>, imageSizes: seq<ImageSize>) {
    |levels| >= |locations| &&
    forall l :: 0 <= l < |locations| ==> LevelFits(levels[l], locations[l], imageSizes) && |levels[l].boxCls| > 0
  }

  /** `sampled[l]` is level l's list per image. */
  ghost predicate Sampled(cfg: FcosConfig, ops: Collaborators, locations: seq<seq<Point>>, levels: seq<FcosLevel>,
                          imageSizes: seq<ImageSize>, sampled: seq<seq<BoxList>>)
    requires ForwardFits(locations, levels, imageSizes)
  {
    |sampled| == |locations| &&
    forall l :: 0 <= l < |locations| ==> LevelSampled(cfg, ops, locations[l], levels[l], imageSizes, sampled[l])
  }

  /** `boxes` is one level's list per image. */
  ghost predicate LevelSampled(cfg: FcosConfig, ops: Collaborators, locations: seq<Point>, level: FcosLevel,
                               imageSizes: seq<ImageSize>, boxes: seq<BoxList>)
    requires LevelFits(level, locations, imageSizes)
  {
    |boxes| == |level.boxCls| &&
    forall i :: 0 <= i < |boxes| ==>
      ImageFits(level, locations, i) && SingleMapImage(cfg, ops, level, locations, imageSizes[i], i, boxes[i])
  }

  /** What `forward` returns when it does not fail: for each level, the class blocks of
      the concatenation of that level's image lists. */
  ghost predicate ForwardResult(cfg: FcosConfig, ops: Collaborators, locations: seq<seq<Point>>, levels: seq<FcosLevel>,
                                imageSizes: seq<ImageSize>, outs: seq<BoxList>)
    requires cfg.numClasses > 0 && ForwardFits(locations, levels, imageSizes)
  {
    exists sampled :: Sampled(cfg, ops, locations, levels, imageSizes, sampled) && |outs| == |locations| &&
      forall l :: 0 <= l < |locations| ==>
        |sampled[l]| > 0 && HasScores(Cat(sampled[l])) && HasLabels(Cat(sampled[l])) &&
        outs[l] == PerClass(cfg, ops, Cat(sampled[l]))
  }

  /** `forward`: one list per level, or the error of the cut. */
  method Forward(cfg: FcosConfig, ops: Collaborators, locations: seq<seq<Point>>, levels: seq<FcosLevel>,
                 imageSizes: seq<ImageSize>) returns (r: Result<seq<BoxList>>)
    requires cfg.numClasses > 0 && ForwardFits(locations, levels, imageSizes)
    ensures r.Err? <==> |locations| > 0 && CutRuns(cfg)
    ensures r.Err? ==> r.error == MissingField("score")
    ensures r.Ok? ==> ForwardResult(cfg, ops, locations, levels, imageSizes, r.value)
  {
    var sampledBoxes := SampleLevels(cfg, ops, locations, levels, imageSizes);
    SampledFields(cfg, ops, locations, levels, imageSizes, sampledBoxes);
    var results := CatEach(sampledBoxes);
    r := SelectOverAllLevels(cfg, ops, results);
  }

  /** Lines 26-34: every level's per-image detections. */
  method SampleLevels(cfg: FcosConfig, ops: Collaborators, locations: seq<seq<Point>>, levels: seq<FcosLevel>,
                      imageSizes: seq<ImageSize>) returns (sampledBoxes: seq<seq<BoxList>>)
    requires ForwardFits(locations, levels, imageSizes)
    ensures Sampled(cfg, ops, locations, levels, imageSizes, sampledBoxes)
  {
    sampledBoxes := [];
    for i := 0 to |locations|
      invariant |sampledBoxes| == i
      invariant forall l :: 0 <= l < i ==> LevelSampled(cfg, ops, locations[l], levels[l], imageSizes, sampledBoxes[l])
    {
      var boxes := ForwardForSingleFeatureMap(cfg, ops, locations[i], levels[i], imageSizes);
      assert LevelSampled(cfg, ops, locations[i], levels[i], imageSizes, boxes);
      sampledBoxes := sampledBoxes + [boxes];
    }
  }

  /** Lines 36-41: each level's image lists concatenated into one list. */
  method CatEach(sampled: seq<seq<BoxList>>) returns (results: seq<BoxList>)
    requires forall l :: 0 <= l < |sampled| ==> |sampled[l]| > 0
    ensures |results| == |sampled|
    ensures forall l :: 0 <= l < |sampled| ==> results[l] == Cat(sampled[l])
  {
    results := [];
    for i := 0 to |sampled|
      invariant |results| == i
      invariant forall l :: 0 <= l < i ==> results[l] == Cat(sampled[l])
    {
      results := results + [Cat(sampled[i])];
    }
  }

  /** Every level's concatenated list carries scores and labels. */
  lemma SampledFields(cfg: FcosConfig, ops: Collaborators, locations: seq<seq<Point>>, levels: seq<FcosLevel>,
                      imageSizes: seq<ImageSize>, sampled: seq<seq<BoxList>>)
    requires ForwardFits(locations, levels, imageSizes) && Sampled(cfg, ops, locations, levels, imageSizes, sampled)
    ensures forall l :: 0 <= l < |sampled| ==>
      |sampled[l]| > 0 && HasScores(Cat(sampled[l])) && HasLabels(Cat(sampled[l]))
  {
    forall l, e | 0 <= l < |sampled| && e in Cat(sampled[l]).entries
      ensures e.score.Some? && e.classLabel.Some?
    {
      CatMember(sampled[l], e);
      var i :| 0 <= i < |sampled[l]| && e in sampled[l][i].entries;
      ImageFacts(cfg, ops, levels[l], locations[l], imageSizes[i], i, sampled[l][i]);
    }
  }

  /** Lines 122-147, for one list: its entries class by class, each class suppressed by
      `nms` and labelled again. */
  method SuppressPerClass(cfg: FcosConfig, ops: Collaborators, bList: BoxList) returns (imgret: seq<BoxList>)
    requires cfg.numClasses > 0 && HasScores(bList) && HasLabels(bList)
    ensures imgret == ClassBlocks(cfg, ops, bList)
  {
    var scores := Scores(bList);
    var boxes := BBox(bList);
    imgret := [];
    for j := 0 to cfg.numClasses
      invariant |imgret| == j
      invariant forall jj :: 0 <= jj < j ==> imgret[jj] == ClassBlock(cfg, ops, bList, jj)
    {
      var inds := ClassPositions(bList, j);
      var scoresJ := Gather(scores, inds);
      var boxesJ := Gather(boxes, inds);
      var boxlistForClass := AddScores(FromBoxes(boxesJ, bList.size), scoresJ);
      assert boxlistForClass == ClassEntries(bList, j);
      boxlistForClass := Nms(ops, boxlistForClass, Scores(boxlistForClass), cfg.nmsThresh, NoCap);
      var numLabels := Length(boxlistForClass);
      boxlistForClass := AddLabels(boxlistForClass, Filled(numLabels, j));
      imgret := imgret + [boxlistForClass];
    }
  }

  /** The per-level lists behind a result of `forward`. */
  lemma ForwardWitness(cfg: FcosConfig, ops: Collaborators, locations: seq<seq<Point>>, levels: seq<FcosLevel>,
                       imageSizes: seq<ImageSize>, outs: seq<BoxList>) returns (sampled: seq<seq<BoxList>>)
    requires cfg.numClasses > 0 && ForwardFits(locations, levels, imageSizes)
    requires ForwardResult(cfg, ops, locations, levels, imageSizes, outs)
    ensures Sampled(cfg, ops, locations, levels, imageSizes, sampled) && |outs| == |locations|
    ensures forall l :: 0 <= l < |locations| ==>
      |sampled[l]| > 0 && HasScores(Cat(sampled[l])) && HasLabels(Cat(sampled[l])) &&
      outs[l] == PerClass(cfg, ops, Cat(sampled[l]))
  {
    sampled :| Sampled(cfg, ops, locations, levels, imageSizes, sampled) && |outs| == |locations| &&
      forall l :: 0 <= l < |locations| ==>
        |sampled[l]| > 0 && HasScores(Cat(sampled[l])) && HasLabels(Cat(sampled[l])) &&
        outs[l] == PerClass(cfg, ops, Cat(sampled[l]));
  }

  /** Every list `forward` returns has its labels in `[0, num_classes)`, in
      non-decreasing order. */
  lemma ForwardLabels(cfg: FcosConfig, ops: Collaborators, locations: seq<seq<Point>>, levels: seq<FcosLevel>,
                      imageSizes: seq<ImageSize>, outs: seq<BoxList>, l: nat)
    requires cfg.numClasses > 0 && ForwardFits(locations, levels, imageSizes)
    requires ForwardResult(cfg, ops, locations, levels, imageSizes, outs) && l < |locations|
    ensures l < |outs| && HasLabels(outs[l]) && HasScores(outs[l])
    ensures forall k :: 0 <= k < Length(outs[l]) ==> 0 <= Labels(outs[l])[k] < cfg.numClasses
    ensures NonDecreasing(Labels(outs[l]))
  {
    var sampled := ForwardWitness(cfg, ops, locations, levels, imageSizes, outs);
    PerClassLabels(cfg, ops, Cat(sampled[l]));
    PerClassFrom(cfg, ops, Cat(sampled[l]));
  }

  /** Every entry `forward` returns for level l is the entry of a candidate of one of
      that level's images. */
  lemma ForwardProvenance(cfg: FcosConfig, ops: Collaborators, locations: seq<seq<Point>>, levels: seq<FcosLevel>,
                          imageSizes: seq<ImageSize>, outs: seq<BoxList>, l: nat, e: Entry)
    requires cfg.numClasses > 0 && ForwardFits(locations, levels, imageSizes)
    requires ForwardResult(cfg, ops, locations, levels, imageSizes, outs) && l < |locations|
    requires l < |outs| && e in outs[l].entries
    ensures exists i ::
      0 <= i < |levels[l].boxCls| && ImageFits(levels[l], locations[l], i) &&
      FromCandidate(cfg, ops, levels[l], locations[l], imageSizes[i], i, e)
  {
    var sampled := ForwardWitness(cfg, ops, locations, levels, imageSizes, outs);
    LevelProvenance(cfg, ops, levels[l], locations[l], imageSizes, sampled[l], e);
  }

  /** Every entry of the class blocks of a level's concatenated image lists is the entry
      of a candidate of one of the level's images. */
  lemma LevelProvenance(cfg: FcosConfig, ops: Collaborators, level: FcosLevel, locations: seq<Point>,
                        imageSizes: seq<ImageSize>, sampledL: seq<BoxList>, e: Entry)
    requires cfg.numClasses > 0 && |sampledL| > 0 && |sampledL| == |level.boxCls| <= |imageSizes|
    requires forall i :: 0 <= i < |sampledL| ==>
      ImageFits(level, locations, i) && SingleMapImage(cfg, ops, level, locations, imageSizes[i], i, sampledL[i])
    requires HasScores(Cat(sampledL)) && HasLabels(Cat(sampledL))
    requires e in PerClass(cfg, ops, Cat(sampledL)).entries
    ensures exists i ::
      0 <= i < |level.boxCls| && ImageFits(level, locations, i) &&
      FromCandidate(cfg, ops, level, locations, imageSizes[i], i, e)
  {
    var cat := Cat(sampledL);
    PerClassFrom(cfg, ops, cat);
    var k :| 0 <= k < Length(cat) && e == cat.entries[k].(objectness := None);
    var x := cat.entries[k];
    CatMember(sampledL, x);
    var i :| 0 <= i < |sampledL| && x in sampledL[i].entries;
    ImageFacts(cfg, ops, level, locations, imageSizes[i], i, sampledL[i]);
    assert FromCandidate(cfg, ops, level, locations, imageSizes[i], i, x);
    assert x.objectness == None;
  }
}
