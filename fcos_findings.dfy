/** Four places where the FCOS post-processor's code departs from what it evidently
    means to compute. For each, a lemma exhibits the code's behaviour on a concrete
    input or states its consequence, and a corrected definition comes with the property
    the code was after. */
module FcosFindings {
  import opened Selection
  import opened Boxes
  import opened FcosInference

  /* ---------------------------------------------------------------------------
     1. The label is taken from the location column (inference.cpp:79)
     ------------------------------------------------------------------------- */

  /** The intended label: the class column of the candidate plus one. */
  function LabelIntended(cand: Candidate): int {
    cand.cls + 1
  }

  /** With two locations and three classes, the only candidate is class 0 at location 1:
      the code labels it 2, which names class column 1, whose probability is below the
      threshold; the intended label is 1. */
  lemma LabelFromLocation()
    ensures Candidate(1, 0) in Candidates([[0.1, 0.1, 0.1], [0.9, 0.1, 0.1]], 0.5)
    ensures LabelAsWritten(Candidate(1, 0)) == 2
    ensures [[0.1, 0.1, 0.1], [0.9, 0.1, 0.1]][1][LabelAsWritten(Candidate(1, 0)) - 1] <= 0.5
    ensures LabelIntended(Candidate(1, 0)) == 1
  {
    CandidatesExact([[0.1, 0.1, 0.1], [0.9, 0.1, 0.1]], 0.5, Candidate(1, 0));
  }

  /** As written, labels stand for locations, and the class loop only visits labels
      below `num_classes`: every detection `forward` returns comes from one of the first
      `num_classes - 1` locations of its level. */
  lemma AsWrittenKeepsFirstLocations(cfg: FcosConfig, ops: Collaborators, locations: seq<seq<Point>>,
                                     levels: seq<FcosLevel>, imageSizes: seq<ImageSize>, outs: seq<BoxList>,
                                     l: nat, e: Entry)
    requires cfg.numClasses > 0 && ForwardFits(locations, levels, imageSizes)
    requires ForwardResult(cfg, ops, locations, levels, imageSizes, outs) && l < |locations|
    requires l < |outs| && e in outs[l].entries
    ensures exists i, cand ::
      0 <= i < |levels[l].boxCls| && ImageFits(levels[l], locations[l], i) &&
      IsCandidate(ClassProbs(ops, levels[l], i), cfg.preNmsThresh, cand) &&
      e.classLabel == Some(cand.loc + 1) && cand.loc < cfg.numClasses - 1
  {
    ForwardProvenance(cfg, ops, locations, levels, imageSizes, outs, l, e);
    ForwardLabels(cfg, ops, locations, levels, imageSizes, outs, l);
    var i :| 0 <= i < |levels[l].boxCls| && ImageFits(levels[l], locations[l], i) &&
      FromCandidate(cfg, ops, levels[l], locations[l], imageSizes[i], i, e);
    var cand, _, _ := CandidateFields(cfg, ops, levels[l], locations[l], imageSizes[i], i, e);
    LabelBelow(outs[l], cfg.numClasses, e);
  }

  /** An entry of a list whose labels are all below `bound` has a label below `bound`. */
  lemma LabelBelow(l: BoxList, bound: int, e: Entry)
    requires HasLabels(l) && forall k :: 0 <= k < Length(l) ==> Labels(l)[k] < bound
    requires e in l.entries
    ensures e.classLabel.value < bound
  {
    var k :| 0 <= k < |l.entries| && l.entries[k] == e;
    assert |Labels(l)| == Length(l) && Labels(l)[k] == e.classLabel.value;
  }

  /** Intended: every candidate's label names a class column whose probability passed
      the threshold, and lies in `[1, C]` for C class columns. */
  lemma LabelIntendedNamesClass(probs: seq<seq<real>>, thresh: real, cand: Candidate)
    requires cand in Candidates(probs, thresh)
    ensures cand.loc < |probs|
    ensures 1 <= LabelIntended(cand) <= |probs[cand.loc]|
    ensures probs[cand.loc][LabelIntended(cand) - 1] > thresh
  {
    CandidatesExact(probs, thresh, cand);
  }

  /* ---------------------------------------------------------------------------
     2. The right and bottom edges are decoded with a subtraction
        (inference.cpp:96-102)
     ------------------------------------------------------------------------- */

  /** The intended decoding: the four distances run left, up, right and down from the
      location. */
  function DecodeIntended(loc: Point, r: Delta): Box {
    Box(loc.x as real - r.d0, loc.y as real - r.d1, loc.x as real + r.d2, loc.y as real + r.d3)
  }

  /** The distances from a location to the four sides of a box. */
  function Encode(loc: Point, b: Box): Delta {
    Delta(loc.x as real - b.x1, loc.y as real - b.y1, b.x2 - loc.x as real, b.y2 - loc.y as real)
  }

  /** At location (10, 10) with all four distances 1, the code yields the empty box
      (9, 9, 9, 9), which does not contain its location and does not give back the
      distances; the intended box is (9, 9, 11, 11). */
  lemma DecodeSubtracts()
    ensures DecodeAsWritten(Point(10, 10), Delta(1.0, 1.0, 1.0, 1.0)) == Box(9.0, 9.0, 9.0, 9.0)
    ensures Encode(Point(10, 10), DecodeAsWritten(Point(10, 10), Delta(1.0, 1.0, 1.0, 1.0))) != Delta(1.0, 1.0, 1.0, 1.0)
    ensures DecodeIntended(Point(10, 10), Delta(1.0, 1.0, 1.0, 1.0)) == Box(9.0, 9.0, 11.0, 11.0)
  {
  }

  /** As written, a positive right or bottom distance puts that edge on the wrong side
      of the location. */
  lemma AsWrittenMissesLocation(loc: Point, r: Delta)
    requires r.d2 > 0.0 || r.d3 > 0.0
    ensures var b := DecodeAsWritten(loc, r);
      b.x2 < loc.x as real || b.y2 < loc.y as real
  {
  }

  /** Intended: decoding then encoding gives back the distances. */
  lemma EncodeDecode(loc: Point, r: Delta)
    ensures Encode(loc, DecodeIntended(loc, r)) == r
  {
  }

  /** Intended: encoding then decoding gives back the box. */
  lemma DecodeEncode(loc: Point, b: Box)
    ensures DecodeIntended(loc, Encode(loc, b)) == b
  {
  }

  /** Intended: non-negative distances give a box that contains its location. */
  lemma DecodeContains(loc: Point, r: Delta)
    requires r.d0 >= 0.0 && r.d1 >= 0.0 && r.d2 >= 0.0 && r.d3 >= 0.0
    ensures var b := DecodeIntended(loc, r);
      b.x1 <= loc.x as real <= b.x2 && b.y1 <= loc.y as real <= b.y2
  {
  }

  /* ---------------------------------------------------------------------------
     3. The lists are concatenated per level, not per image (inference.cpp:36-41)
     ------------------------------------------------------------------------- */

  /** As written, `forward` returns one list per level: with two levels over a batch of
      one image it returns two lists. */
  lemma ListsPerLevel(cfg: FcosConfig, ops: Collaborators, locations: seq<seq<Point>>, levels: seq<FcosLevel>,
                      imageSizes: seq<ImageSize>, outs: seq<BoxList>)
    requires cfg.numClasses > 0 && ForwardFits(locations, levels, imageSizes)
    requires ForwardResult(cfg, ops, locations, levels, imageSizes, outs)
    requires |locations| == 2 && |levels[0].boxCls| == 1
    ensures |outs| == 2 != |levels[0].boxCls|
  {
  }

  /** Intended: image j's list is the concatenation of image j's lists of all levels: it
      has image j's size, and every entry is a candidate's entry of image j at some
      level. */
  lemma PerImageIntended(cfg: FcosConfig, ops: Collaborators, locations: seq<seq<Point>>, levels: seq<FcosLevel>,
                         imageSizes: seq<ImageSize>, sampled: seq<seq<BoxList>>, n: nat, j: nat, e: Entry)
    requires ForwardFits(locations, levels, imageSizes) && Sampled(cfg, ops, locations, levels, imageSizes, sampled)
    requires |sampled| > 0 && forall l :: 0 <= l < |sampled| ==> |sampled[l]| == n
    requires j < n
    ensures |CatPerImage(sampled, n)| == n
    ensures CatPerImage(sampled, n)[j].size == imageSizes[j]
    ensures e in CatPerImage(sampled, n)[j].entries ==>
      exists l :: 0 <= l < |sampled| && ImageFits(levels[l], locations[l], j) &&
        FromCandidate(cfg, ops, levels[l], locations[l], imageSizes[j], j, e)
  {
    var column := Column(sampled, j);
    ImageFacts(cfg, ops, levels[0], locations[0], imageSizes[j], j, sampled[0][j]);
    if e in CatPerImage(sampled, n)[j].entries {
      CatMember(column, e);
      var l :| 0 <= l < |column| && e in column[l].entries;
      ImageFacts(cfg, ops, levels[l], locations[l], imageSizes[j], j, sampled[l][j]);
    }
  }

  /* ---------------------------------------------------------------------------
     4. The final cut counts classes and reads the field "score"
        (inference.cpp:150-159)
     ------------------------------------------------------------------------- */

  /** As written, whether the cut runs depends on the number of classes alone: with 81
      classes and a cap of 100 it never runs, however many detections a list holds; with
      a cap of 50 it always runs, and the lookup of "score" fails. */
  lemma CutCountsClasses()
    ensures !CutRuns(FcosConfig(0.05, 1000, 0.6, 100, 0, 81))
    ensures CutRuns(FcosConfig(0.05, 1000, 0.6, 50, 0, 81))
    ensures GetRealField(BoxList([Entry(Box(0.0, 0.0, 1.0, 1.0), None, Some(0.9), Some(1))], (10, 10)), "score").Err?
  {
  }

  /** The positions whose score reaches `t`. */
  function AtLeast(s: seq<real>, t: real): seq<bool> {
    seq(|s|, k requires 0 <= k < |s| => s[k] >= t)
  }

  /** The number of scores that reach `t`. */
  function CountAtLeast(s: seq<real>, t: real): nat {
    |set k: nat | k < |s| && s[k] >= t|
  }

  /** `t` is the `top`-th largest score: at least `top` scores reach it, and fewer than
      `top` reach any larger score. */
  predicate IsTopThreshold(s: seq<real>, top: nat, t: real) {
    CountAtLeast(s, t) >= top &&
    forall k :: 0 <= k < |s| && s[k] > t ==> CountAtLeast(s, s[k]) < top
  }

  /** The `top`-th entry of a descending order of the scores is the `top`-th largest
      score. */
  lemma TopThreshold(s: seq<real>, order: seq<nat>, top: nat)
    requires IsTopK(s, |s|, order) && 0 < top <= |s|
    ensures IsTopThreshold(s, top, s[order[top - 1]])
  {
    ThresholdReached(s, order, top);
    forall k | 0 <= k < |s| && s[k] > s[order[top - 1]]
      ensures CountAtLeast(s, s[k]) < top
    {
      AboveThreshold(s, order, top, k);
    }
  }

  /** The first `top` positions of the order all reach its `top`-th score. */
  lemma ThresholdReached(s: seq<real>, order: seq<nat>, top: nat)
    requires IsTopK(s, |s|, order) && 0 < top <= |s|
    ensures CountAtLeast(s, s[order[top - 1]]) >= top
  {
    var t := s[order[top - 1]];
    var first := order[..top];
    assert Distinct(first);
    DistinctCard(first);
    var reaching := set k: nat | k < |s| && s[k] >= t;
    forall x | x in Elems(first)
      ensures x in reaching
    {
      var a :| 0 <= a < top && first[a] == x;
      assert s[order[a]] >= t;
    }
    SubsetCard(Elems(first), reaching);
  }

  /** A score above the `top`-th is reached only by positions that come before it in the
      order: fewer than `top` of them. */
  lemma AboveThreshold(s: seq<real>, order: seq<nat>, top: nat, k: nat)
    requires IsTopK(s, |s|, order) && 0 < top <= |s|
    requires k < |s| && s[k] > s[order[top - 1]]
    ensures CountAtLeast(s, s[k]) < top
  {
    var n := |s|;
    var before := order[..top - 1];
    assert Distinct(before);
    DistinctCard(before);
    var reaching := set q: nat | q < n && s[q] >= s[k];
    forall q | q in reaching
      ensures q in Elems(before)
    {
      FullSelectionCovers(order, n, q);
      var a :| 0 <= a < n && order[a] == q;
      assert a < top - 1;
      assert before[a] == q;
    }
    SubsetCard(reaching, Elems(before));
  }

  /** Keeping the scores that reach `t` keeps exactly `CountAtLeast(s, t)` entries. */
  lemma KeptCount(l: BoxList, t: real)
    requires HasScores(l)
    ensures Length(Keep(l, AtLeast(Scores(l), t))) == CountAtLeast(Scores(l), t)
  {
    var m := AtLeast(Scores(l), t);
    CountTrueIsCard(m);
    assert (set k: nat | k < |m| && m[k]) == set k: nat | k < |Scores(l)| && Scores(l)[k] >= t;
  }

  /** The intended cut: a list of more than `top` detections (with `top` positive) keeps
      those whose score reaches the `top`-th largest score; any other list is kept
      whole. */
  method CutToTop(l: BoxList, top: int) returns (result: BoxList, imageThresh: real)
    requires HasScores(l)
    ensures result.size == l.size && HasScores(result)
    ensures !(Length(l) > top > 0) ==> result == l
    ensures Length(l) > top > 0 ==>
      IsTopThreshold(Scores(l), top, imageThresh) &&
      result == Keep(l, AtLeast(Scores(l), imageThresh)) &&
      Length(result) >= top
    ensures Length(l) > top > 0 ==> forall e :: e in l.entries ==> (e in result.entries <==> e.score.value >= imageThresh)
  {
    result, imageThresh := l, 0.0;
    var numberOfDetections := Length(l);
    if numberOfDetections > top > 0 {
      var clsScores := Scores(l);
      var order := ArgSortDescending(clsScores);
      // The (n - top + 1)-th smallest score is the top-th largest.
      imageThresh := clsScores[order[top - 1]];
      TopThreshold(clsScores, order, top);
      var keep := AtLeast(clsScores, imageThresh);
      result := Keep(l, keep);
      KeptCount(l, imageThresh);
      KeepsExactly(l, imageThresh);
    }
  }

  /** An entry is kept exactly when its score reaches the threshold. */
  lemma KeepsExactly(l: BoxList, t: real)
    requires HasScores(l)
    ensures HasScores(Keep(l, AtLeast(Scores(l), t)))
    ensures forall e :: e in l.entries ==> (e in Keep(l, AtLeast(Scores(l), t)).entries <==> e.score.value >= t)
  {
    var m := AtLeast(Scores(l), t);
    forall e | e in l.entries
      ensures e in Keep(l, m).entries <==> e.score.value >= t
    {
      var p :| 0 <= p < |l.entries| && l.entries[p] == e;
      assert m[p] == (Scores(l)[p] >= t) && Scores(l)[p] == e.score.value;
      if e.score.value >= t {
        MaskedKeeps(l.entries, m, p);
      }
      if e in Keep(l, m).entries {
        MaskedFrom(l.entries, m, e);
        var q :| 0 <= q < |l.entries| && m[q] && l.entries[q] == e;
        assert Scores(l)[q] == e.score.value;
      }
    }
  }

  /** The intended `select_over_all_levels` for one list: the class blocks as before,
      then the cut decided on the number of detections and read from "scores". A list
      of more than `fpn_post_num_top_n` detections keeps those whose score reaches the
      `fpn_post_num_top_n`-th largest; any other list is kept whole. */
  method SelectIntended(cfg: FcosConfig, ops: Collaborators, bList: BoxList) returns (result: BoxList)
    requires cfg.numClasses > 0 && HasScores(bList) && HasLabels(bList)
    ensures var all := PerClass(cfg, ops, bList);
      HasScores(all) && result.size == bList.size && HasScores(result) &&
      (forall e :: e in result.entries ==> e in all.entries && FromList(bList, e)) &&
      (!(Length(all) > cfg.fpnPostNumTopN > 0) ==> result == all) &&
      (Length(all) > cfg.fpnPostNumTopN > 0 ==>
        Length(result) >= cfg.fpnPostNumTopN &&
        exists t :: IsTopThreshold(Scores(all), cfg.fpnPostNumTopN, t) &&
          forall e :: e in all.entries ==> (e in result.entries <==> e.score.value >= t))
  {
    var imgret := SuppressPerClass(cfg, ops, bList);
    var all := Cat(imgret);
    PerClassFrom(cfg, ops, bList);
    var imageThresh;
    result, imageThresh := CutToTop(all, cfg.fpnPostNumTopN);
    forall e | e in result.entries
      ensures e in all.entries
    {
      if Length(all) > cfg.fpnPostNumTopN > 0 {
        MaskedFrom(all.entries, AtLeast(Scores(all), imageThresh), e);
      }
    }
  }
}
