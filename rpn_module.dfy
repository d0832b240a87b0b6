/** The RPN module's routing (`RPNModuleImpl`): which post-processor runs in training
    and in testing, the `rpn_only` shortcuts, and the loss map each path returns.

    The head's outputs and the anchor generator's lists are taken as inputs (they come
    from network layers), and the loss evaluator is a function of the module. */
module RpnModule {
  import opened Selection
  import opened Boxes
  import opened RpnInference

  /** The loss evaluator: anchors, head outputs and targets to the objectness and the
      box-regression loss. */
  type LossEvaluator = (seq<seq<BoxList>>, seq<RpnLevel>, seq<BoxList>) -> (real, real)

  /** The module's configuration: the two post-processors, `rpn_only` and the loss
      evaluator. */
  datatype Rpn = Rpn(trainSelector: RpnConfig, testSelector: RpnConfig, rpnOnly: bool, lossEvaluator: LossEvaluator)

  /** The keys of the training loss map. */
  function TrainLossKeys(): set<string> { {"loss_objectness", "loss_rpn_box_reg"} }

  /** What `forward_train` returns: with `rpn_only` the anchors of each image
      concatenated over levels, otherwise the training post-processor's proposals with
      the ground truth appended; and the two losses. */
  ghost predicate TrainResult(rpn: Rpn, ops: Collaborators, anchors: seq<seq<BoxList>>, levels: seq<RpnLevel>,
                              targets: seq<BoxList>, boxes: seq<BoxList>, losses: Losses)
    requires ForwardFits(anchors, levels)
    requires |targets| >= |anchors|
  {
    var (lossObjectness, lossRpnBoxReg) := rpn.lossEvaluator(anchors, levels, targets);
    losses == map["loss_objectness" := lossObjectness, "loss_rpn_box_reg" := lossRpnBoxReg] &&
    if rpn.rpnOnly then
      |boxes| == |anchors| && forall i :: 0 <= i < |anchors| ==> boxes[i] == Cat(anchors[i])
    else
      exists proposals :: ForwardSpec(rpn.trainSelector, ops, true, anchors, levels, proposals) &&
                          GtAppended(proposals, targets, boxes)
  }

  /** Each output list is its input list reordered by descending objectness. */
  ghost predicate SortedByObjectness(ls: seq<BoxList>, outs: seq<BoxList>) {
    |outs| == |ls| &&
    forall i :: 0 <= i < |ls| ==>
      HasObjectness(ls[i]) &&
      exists idx :: IsTopK(Objectness(ls[i]), Length(ls[i]), idx) && outs[i] == Select(ls[i], idx)
  }

  /** What `forward_test` returns: the test post-processor's proposals, sorted by
      objectness when `rpn_only`; and no loss. */
  ghost predicate TestResult(rpn: Rpn, ops: Collaborators, training: bool, anchors: seq<seq<BoxList>>,
                             levels: seq<RpnLevel>, boxes: seq<BoxList>, losses: Losses)
    requires ForwardFits(anchors, levels)
  {
    losses == map[] &&
    if rpn.rpnOnly then
      exists selected :: ForwardSpec(rpn.testSelector, ops, training, anchors, levels, selected) &&
                         SortedByObjectness(selected, boxes)
    else
      ForwardSpec(rpn.testSelector, ops, training, anchors, levels, boxes)
  }

  method ForwardTrain(rpn: Rpn, ops: Collaborators, anchors: seq<seq<BoxList>>, levels: seq<RpnLevel>,
                      targets: seq<BoxList>) returns (boxes: seq<BoxList>, losses: Losses)
    requires ForwardFits(anchors, levels)
    requires |anchors| > 0 && |targets| >= |anchors|
    ensures TrainResult(rpn, ops, anchors, levels, targets, boxes, losses)
  {
    boxes := [];
    if rpn.rpnOnly {
      ghost var expected := seq(|anchors|, k requires 0 <= k < |anchors| => Cat(anchors[k]));
      for i := 0 to |anchors|
        invariant boxes == expected[..i]
      {
        assert expected[..i + 1] == expected[..i] + [Cat(anchors[i])];
        boxes := boxes + [Cat(anchors[i])];
      }
      assert boxes == expected;
    } else {
      boxes := RpnInference.ForwardWithTargets(rpn.trainSelector, ops, true, anchors, levels, targets);
    }
    var (lossObjectness, lossRpnBoxReg) := rpn.lossEvaluator(anchors, levels, targets);
    losses := map[];
    losses := losses["loss_objectness" := lossObjectness];
    losses := losses["loss_rpn_box_reg" := lossRpnBoxReg];
  }

  method ForwardTest(rpn: Rpn, ops: Collaborators, training: bool, anchors: seq<seq<BoxList>>, levels: seq<RpnLevel>)
    returns (boxes: seq<BoxList>, losses: Losses)
    requires ForwardFits(anchors, levels)
    ensures TestResult(rpn, ops, training, anchors, levels, boxes, losses)
  {
    boxes := RpnInference.Forward(rpn.testSelector, ops, training, anchors, levels);
    losses := map[];
    if rpn.rpnOnly {
      ghost var selected := boxes;
      ForwardFacts(rpn.testSelector, ops, training, anchors, levels, selected);
      boxes := SortEachByObjectness(boxes);
    }
  }

  /** The `rpn_only` loop of `forward_test`: every list overwritten by itself in
      descending objectness order. */
  method SortEachByObjectness(selected: seq<BoxList>) returns (boxes: seq<BoxList>)
    requires AllHaveObjectness(selected)
    ensures SortedByObjectness(selected, boxes)
  {
    boxes := selected;
    ghost var orders: seq<seq<nat>> := [];
    for i := 0 to |boxes|
      invariant |boxes| == |selected| && |orders| == i
      invariant forall k :: 0 <= k < i ==>
        IsTopK(Objectness(selected[k]), Length(selected[k]), orders[k]) && boxes[k] == Select(selected[k], orders[k])
      invariant forall k :: i <= k < |boxes| ==> boxes[k] == selected[k]
    {
      var order := ArgSortDescending(Objectness(boxes[i]));
      boxes := boxes[i := Select(boxes[i], order)];
      orders := orders + [order];
    }
    forall k | 0 <= k < |selected|
      ensures exists idx :: IsTopK(Objectness(selected[k]), Length(selected[k]), idx) && boxes[k] == Select(selected[k], idx)
    {
      assert IsTopK(Objectness(selected[k]), Length(selected[k]), orders[k]);
    }
  }

  /** `forward(images, features, targets)`: the training path iff the module is
      training. */
  method ForwardWithTargets(rpn: Rpn, ops: Collaborators, training: bool, anchors: seq<seq<BoxList>>,
                            levels: seq<RpnLevel>, targets: seq<BoxList>) returns (boxes: seq<BoxList>, losses: Losses)
    requires ForwardFits(anchors, levels)
    requires training ==> |anchors| > 0 && |targets| >= |anchors|
    ensures training ==> TrainResult(rpn, ops, anchors, levels, targets, boxes, losses)
    ensures !training ==> TestResult(rpn, ops, training, anchors, levels, boxes, losses)
    ensures losses.Keys == if training then TrainLossKeys() else {}
  {
    if training {
      boxes, losses := ForwardTrain(rpn, ops, anchors, levels, targets);
    } else {
      boxes, losses := ForwardTest(rpn, ops, training, anchors, levels);
    }
  }

  /** `forward(images, features)`: always the test path, whatever the training flag. */
  method Forward(rpn: Rpn, ops: Collaborators, training: bool, anchors: seq<seq<BoxList>>, levels: seq<RpnLevel>)
    returns (boxes: seq<BoxList>, losses: Losses)
    requires ForwardFits(anchors, levels)
    ensures TestResult(rpn, ops, training, anchors, levels, boxes, losses)
    ensures losses == map[]
  {
    boxes, losses := ForwardTest(rpn, ops, training, anchors, levels);
  }

  /** The training loss map has exactly the two loss keys. */
  lemma TrainLossKeysExact(rpn: Rpn, ops: Collaborators, anchors: seq<seq<BoxList>>, levels: seq<RpnLevel>,
                           targets: seq<BoxList>, boxes: seq<BoxList>, losses: Losses)
    requires ForwardFits(anchors, levels) && |targets| >= |anchors|
    requires TrainResult(rpn, ops, anchors, levels, targets, boxes, losses)
    ensures losses.Keys == TrainLossKeys()
    ensures losses["loss_objectness"] == rpn.lossEvaluator(anchors, levels, targets).0
    ensures losses["loss_rpn_box_reg"] == rpn.lossEvaluator(anchors, levels, targets).1
  {
  }

  /** Training with `rpn_only`: image i's list holds all its anchors, level after level. */
  lemma RpnOnlyTrainAnchors(rpn: Rpn, ops: Collaborators, anchors: seq<seq<BoxList>>, levels: seq<RpnLevel>,
                            targets: seq<BoxList>, boxes: seq<BoxList>, losses: Losses, i: nat)
    requires ForwardFits(anchors, levels) && |targets| >= |anchors|
    requires TrainResult(rpn, ops, anchors, levels, targets, boxes, losses)
    requires rpn.rpnOnly && i < |anchors|
    ensures i < |boxes| && Length(boxes[i]) == TotalLength(anchors[i])
    ensures boxes[i].size == anchors[i][0].size
    ensures forall e :: e in boxes[i].entries ==> exists l :: 0 <= l < |anchors[i]| && e in anchors[i][l].entries
  {
    forall e | e in boxes[i].entries
      ensures exists l :: 0 <= l < |anchors[i]| && e in anchors[i][l].entries
    {
      CatMember(anchors[i], e);
    }
  }

  /** Testing with `rpn_only`: every list is a permutation of the selector's list for
      the same image, in descending objectness. */
  lemma RpnOnlyTestSorted(ls: seq<BoxList>, outs: seq<BoxList>, i: nat)
    requires SortedByObjectness(ls, outs) && i < |ls|
    ensures Length(outs[i]) == Length(ls[i])
    ensures multiset(outs[i].entries) == multiset(ls[i].entries)
    ensures outs[i].size == ls[i].size
    ensures HasObjectness(outs[i])
    ensures forall a, b :: 0 <= a < b < Length(outs[i]) ==> Objectness(outs[i])[b] <= Objectness(outs[i])[a]
  {
    var idx :| IsTopK(Objectness(ls[i]), Length(ls[i]), idx) && outs[i] == Select(ls[i], idx);
    GatherPermutation(ls[i].entries, idx);
  }

  /** Testing without `rpn_only` returns the selector's lists unchanged. */
  lemma TestWithoutRpnOnly(rpn: Rpn, ops: Collaborators, training: bool, anchors: seq<seq<BoxList>>,
                           levels: seq<RpnLevel>, boxes: seq<BoxList>, losses: Losses)
    requires ForwardFits(anchors, levels) && TestResult(rpn, ops, training, anchors, levels, boxes, losses)
    requires !rpn.rpnOnly
    ensures ForwardSpec(rpn.testSelector, ops, training, anchors, levels, boxes)
    ensures |boxes| == |anchors| && losses == map[]
  {
    ForwardFacts(rpn.testSelector, ops, training, anchors, levels, boxes);
  }
}
