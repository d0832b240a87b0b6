/** The FCOS module (`FCOSModuleImpl`): the grid of locations of every feature level,
    and the routing of the two `forward` overloads. The head's convolutions are not
    modelled: their outputs are inputs here, and a feature map contributes only its
    height and width. */
module FcosModule {
  import opened Selection
  import opened Boxes
  import opened FcosInference

  /** The spatial size of one feature map. */
  datatype FeatureShape = FeatureShape(h: nat, w: nat)

  /** The module: its test post-processor and the stride of every level. */
  datatype Fcos = Fcos(boxSelectorTest: FcosConfig, fpnStrides: seq<int>)

  /** The minimum box size the module hands to its post-processor (fcos.cpp:98). */
  const MinSize: int := 0

  /** The constructor, with the configuration values as parameters: the test
      post-processor gets the configured thresholds and caps and a minimum box size of
      0, whatever the configuration says. */
  function Build(inferenceTh: real, preNmsTopN: nat, nmsTh: real, detectionsPerImg: int, numClasses: int,
                 fpnStrides: seq<int>): (m: Fcos)
    ensures m.boxSelectorTest.minSize == MinSize == 0
    ensures m.boxSelectorTest.preNmsThresh == inferenceTh && m.boxSelectorTest.preNmsTopN == preNmsTopN
    ensures m.boxSelectorTest.nmsThresh == nmsTh && m.boxSelectorTest.fpnPostNumTopN == detectionsPerImg
    ensures m.boxSelectorTest.numClasses == numClasses && m.fpnStrides == fpnStrides
  {
    Fcos(FcosConfig(inferenceTh, preNmsTopN, nmsTh, detectionsPerImg, MinSize, numClasses), fpnStrides)
  }

  /** `(int)(stride / 2)`: half a stride, rounded toward zero as C++ integer division
      rounds. */
  function Half(stride: int): (r: int)
    ensures stride >= 0 ==> 0 <= stride - 2 * r <= 1
    ensures stride < 0 ==> -1 <= stride - 2 * r <= 0
  {
    if stride >= 0 then stride / 2 else -((-stride) / 2)
  }

  /** `compute_locations_per_level`: `meshgrid(arange(0, h*stride, stride),
      arange(0, w*stride, stride))` flattened row by row, shifted by half a stride. */
  function LocationsPerLevel(h: nat, w: nat, stride: int): (r: seq<Point>)
    requires stride != 0
    ensures |r| == h * w
  {
    var shiftsX := seq(w, c requires 0 <= c < w => c * stride);
    var shiftsY := seq(h, r requires 0 <= r < h => r * stride);
    var shiftX := Flatten(seq(h, r requires 0 <= r < h => shiftsX));
    var shiftY := Flatten(seq(h, r requires 0 <= r < h => seq(w, c requires 0 <= c < w => shiftsY[r])));
    FlattenUniform(seq(h, r requires 0 <= r < h => shiftsX), w);
    FlattenUniform(seq(h, r requires 0 <= r < h => seq(w, c requires 0 <= c < w => shiftsY[r])), w);
    seq(h * w, k requires 0 <= k < h * w => Point(shiftX[k] + Half(stride), shiftY[k] + Half(stride)))
  }

  /** The location of cell (r, c) of an h-by-w level, at position `r * w + c`: column
      times stride plus half a stride across, row times stride plus half a stride
      down. */
  lemma LocationAt(h: nat, w: nat, stride: int, r: nat, c: nat)
    requires stride != 0 && r < h && c < w
    ensures |LocationsPerLevel(h, w, stride)| == h * w
    ensures r * w + c < h * w
    ensures LocationsPerLevel(h, w, stride)[r * w + c] == Point(c * stride + Half(stride), r * stride + Half(stride))
  {
    CellBound(h, w, r, c);
    var shiftsX := seq(w, c requires 0 <= c < w => c * stride);
    var shiftsY := seq(h, r requires 0 <= r < h => r * stride);
    var xs := seq(h, r requires 0 <= r < h => shiftsX);
    var ys := seq(h, r requires 0 <= r < h => seq(w, c requires 0 <= c < w => shiftsY[r]));
    FlattenUniform(xs[..r], w);
    FlattenUniform(ys[..r], w);
    FlattenAt(xs, r, c);
    FlattenAt(ys, r, c);
  }

  lemma CellBound(h: nat, w: nat, r: nat, c: nat)
    requires r < h && c < w
    ensures r * w + c < h * w
  {
    assert r * w + w == (r + 1) * w;
    assert (r + 1) * w <= h * w;
  }

  /** `compute_locations`: one grid per level, with that level's stride. */
  method ComputeLocations(m: Fcos, features: seq<FeatureShape>) returns (locations: seq<seq<Point>>)
    requires |m.fpnStrides| >= |features|
    requires forall l :: 0 <= l < |features| ==> m.fpnStrides[l] != 0
    ensures |locations| == |features|
    ensures forall l :: 0 <= l < |features| ==>
      locations[l] == LocationsPerLevel(features[l].h, features[l].w, m.fpnStrides[l])
  {
    locations := [];
    for level := 0 to |features|
      invariant |locations| == level
      invariant forall l :: 0 <= l < level ==>
        locations[l] == LocationsPerLevel(features[l].h, features[l].w, m.fpnStrides[l])
    {
      var feature := features[level];
      var locationsPerLevel := LocationsPerLevel(feature.h, feature.w, m.fpnStrides[level]);
      locations := locations + [locationsPerLevel];
    }
  }

  /** The strides cover the levels and none is zero. */
  predicate StridesFit(m: Fcos, features: seq<FeatureShape>) {
    |m.fpnStrides| >= |features| && forall l :: 0 <= l < |features| ==> m.fpnStrides[l] != 0
  }

  /** The locations of every level. */
  function Locations(m: Fcos, features: seq<FeatureShape>): seq<seq<Point>>
    requires StridesFit(m, features)
  {
    seq(|features|, l requires 0 <= l < |features| => LocationsPerLevel(features[l].h, features[l].w, m.fpnStrides[l]))
  }

  /** `forward(images, features)` and `_forward_test`: the post-processor's result over
      the computed locations, and no loss. */
  method Forward(m: Fcos, ops: Collaborators, features: seq<FeatureShape>, levels: seq<FcosLevel>,
                 imageSizes: seq<ImageSize>) returns (boxes: Result<seq<BoxList>>, losses: Losses)
    requires m.boxSelectorTest.numClasses > 0 && StridesFit(m, features)
    requires ForwardFits(Locations(m, features), levels, imageSizes)
    ensures losses == map[]
    ensures boxes.Err? <==> |features| > 0 && CutRuns(m.boxSelectorTest)
    ensures boxes.Ok? ==> ForwardResult(m.boxSelectorTest, ops, Locations(m, features), levels, imageSizes, boxes.value)
  {
    var locations := ComputeLocations(m, features);
    assert locations == Locations(m, features);
    boxes := FcosInference.Forward(m.boxSelectorTest, ops, locations, levels, imageSizes);
    losses := map[];
  }

  /** `forward(images, features, targets)` and `_forward_train`: no boxes and no loss,
      whatever the targets. */
  method ForwardWithTargets(m: Fcos, features: seq<FeatureShape>, levels: seq<FcosLevel>, targets: seq<BoxList>)
    returns (boxes: seq<BoxList>, losses: Losses)
    ensures boxes == [] && losses == map[]
  {
    boxes, losses := [], map[];
  }
}
