/** The box collection shared by every stage of the post-processors, and the
    collaborators whose code is not part of this model (sigmoid, the box coder's
    decode, clipping, the small-box test and non-maximum suppression).

    A BoxList is a sequence of rows; each row holds its geometry and the named fields
    "objectness", "scores" and "labels" it carries (a field a row does not carry is
    `None`). Rows of one list therefore can never disagree in number with their
    fields, which is the invariant the source enforces on every AddField. */
module Boxes {
  import opened Selection

  datatype Option<T> = None | Some(value: T)

  /** The error a field lookup raises for a name the list does not carry. */
  datatype Error = MissingField(name: string)

  datatype Result<T> = Ok(value: T) | Err(error: Error)

  /** Image size exactly as a BoxList stores it (a pair of 64-bit integers). */
  type ImageSize = (int, int)

  /** Absolute corner coordinates ("xyxy" mode). */
  datatype Box = Box(x1: real, y1: real, x2: real, y2: real)

  /** The four regression outputs of one row. */
  datatype Delta = Delta(d0: real, d1: real, d2: real, d3: real)

  /** One row of a BoxList. */
  datatype Entry = Entry(box: Box, objectness: Option<real>, score: Option<real>, classLabel: Option<int>)

  datatype BoxList = BoxList(entries: seq<Entry>, size: ImageSize)

  /** A module's named losses. */
  type Losses = map<string, real>

  function Length(l: BoxList): nat { |l.entries| }

  /** `get_bbox()` */
  function BBox(l: BoxList): seq<Box> {
    seq(|l.entries|, k requires 0 <= k < |l.entries| => l.entries[k].box)
  }

  /* ---------------------------------------------------------------------------
     Fields
     ------------------------------------------------------------------------- */

  predicate HasObjectness(l: BoxList) {
    forall e :: e in l.entries ==> e.objectness.Some?
  }

  predicate HasScores(l: BoxList) {
    forall e :: e in l.entries ==> e.score.Some?
  }

  predicate HasLabels(l: BoxList) {
    forall e :: e in l.entries ==> e.classLabel.Some?
  }

  /** `GetField("objectness")` */
  function Objectness(l: BoxList): seq<real>
    requires HasObjectness(l)
  {
    seq(|l.entries|, k requires 0 <= k < |l.entries| => l.entries[k].objectness.value)
  }

  /** `GetField("scores")` */
  function Scores(l: BoxList): seq<real>
    requires HasScores(l)
  {
    seq(|l.entries|, k requires 0 <= k < |l.entries| => l.entries[k].score.value)
  }

  /** `GetField("labels")` */
  function Labels(l: BoxList): seq<int>
    requires HasLabels(l)
  {
    seq(|l.entries|, k requires 0 <= k < |l.entries| => l.entries[k].classLabel.value)
  }

  /** A real-valued field looked up by name; a name the list does not carry is an error. */
  function GetRealField(l: BoxList, name: string): (r: Result<seq<real>>)
    ensures r.Ok? <==> (name == "objectness" && HasObjectness(l)) || (name == "scores" && HasScores(l))
    ensures r.Ok? && name == "objectness" ==> HasObjectness(l) && r.value == Objectness(l)
    ensures r.Ok? && name == "scores" ==> HasScores(l) && r.value == Scores(l)
    ensures r.Err? ==> r.error == MissingField(name)
  {
    if name == "objectness" && HasObjectness(l) then Ok(Objectness(l))
    else if name == "scores" && HasScores(l) then Ok(Scores(l))
    else Err(MissingField(name))
  }

  /** `BoxList(bbox, size)`: a new list carrying no field. */
  function FromBoxes(boxes: seq<Box>, size: ImageSize): BoxList {
    BoxList(seq(|boxes|, k requires 0 <= k < |boxes| => Entry(boxes[k], None, None, None)), size)
  }

  /** `CopyWithFields({})`: the geometry alone. */
  function StripFields(l: BoxList): (r: BoxList)
    ensures r.size == l.size && BBox(r) == BBox(l)
    ensures forall e :: e in r.entries ==> e.objectness.None? && e.score.None? && e.classLabel.None?
  {
    FromBoxes(BBox(l), l.size)
  }

  /** `AddField("objectness", values)` */
  function AddObjectness(l: BoxList, values: seq<real>): (r: BoxList)
    requires |values| == Length(l)
    ensures r.size == l.size && Length(r) == Length(l)
    ensures HasObjectness(r) && Objectness(r) == values
    ensures forall k :: 0 <= k < Length(l) ==> r.entries[k].box == l.entries[k].box
  {
    BoxList(seq(|values|, k requires 0 <= k < |values| => l.entries[k].(objectness := Some(values[k]))), l.size)
  }

  /** `AddField("scores", values)` */
  function AddScores(l: BoxList, values: seq<real>): (r: BoxList)
    requires |values| == Length(l)
    ensures r.size == l.size && Length(r) == Length(l)
    ensures HasScores(r) && Scores(r) == values
    ensures forall k :: 0 <= k < Length(l) ==> r.entries[k].box == l.entries[k].box
    ensures HasLabels(l) ==> HasLabels(r) && Labels(r) == Labels(l)
  {
    BoxList(seq(|values|, k requires 0 <= k < |values| => l.entries[k].(score := Some(values[k]))), l.size)
  }

  /** `AddField("labels", values)` */
  function AddLabels(l: BoxList, values: seq<int>): (r: BoxList)
    requires |values| == Length(l)
    ensures r.size == l.size && Length(r) == Length(l)
    ensures HasLabels(r) && Labels(r) == values
    ensures forall k :: 0 <= k < Length(l) ==> r.entries[k].box == l.entries[k].box
    ensures HasScores(l) ==> HasScores(r) && Scores(r) == Scores(l)
  {
    BoxList(seq(|values|, k requires 0 <= k < |values| => l.entries[k].(classLabel := Some(values[k]))), l.size)
  }

  /* ---------------------------------------------------------------------------
     Indexing and concatenation
     ------------------------------------------------------------------------- */

  /** `boxlist[idx]` for an index tensor. */
  function Select(l: BoxList, idx: seq<nat>): (r: BoxList)
    requires InRange(idx, Length(l))
    ensures r.size == l.size && Length(r) == |idx|
    ensures forall k :: 0 <= k < |idx| ==> r.entries[k] == l.entries[idx[k]]
  {
    BoxList(Gather(l.entries, idx), l.size)
  }

  /** `boxlist[mask]` for a boolean mask. */
  function Keep(l: BoxList, mask: seq<bool>): (r: BoxList)
    requires |mask| == Length(l)
    ensures r.size == l.size && Length(r) == CountTrue(mask)
    ensures forall e :: e in r.entries ==> e in l.entries
  {
    BoxList(Masked(l.entries, mask), l.size)
  }

  function EntryLists(ls: seq<BoxList>): seq<seq<Entry>> {
    seq(|ls|, i requires 0 <= i < |ls| => ls[i].entries)
  }

  /** `CatBoxList`: the rows of every list in order, with the first list's size (the
      lists are not checked to share one size). */
  function Cat(ls: seq<BoxList>): (r: BoxList)
    requires |ls| > 0
    ensures r.size == ls[0].size
    ensures Length(r) == TotalLength(ls)
  {
    FlattenLength(EntryLists(ls));
    assert Lengths(EntryLists(ls)) == Sizes(ls);
    BoxList(Flatten(EntryLists(ls)), ls[0].size)
  }

  /** The length of every list, in order. */
  function Sizes(ls: seq<BoxList>): seq<nat> {
    seq(|ls|, i requires 0 <= i < |ls| => Length(ls[i]))
  }

  function TotalLength(ls: seq<BoxList>): nat {
    Sum(Sizes(ls))
  }

  lemma CatMember(ls: seq<BoxList>, e: Entry)
    requires |ls| > 0 && e in Cat(ls).entries
    ensures exists i :: 0 <= i < |ls| && e in ls[i].entries
  {
    FlattenMember(EntryLists(ls), e);
  }

  lemma CatPair(a: BoxList, b: BoxList)
    ensures Cat([a, b]) == BoxList(a.entries + b.entries, a.size)
  {
    var xss := EntryLists([a, b]);
    assert xss == [a.entries, b.entries];
    assert xss[..1] == [a.entries] && xss[..1][..0] == [];
    assert Flatten(xss[..1]) == Flatten(xss[..1][..0]) + a.entries;
    assert Flatten(xss) == Flatten(xss[..1]) + b.entries;
  }

  /** The labels of a concatenation are the labels of its parts, in order. */
  lemma {:induction false} CatLabels(ls: seq<BoxList>)
    requires |ls| > 0 && forall i :: 0 <= i < |ls| ==> HasLabels(ls[i])
    ensures HasLabels(Cat(ls))
    ensures Labels(Cat(ls)) == Flatten(seq(|ls|, i requires 0 <= i < |ls| => Labels(ls[i])))
  {
    forall e | e in Cat(ls).entries
      ensures e.classLabel.Some?
    {
      CatMember(ls, e);
    }
    var n := |ls|;
    var lab := seq(n, i requires 0 <= i < n => Labels(ls[i]));
    if n == 1 {
      CatSingle(ls[0]);
      assert lab[..0] == [];
      assert ls == [ls[0]];
    } else {
      var init := ls[..n - 1];
      CatLabels(init);
      assert EntryLists(ls)[..n - 1] == EntryLists(init);
      assert Cat(ls).entries == Cat(init).entries + ls[n - 1].entries;
      assert lab[..n - 1] == seq(n - 1, i requires 0 <= i < n - 1 => Labels(init[i]));
      assert Labels(Cat(ls)) == Labels(Cat(init)) + Labels(ls[n - 1]);
    }
  }

  lemma CatSingle(l: BoxList)
    ensures Cat([l]) == l
  {
    var xss := EntryLists([l]);
    assert xss == [l.entries];
    assert xss[..|xss| - 1] == [];
    assert Flatten(xss) == Flatten(xss[..|xss| - 1]) + xss[0];
  }

  /** Image `j`'s lists of all levels, concatenated level by level. */
  function CatPerImage(sampled: seq<seq<BoxList>>, n: nat): (r: seq<BoxList>)
    requires |sampled| > 0 && forall l :: 0 <= l < |sampled| ==> |sampled[l]| == n
    ensures |r| == n
  {
    seq(n, j requires 0 <= j < n => Cat(Column(sampled, j)))
  }

  /** The image-major regrouping: entry `k` of level `l` of image `j` sits after all
      entries of image `j`'s earlier levels. */
  lemma CatPerImageAt(sampled: seq<seq<BoxList>>, n: nat, j: nat, l: nat, k: nat)
    requires |sampled| > 0 && forall l :: 0 <= l < |sampled| ==> |sampled[l]| == n
    requires j < n && l < |sampled| && k < Length(sampled[l][j])
    ensures TotalLength(Column(sampled, j)[..l]) + k < Length(CatPerImage(sampled, n)[j])
    ensures CatPerImage(sampled, n)[j].entries[TotalLength(Column(sampled, j)[..l]) + k] == sampled[l][j].entries[k]
    ensures CatPerImage(sampled, n)[j].size == sampled[0][j].size
  {
    var xss := EntryLists(Column(sampled, j));
    FlattenAt(xss, l, k);
    FlattenLength(xss[..l]);
    assert Lengths(xss[..l]) == Sizes(Column(sampled, j)[..l]);
  }

  /* ---------------------------------------------------------------------------
     Collaborators whose code is not part of this model
     ------------------------------------------------------------------------- */

  /** What the call sites rely on from `nms`: it keeps distinct rows of its input, and no
      more than `maxKeep` of them when `maxKeep` is positive. */
  ghost predicate KeepsSelection(f: (seq<Box>, seq<real>, real, int) -> seq<nat>) {
    forall boxes, scores, thresh, maxKeep ::
      IsSelection(f(boxes, scores, thresh, maxKeep), |boxes|) &&
      (maxKeep > 0 ==> |f(boxes, scores, thresh, maxKeep)| <= maxKeep)
  }

  /** Non-maximum suppression: boxes, their scores, IoU threshold, max kept -> kept rows. */
  type NmsFn = f: (seq<Box>, seq<real>, real, int) -> seq<nat> | KeepsSelection(f)
    witness (boxes: seq<Box>, scores: seq<real>, thresh: real, maxKeep: int) => []

  /** The collaborators, as uninterpreted functions: `sigmoid`, the box coder's `decode`
      of one regression row against one anchor, the clamp of one box to an image
      (`ClipToImage`), the per-box test of `RemoveSmallBoxes`, and `nms`. */
  datatype Collaborators = Collaborators(
    sigmoid: real -> real,
    decode: (Delta, Box) -> Box,
    clip: (Box, ImageSize) -> Box,
    bigEnough: (Box, int) -> bool,
    nms: NmsFn)

  /** `ClipToImage(false)`: every box clamped, no row removed, fields untouched. */
  function ClipToImage(ops: Collaborators, l: BoxList): (r: BoxList)
    ensures r.size == l.size && Length(r) == Length(l)
    ensures forall k :: 0 <= k < Length(r) ==> r.entries[k] == l.entries[k].(box := ops.clip(l.entries[k].box, l.size))
    ensures HasObjectness(l) ==> HasObjectness(r)
    ensures HasScores(l) ==> HasScores(r)
    ensures HasLabels(l) ==> HasLabels(r)
  {
    BoxList(seq(|l.entries|, k requires 0 <= k < |l.entries| =>
                  l.entries[k].(box := ops.clip(l.entries[k].box, l.size))), l.size)
  }

  /** `RemoveSmallBoxes(min_size)`: the rows whose box passes the size test, in order. */
  function RemoveSmallBoxes(ops: Collaborators, l: BoxList, minSize: int): (r: BoxList)
    ensures r.size == l.size && Length(r) <= Length(l)
    ensures forall e :: e in r.entries ==> e in l.entries
  {
    Keep(l, seq(|l.entries|, k requires 0 <= k < |l.entries| => ops.bigEnough(l.entries[k].box, minSize)))
  }

  /** `nms(thresh, maxKeep, field)`, with the named field's values passed as `scores`. */
  function Nms(ops: Collaborators, l: BoxList, scores: seq<real>, thresh: real, maxKeep: int): (r: BoxList)
    requires |scores| == Length(l)
    ensures r.size == l.size && Length(r) <= Length(l)
    ensures maxKeep > 0 ==> Length(r) <= maxKeep
    ensures forall e :: e in r.entries ==> e in l.entries
  {
    var keep := ops.nms(BBox(l), scores, thresh, maxKeep);
    assert IsSelection(keep, Length(l));
    SelectionLength(keep, Length(l));
    Select(l, keep)
  }

  /** A selection never has more entries than there are positions. */
  lemma SelectionLength(idx: seq<nat>, n: nat)
    requires IsSelection(idx, n)
    ensures |idx| <= n
  {
    assert Elems(idx) <= Range(n);
    SubsetCard(Elems(idx), Range(n));
    DistinctCard(idx);
  }

  lemma SelectMember(l: BoxList, idx: seq<nat>, e: Entry)
    requires InRange(idx, Length(l)) && e in Select(l, idx).entries
    ensures e in l.entries
  {
  }
}
