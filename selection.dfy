/** Index selection, boolean masks, concatenation, splitting and top-k over finite
    sequences: the tensor primitives (index_select, mask indexing, cat,
    split_with_sizes, topk, sort, kthvalue) that the detection post-processors are
    built from. */
module Selection {

  function Min(a: int, b: int): int { if a <= b then a else b }

  /* ---------------------------------------------------------------------------
     Index lists
     ------------------------------------------------------------------------- */

  /** Every index of `idx` addresses a sequence of length `n`. */
  predicate InRange(idx: seq<nat>, n: nat) {
    forall a :: 0 <= a < |idx| ==> idx[a] < n
  }

  /** No position is picked twice. */
  predicate Distinct(idx: seq<nat>) {
    forall a, b :: 0 <= a < b < |idx| ==> idx[a] != idx[b]
  }

  /** `idx` picks distinct positions of a sequence of length `n`. */
  predicate IsSelection(idx: seq<nat>, n: nat) {
    InRange(idx, n) && Distinct(idx)
  }

  /** `xs.index_select(0, idx)`: row `a` of the result is row `idx[a]` of `xs`. */
  function Gather<T>(xs: seq<T>, idx: seq<nat>): seq<T>
    requires InRange(idx, |xs|)
  {
    seq(|idx|, a requires 0 <= a < |idx| => xs[idx[a]])
  }

  /** The set of positions named by an index list. */
  function Elems(idx: seq<nat>): set<nat> {
    set x | x in idx
  }

  /** The positions `0 .. n-1`. */
  function Range(n: nat): (r: set<nat>)
    ensures forall i: nat :: i in r <==> i < n
    ensures |r| == n
  {
    if n == 0 then {} else Range(n - 1) + {n - 1}
  }

  /* ---------------------------------------------------------------------------
     Boolean masks
     ------------------------------------------------------------------------- */

  /** `mask.sum()`: the number of true entries. */
  function CountTrue(m: seq<bool>): nat {
    if |m| == 0 then 0 else CountTrue(m[..|m| - 1]) + (if m[|m| - 1] then 1 else 0)
  }

  /** `xs[mask]`: the kept elements, in their original order. */
  function Masked<T>(xs: seq<T>, m: seq<bool>): (r: seq<T>)
    requires |m| == |xs|
    ensures |r| == CountTrue(m) <= |xs|
    ensures forall x :: x in r ==> x in xs
  {
    if |xs| == 0 then []
    else
      var rest := Masked(xs[..|xs| - 1], m[..|m| - 1]);
      assert forall x :: x in rest ==> x in xs by {
        assert forall x :: x in xs[..|xs| - 1] ==> x in xs;
      }
      if m[|m| - 1] then rest + [xs[|xs| - 1]] else rest
  }

  /** A kept element comes from a position whose mask entry is set. */
  lemma {:induction false} MaskedFrom<T>(xs: seq<T>, m: seq<bool>, x: T)
    requires |m| == |xs| && x in Masked(xs, m)
    ensures exists q :: 0 <= q < |xs| && m[q] && xs[q] == x
  {
    var n := |xs|;
    if !(m[n - 1] && x == xs[n - 1]) {
      MaskedFrom(xs[..n - 1], m[..n - 1], x);
      var q :| 0 <= q < n - 1 && m[..n - 1][q] && xs[..n - 1][q] == x;
      assert m[q] && xs[q] == x;
    }
  }

  /** Every position whose mask entry is set is kept. */
  lemma {:induction false} MaskedKeeps<T>(xs: seq<T>, m: seq<bool>, p: nat)
    requires |m| == |xs| && p < |xs| && m[p]
    ensures xs[p] in Masked(xs, m)
  {
    var n := |xs|;
    if p < n - 1 {
      MaskedKeeps(xs[..n - 1], m[..n - 1], p);
    }
  }

  predicate Increasing(idx: seq<nat>) {
    forall a, b :: 0 <= a < b < |idx| ==> idx[a] < idx[b]
  }

  /** `mask.nonzero()`: the positions whose entry is set, in increasing order. */
  function TruePositions(m: seq<bool>): (r: seq<nat>)
    ensures InRange(r, |m|) && Increasing(r)
    ensures forall p :: 0 <= p < |m| ==> (p in r <==> m[p])
  {
    if |m| == 0 then []
    else
      var init := TruePositions(m[..|m| - 1]);
      if m[|m| - 1] then init + [|m| - 1] else init
  }

  /** Masking keeps exactly the elements at the set positions, in their original order. */
  lemma {:induction false} MaskedIsGather<T>(xs: seq<T>, m: seq<bool>)
    requires |m| == |xs|
    ensures Masked(xs, m) == Gather(xs, TruePositions(m))
  {
    var n := |xs|;
    if n > 0 {
      var init := TruePositions(m[..n - 1]);
      MaskedIsGather(xs[..n - 1], m[..n - 1]);
      GatherPrefix(xs, n - 1, init);
      if m[n - 1] {
        assert Gather(xs, init + [n - 1]) == Gather(xs, init) + [xs[n - 1]];
      }
    }
  }

  /** `zeros(n).index_fill_(0, idx, 1)`: position `p` is set iff `p` occurs in `idx`. */
  function MaskOf(idx: seq<nat>, n: nat): seq<bool> {
    seq(n, p requires 0 <= p < n => p in idx)
  }

  /* ---------------------------------------------------------------------------
     Concatenation and splitting
     ------------------------------------------------------------------------- */

  /** `cat` along the first dimension. */
  function Flatten<T>(xss: seq<seq<T>>): seq<T> {
    if |xss| == 0 then [] else Flatten(xss[..|xss| - 1]) + xss[|xss| - 1]
  }

  /** Element `j` of every row: the transpose of a nested vector, one column at a time. */
  function Column<T>(xss: seq<seq<T>>, j: nat): seq<T>
    requires forall r :: 0 <= r < |xss| ==> j < |xss[r]|
  {
    seq(|xss|, r requires 0 <= r < |xss| => xss[r][j])
  }

  function Lengths<T>(xss: seq<seq<T>>): seq<nat> {
    seq(|xss|, i requires 0 <= i < |xss| => |xss[i]|)
  }

  function Sum(xs: seq<nat>): nat {
    if |xs| == 0 then 0 else Sum(xs[..|xs| - 1]) + xs[|xs| - 1]
  }

  /** `split_with_sizes`: consecutive pieces of `xs` with the given lengths. */
  function SplitBySizes<T>(xs: seq<T>, sizes: seq<nat>): (r: seq<seq<T>>)
    requires Sum(sizes) == |xs|
    ensures |r| == |sizes|
    ensures forall i :: 0 <= i < |sizes| ==> |r[i]| == sizes[i]
    ensures Flatten(r) == xs
    decreases |sizes|
  {
    if |sizes| == 0 then []
    else
      var cut := |xs| - sizes[|sizes| - 1];
      var init := SplitBySizes(xs[..cut], sizes[..|sizes| - 1]);
      var r := init + [xs[cut..]];
      assert r[..|r| - 1] == init;
      r
  }

  lemma {:induction false} FlattenLength<T>(xss: seq<seq<T>>)
    ensures |Flatten(xss)| == Sum(Lengths(xss))
  {
    if |xss| > 0 {
      FlattenLength(xss[..|xss| - 1]);
      assert Lengths(xss)[..|xss| - 1] == Lengths(xss[..|xss| - 1]);
    }
  }

  lemma {:induction false} FlattenSnoc<T>(xss: seq<seq<T>>, ys: seq<T>)
    ensures Flatten(xss + [ys]) == Flatten(xss) + ys
  {
    assert (xss + [ys])[..|xss|] == xss;
  }

  predicate NonDecreasing(s: seq<int>) {
    forall a, b :: 0 <= a < b < |s| ==> s[a] <= s[b]
  }

  /** Concatenating pieces whose elements all equal their piece's index gives a
      non-decreasing sequence of indices. */
  lemma {:induction false} FlattenBlocksSorted(xss: seq<seq<int>>)
    requires forall i, x :: 0 <= i < |xss| && x in xss[i] ==> x == i
    ensures forall x :: x in Flatten(xss) ==> 0 <= x < |xss|
    ensures NonDecreasing(Flatten(xss))
  {
    var n := |xss|;
    if n > 0 {
      var init := xss[..n - 1];
      FlattenBlocksSorted(init);
      var f := Flatten(xss);
      assert f == Flatten(init) + xss[n - 1];
      forall x | x in f
        ensures 0 <= x < n
      {
        if x !in Flatten(init) {
          assert x in xss[n - 1];
        }
      }
      forall a, b | 0 <= a < b < |f|
        ensures f[a] <= f[b]
      {
        var m := |Flatten(init)|;
        var g := Flatten(init);
        if b < m {
          assert f[a] == g[a] && f[b] == g[b];
        } else if a < m {
          assert f[a] == g[a] && g[a] in g;
          assert f[b] == xss[n - 1][b - m] && xss[n - 1][b - m] in xss[n - 1];
        } else {
          assert f[a] == xss[n - 1][a - m] && xss[n - 1][a - m] in xss[n - 1];
          assert f[b] == xss[n - 1][b - m] && xss[n - 1][b - m] in xss[n - 1];
        }
      }
    }
  }

  /** Pieces of one common length `w` concatenate to `|xss| * w` elements. */
  lemma {:induction false} FlattenUniform<T>(xss: seq<seq<T>>, w: nat)
    requires forall i :: 0 <= i < |xss| ==> |xss[i]| == w
    ensures |Flatten(xss)| == |xss| * w
  {
    if |xss| > 0 {
      FlattenUniform(xss[..|xss| - 1], w);
      assert (|xss| - 1) * w + w == |xss| * w;
    }
  }

  /** Element `j` of piece `i` sits after all elements of the earlier pieces. */
  lemma {:induction false} FlattenAt<T>(xss: seq<seq<T>>, i: nat, j: nat)
    requires i < |xss| && j < |xss[i]|
    ensures |Flatten(xss[..i])| + j < |Flatten(xss)|
    ensures Flatten(xss)[|Flatten(xss[..i])| + j] == xss[i][j]
  {
    var n := |xss|;
    if i == n - 1 {
      assert xss[..n - 1] == xss[..i];
    } else {
      FlattenAt(xss[..n - 1], i, j);
      assert xss[..n - 1][..i] == xss[..i];
    }
  }

  lemma {:induction false} FlattenMember<T>(xss: seq<seq<T>>, x: T)
    requires x in Flatten(xss)
    ensures exists i :: 0 <= i < |xss| && x in xss[i]
  {
    var n := |xss|;
    if x !in xss[n - 1] {
      FlattenMember(xss[..n - 1], x);
      var i :| 0 <= i < n - 1 && x in xss[..n - 1][i];
      assert x in xss[i];
    }
  }

  lemma {:induction false} CountTrueAppend(a: seq<bool>, b: seq<bool>)
    ensures CountTrue(a + b) == CountTrue(a) + CountTrue(b)
  {
    if |b| > 0 {
      CountTrueAppend(a, b[..|b| - 1]);
      assert (a + b)[..|a + b| - 1] == a + b[..|b| - 1];
    } else {
      assert a + b == a;
    }
  }

  /** Counting the set entries of the concatenation piece by piece. */
  lemma {:induction false} CountTrueFlatten(mss: seq<seq<bool>>)
    ensures CountTrue(Flatten(mss)) == Sum(seq(|mss|, i requires 0 <= i < |mss| => CountTrue(mss[i])))
  {
    if |mss| > 0 {
      var n := |mss|;
      CountTrueFlatten(mss[..n - 1]);
      CountTrueAppend(Flatten(mss[..n - 1]), mss[n - 1]);
      assert seq(n, i requires 0 <= i < n => CountTrue(mss[i]))[..n - 1]
          == seq(n - 1, i requires 0 <= i < n - 1 => CountTrue(mss[..n - 1][i]));
    }
  }

  /* ---------------------------------------------------------------------------
     Cardinalities
     ------------------------------------------------------------------------- */

  lemma {:induction false} DistinctCard(idx: seq<nat>)
    requires Distinct(idx)
    ensures |Elems(idx)| == |idx|
  {
    if |idx| > 0 {
      var init := idx[..|idx| - 1];
      DistinctCard(init);
      assert Elems(idx) == Elems(init) + {idx[|idx| - 1]};
      assert idx[|idx| - 1] !in Elems(init);
    }
  }

  lemma SubsetCard<T>(a: set<T>, b: set<T>)
    requires a <= b
    ensures |a| <= |b|
  {
    assert b == a + (b - a);
  }

  /** Fewer distinct in-range indices than positions leave a position unpicked. */
  lemma Pigeonhole(idx: seq<nat>, n: nat)
    requires IsSelection(idx, n) && |idx| < n
    ensures exists i :: 0 <= i < n && i !in idx
  {
    if forall i :: 0 <= i < n ==> i in idx {
      assert Range(n) <= Elems(idx);
      SubsetCard(Range(n), Elems(idx));
      DistinctCard(idx);
    }
  }

  /** A selection of `n` distinct positions out of `n` picks every position. */
  lemma FullSelectionCovers(idx: seq<nat>, n: nat, p: nat)
    requires IsSelection(idx, n) && |idx| == n && p < n
    ensures p in idx
  {
    if p !in idx {
      assert Elems(idx) <= Range(n) - {p};
      SubsetCard(Elems(idx), Range(n) - {p});
      DistinctCard(idx);
    }
  }

  /** The number of set entries of a mask is the number of positions it sets. */
  lemma {:induction false} CountTrueIsCard(m: seq<bool>)
    ensures CountTrue(m) == |set k: nat | k < |m| && m[k]|
  {
    if |m| > 0 {
      var n := |m|;
      var init := m[..n - 1];
      CountTrueIsCard(init);
      var s := set k: nat | k < n && m[k];
      var s0 := set k: nat | k < n - 1 && init[k];
      forall k: nat
        ensures k in s <==> k in s0 || (k == n - 1 && m[n - 1])
      {
        if k < n - 1 {
          assert init[k] == m[k];
        }
      }
      if m[n - 1] {
        assert s == s0 + {n - 1};
        assert n - 1 !in s0;
      } else {
        assert s == s0;
      }
    }
  }

  /** A mask filled from `k` distinct indices has exactly `k` entries set. */
  lemma MaskCount(idx: seq<nat>, n: nat)
    requires IsSelection(idx, n)
    ensures CountTrue(MaskOf(idx, n)) == |idx|
  {
    var m := MaskOf(idx, n);
    CountTrueIsCard(m);
    assert (set k: nat | k < |m| && m[k]) == Elems(idx);
    DistinctCard(idx);
  }

  lemma GatherSplitAt<T>(xs: seq<T>, idx: seq<nat>, a: nat)
    requires InRange(idx, |xs|) && a < |idx|
    ensures Gather(xs, idx) == Gather(xs, idx[..a]) + [xs[idx[a]]] + Gather(xs, idx[a + 1..])
  {
  }

  lemma GatherPrefix<T>(xs: seq<T>, m: nat, u: seq<nat>)
    requires m <= |xs| && InRange(u, m)
    ensures Gather(xs[..m], u) == Gather(xs, u)
  {
  }

  /** Dropping the entry that names the last position leaves a selection of the rest. */
  lemma DropLast(idx: seq<nat>, n: nat, a: nat)
    requires IsSelection(idx, n + 1) && a < |idx| && idx[a] == n
    ensures InRange(idx[..a], n) && InRange(idx[a + 1..], n)
    ensures IsSelection(idx[..a] + idx[a + 1..], n)
  {
    var rest := idx[..a] + idx[a + 1..];
    assert forall b :: 0 <= b < |rest| ==> rest[b] == if b < a then idx[b] else idx[b + 1];
  }

  /** Gathering with `idx` is gathering without its entry for the last position,
      plus that last element. */
  lemma GatherWithoutLast<T>(xs: seq<T>, idx: seq<nat>, a: nat)
    requires |xs| > 0 && IsSelection(idx, |xs|) && a < |idx| && idx[a] == |xs| - 1
    ensures InRange(idx[..a] + idx[a + 1..], |xs| - 1)
    ensures multiset(Gather(xs, idx))
         == multiset(Gather(xs[..|xs| - 1], idx[..a] + idx[a + 1..])) + multiset{xs[|xs| - 1]}
  {
    var n := |xs|;
    var left, right := idx[..a], idx[a + 1..];
    var init := xs[..n - 1];
    DropLast(idx, n - 1, a);
    assert Gather(init, left + right) == Gather(init, left) + Gather(init, right);
    GatherPrefix(xs, n - 1, left);
    GatherPrefix(xs, n - 1, right);
    GatherSplitAt(xs, idx, a);
  }

  /** Gathering with a full selection is a permutation. */
  lemma {:induction false} GatherPermutation<T>(xs: seq<T>, idx: seq<nat>)
    requires |idx| == |xs| && IsSelection(idx, |xs|)
    ensures multiset(Gather(xs, idx)) == multiset(xs)
  {
    var n := |xs|;
    if n > 0 {
      FullSelectionCovers(idx, n, n - 1);
      var a :| 0 <= a < n && idx[a] == n - 1;
      GatherWithoutLast(xs, idx, a);
      DropLast(idx, n - 1, a);
      GatherPermutation(xs[..n - 1], idx[..a] + idx[a + 1..]);
      assert xs == xs[..n - 1] + [xs[n - 1]];
    }
  }

  /* ---------------------------------------------------------------------------
     Top-k
     ------------------------------------------------------------------------- */

  /** No position left out of `idx` scores above a position in it. */
  predicate Dominates(s: seq<real>, idx: seq<nat>)
    requires InRange(idx, |s|)
  {
    forall i, a :: 0 <= i < |s| && i !in idx && 0 <= a < |idx| ==> s[i] <= s[idx[a]]
  }

  /** The picked values come in non-increasing order. */
  predicate Descending(s: seq<real>, idx: seq<nat>)
    requires InRange(idx, |s|)
  {
    forall a, b :: 0 <= a < b < |idx| ==> s[idx[b]] <= s[idx[a]]
  }

  /** `topk(k, sorted=false)`: `k` distinct positions holding the `k` largest values,
      ties and order unspecified. */
  predicate IsTopKSet(s: seq<real>, k: nat, idx: seq<nat>) {
    |idx| == k && IsSelection(idx, |s|) && Dominates(s, idx)
  }

  /** `topk(k, largest=true, sorted=true)`: as above, in descending order of value. */
  predicate IsTopK(s: seq<real>, k: nat, idx: seq<nat>) {
    IsTopKSet(s, k, idx) && Descending(s, idx)
  }

  /** A position outside `idx` whose value no other position outside `idx` exceeds. */
  method MaxOutside(s: seq<real>, idx: seq<nat>) returns (best: nat)
    requires exists i :: 0 <= i < |s| && i !in idx
    ensures best < |s| && best !in idx
    ensures forall i :: 0 <= i < |s| && i !in idx ==> s[i] <= s[best]
  {
    var found := false;
    best := 0;
    for i := 0 to |s|
      invariant found ==> best < |s| && best !in idx
      invariant found ==> forall j :: 0 <= j < i && j !in idx ==> s[j] <= s[best]
      invariant !found ==> forall j :: 0 <= j < i ==> j in idx
    {
      if i !in idx && (!found || s[best] < s[i]) {
        best, found := i, true;
      }
    }
  }

  /** The indices of the `k` largest values, largest first (`k` must not exceed the
      length, as torch demands). */
  method TopK(s: seq<real>, k: nat) returns (idx: seq<nat>)
    requires k <= |s|
    ensures IsTopK(s, k, idx)
  {
    idx := [];
    while |idx| < k
      invariant |idx| <= k
      invariant IsSelection(idx, |s|)
      invariant Dominates(s, idx)
      invariant Descending(s, idx)
    {
      Pigeonhole(idx, |s|);
      var best := MaxOutside(s, idx);
      idx := idx + [best];
    }
  }

  /** `sort(descending=true)`: a permutation of the positions, largest value first. */
  method ArgSortDescending(s: seq<real>) returns (idx: seq<nat>)
    ensures IsTopK(s, |s|, idx)
  {
    idx := TopK(s, |s|);
  }
}
