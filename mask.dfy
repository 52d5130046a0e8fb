/** Boolean-mask indexing of a series (`xs[keep]`) and the two ways of mapping
    a position in the filtered series back to the unfiltered one. */
module Mask {

  /** Number of true bits of a mask. */
  function CountTrue(keep: seq<bool>): (n: nat)
    ensures n <= |keep|
  {
    if keep == [] then 0
    else CountTrue(keep[..|keep| - 1]) + (if keep[|keep| - 1] then 1 else 0)
  }

  /** The positions of the true bits, in increasing order: the original
      positions of the entries that survive the filter. */
  function KeptIndices(keep: seq<bool>): (ix: seq<nat>)
    ensures |ix| == CountTrue(keep)
    ensures forall j :: 0 <= j < |ix| ==> ix[j] < |keep| && keep[ix[j]]
  {
    if keep == [] then []
    else
      var n := |keep| - 1;
      KeptIndices(keep[..n]) + (if keep[n] then [n] else [])
  }

  /** The kept positions come in strictly increasing order. */
  lemma {:induction false} KeptIndicesIncreasing(keep: seq<bool>)
    ensures forall j, j' :: 0 <= j < j' < |KeptIndices(keep)| ==> KeptIndices(keep)[j] < KeptIndices(keep)[j']
  {
    if keep != [] {
      var n := |keep| - 1;
      KeptIndicesIncreasing(keep[..n]);
    }
  }

  /** Every kept position is listed. */
  lemma {:induction false} KeptIndicesComplete(keep: seq<bool>)
    ensures forall i :: 0 <= i < |keep| && keep[i] ==> i in KeptIndices(keep)
  {
    if keep != [] {
      var n := |keep| - 1;
      KeptIndicesComplete(keep[..n]);
      assert forall i :: 0 <= i < n ==> keep[..n][i] == keep[i];
    }
  }

  /** `xs[keep]`: exactly the entries whose mask bit is set, in their
      original order. */
  function Filter<T>(xs: seq<T>, keep: seq<bool>): (r: seq<T>)
    requires |keep| == |xs|
    ensures |r| == CountTrue(keep)
  {
    if xs == [] then []
    else
      var n := |xs| - 1;
      Filter(xs[..n], keep[..n]) + (if keep[n] then [xs[n]] else [])
  }

  /** The j-th entry of `xs[keep]` is the entry at the j-th kept position. */
  lemma {:induction false} FilterAt<T>(xs: seq<T>, keep: seq<bool>)
    requires |keep| == |xs|
    ensures forall j :: 0 <= j < |Filter(xs, keep)| ==> Filter(xs, keep)[j] == xs[KeptIndices(keep)[j]]
  {
    if xs != [] {
      var n := |xs| - 1;
      FilterAt(xs[..n], keep[..n]);
    }
  }

  lemma {:induction false} CountTrueAppend(a: seq<bool>, b: seq<bool>)
    ensures CountTrue(a + b) == CountTrue(a) + CountTrue(b)
    decreases |b|
  {
    if b != [] {
      var n := |b| - 1;
      assert (a + b)[..|a + b| - 1] == a + b[..n];
      assert (a + b)[|a + b| - 1] == b[n];
      CountTrueAppend(a, b[..n]);
    } else {
      assert a + b == a;
    }
  }

  /** A mask has as many true bits as entries exactly when every bit is set. */
  lemma {:induction false} CountTrueAll(keep: seq<bool>)
    ensures CountTrue(keep) == |keep| <==> forall i :: 0 <= i < |keep| ==> keep[i]
  {
    if keep != [] {
      var n := |keep| - 1;
      CountTrueAll(keep[..n]);
      if CountTrue(keep) == |keep| {
        assert keep[n];
        forall i | 0 <= i < |keep| ensures keep[i] {
          if i < n { assert keep[..n][i] == keep[i]; }
        }
      }
      if forall i :: 0 <= i < |keep| ==> keep[i] {
        assert forall i :: 0 <= i < n ==> keep[..n][i];
      }
    }
  }

  /** A mask has no true bit exactly when it counts none. */
  lemma {:induction false} CountTrueNone(keep: seq<bool>)
    ensures CountTrue(keep) == 0 <==> forall i :: 0 <= i < |keep| ==> !keep[i]
  {
    if keep != [] {
      var n := |keep| - 1;
      CountTrueNone(keep[..n]);
      assert forall i :: 0 <= i < n ==> keep[..n][i] == keep[i];
    }
  }

  /** The j-th kept entry has exactly j kept entries before it. */
  lemma {:induction false} KeptIndexRank(keep: seq<bool>, j: nat)
    requires j < CountTrue(keep)
    ensures CountTrue(keep[..KeptIndices(keep)[j]]) == j
  {
    var n := |keep| - 1;
    var prefix := keep[..n];
    if j < CountTrue(prefix) {
      var p := KeptIndices(prefix)[j];
      assert KeptIndices(keep)[j] == p;
      assert keep[..p] == prefix[..p];
      KeptIndexRank(prefix, j);
    } else {
      assert KeptIndices(keep)[j] == n;
    }
  }

  /** The corrected mapping: the position, in the unfiltered series, of the
      k-th entry of the filtered series. */
  function OriginalIndex(keep: seq<bool>, k: nat): (p: nat)
    requires k < CountTrue(keep)
    ensures p < |keep| && keep[p]
    ensures CountTrue(keep[..p]) == k
  {
    KeptIndexRank(keep, k);
    KeptIndices(keep)[k]
  }

  /** `~keep`. */
  function Negate(keep: seq<bool>): seq<bool>
  {
    seq(|keep|, i requires 0 <= i < |keep| => !keep[i])
  }

  /** The dropped entries are the entries that are not kept. */
  lemma {:induction false} CountDropped(keep: seq<bool>)
    ensures CountTrue(Negate(keep)) == |keep| - CountTrue(keep)
  {
    if keep != [] {
      var n := |keep| - 1;
      assert Negate(keep)[..n] == Negate(keep[..n]);
      CountDropped(keep[..n]);
    }
  }

  /** The mapping as the source writes it, `k + np.sum(~keep)`: the filtered
      index plus the number of dropped entries, wherever they were. */
  function OffsetIndex(keep: seq<bool>, k: nat): (p: nat)
    ensures p == k + (|keep| - CountTrue(keep))
    ensures k < CountTrue(keep) ==> p < |keep|
  {
    CountDropped(keep);
    k + CountTrue(Negate(keep))
  }

  /** The offset mapping never points before the kept entry, and it points at
      it exactly when no entry after it was dropped. */
  lemma OffsetIndexCorrectIff(keep: seq<bool>, k: nat)
    requires k < CountTrue(keep)
    ensures OriginalIndex(keep, k) <= OffsetIndex(keep, k)
    ensures OffsetIndex(keep, k) == OriginalIndex(keep, k) <==>
            forall i :: OriginalIndex(keep, k) < i < |keep| ==> keep[i]
  {
    var p := OriginalIndex(keep, k);
    CountTrueSplit(keep, p);
    var suffix := keep[p..];
    CountTrueAll(suffix);
    SuffixAll(keep, p);
    assert OffsetIndex(keep, k) == p + (|suffix| - CountTrue(suffix));
  }

  /** The kept count of a mask is that of its prefix plus that of its suffix. */
  lemma CountTrueSplit(keep: seq<bool>, p: nat)
    requires p <= |keep|
    ensures CountTrue(keep) == CountTrue(keep[..p]) + CountTrue(keep[p..])
  {
    assert keep == keep[..p] + keep[p..];
    CountTrueAppend(keep[..p], keep[p..]);
  }

  /** Every entry of `keep[p..]` is set exactly when every entry after p is. */
  lemma SuffixAll(keep: seq<bool>, p: nat)
    requires p < |keep| && keep[p]
    ensures (forall i :: 0 <= i < |keep[p..]| ==> keep[p..][i]) <==>
            (forall i :: p < i < |keep| ==> keep[i])
  {
  }

  /** Filtering with a mask whose every bit is set changes nothing. */
  lemma {:induction false} FilterAllKept<T>(xs: seq<T>, keep: seq<bool>)
    requires |keep| == |xs|
    requires forall i :: 0 <= i < |keep| ==> keep[i]
    ensures Filter(xs, keep) == xs
  {
    if xs != [] {
      var n := |xs| - 1;
      assert forall i :: 0 <= i < n ==> keep[..n][i];
      FilterAllKept(xs[..n], keep[..n]);
      assert xs == xs[..n] + [xs[n]];
    }
  }
}
