/** The quicksort that orders boxes by Hilbert value (common.go:80-108): it
    sorts the values array in place and applies every swap to the boxes
    array at the same positions, so each box stays paired with its value. */
module PairSort {
  import opened Boxes

  /** Go's uint32. */
  newtype U32 = x: int | 0 <= x < 0x1_0000_0000

  /** The (value, box) pairs at positions [lo, hi) of the two arrays. */
  ghost function PairsOf(vs: seq<U32>, bs: seq<Box>, lo: int, hi: int): (z: seq<(U32, Box)>)
    requires 0 <= lo <= hi <= |vs| && hi <= |bs|
  {
    seq(hi - lo, k requires 0 <= k < hi - lo => (vs[lo + k], bs[lo + k]))
  }

  /** vs is in non-decreasing order on [lo, hi). */
  ghost predicate SortedBetween(vs: seq<U32>, lo: int, hi: int)
  {
    forall p, q :: lo <= p < q < hi && 0 <= p && q < |vs| ==> vs[p] <= vs[q]
  }

  /** s with positions i and j exchanged; out-of-range positions leave it as is. */
  ghost function Exchange<T>(s: seq<T>, i: int, j: int): (r: seq<T>)
    ensures |r| == |s|
  {
    if 0 <= i < |s| && 0 <= j < |s| then s[i := s[j]][j := s[i]] else s
  }

  /** s after the exchanges of log, first to last. */
  ghost function Replay<T>(s: seq<T>, log: seq<(int, int)>): (r: seq<T>)
    ensures |r| == |s|
  {
    if log == [] then s
    else
      var e := log[|log| - 1];
      Exchange(Replay(s, log[..|log| - 1]), e.0, e.1)
  }

  /** Every exchange of log stays inside [lo, hi). */
  ghost predicate Within(log: seq<(int, int)>, lo: int, hi: int)
  {
    forall e | e in log :: lo <= e.0 < hi && lo <= e.1 < hi
  }

  /** (vs, bs) is (vs0, bs0) after some exchanges inside [lo, hi), each
      applied to both sequences at the same two positions. */
  ghost predicate Rearranged(vs: seq<U32>, bs: seq<Box>, vs0: seq<U32>, bs0: seq<Box>, lo: int, hi: int)
  {
    exists log :: Within(log, lo, hi) && vs == Replay(vs0, log) && bs == Replay(bs0, log)
  }

  /** Replaying two logs one after the other is replaying their concatenation. */
  lemma {:induction false} ReplayAppend<T>(s: seq<T>, l1: seq<(int, int)>, l2: seq<(int, int)>)
    ensures Replay(s, l1 + l2) == Replay(Replay(s, l1), l2)
    decreases |l2|
  {
    if l2 == [] {
      assert l1 + l2 == l1;
    } else {
      var init := l2[..|l2| - 1];
      ReplayAppend(s, l1, init);
      assert (l1 + l2)[..|l1 + l2| - 1] == l1 + init;
    }
  }

  /** Replaying one more exchange is exchanging after the replay. */
  lemma ReplayStep<T>(s: seq<T>, log: seq<(int, int)>, i: int, j: int)
    ensures Replay(s, log + [(i, j)]) == Exchange(Replay(s, log), i, j)
  {
    assert (log + [(i, j)])[..|log|] == log;
  }

  /** No exchanges at all are a rearrangement. */
  lemma RearrangedReflexive(vs: seq<U32>, bs: seq<Box>, lo: int, hi: int)
    ensures Rearranged(vs, bs, vs, bs, lo, hi)
  {
    var log: seq<(int, int)> := [];
    assert Within(log, lo, hi) && vs == Replay(vs, log) && bs == Replay(bs, log);
  }

  /** A rearrangement of a rearrangement is a rearrangement, even when the
      second one works on a subrange of [lo, hi). */
  lemma RearrangedTransitive(vs: seq<U32>, bs: seq<Box>, vs1: seq<U32>, bs1: seq<Box>,
                             vs0: seq<U32>, bs0: seq<Box>, lo: int, hi: int, lo1: int, hi1: int)
    requires lo <= lo1 && hi1 <= hi
    requires Rearranged(vs, bs, vs1, bs1, lo1, hi1) && Rearranged(vs1, bs1, vs0, bs0, lo, hi)
    ensures Rearranged(vs, bs, vs0, bs0, lo, hi)
  {
    var l2 :| Within(l2, lo1, hi1) && vs == Replay(vs1, l2) && bs == Replay(bs1, l2);
    var l1 :| Within(l1, lo, hi) && vs1 == Replay(vs0, l1) && bs1 == Replay(bs0, l1);
    ReplayAppend(vs0, l1, l2);
    ReplayAppend(bs0, l1, l2);
    assert Within(l1 + l2, lo, hi);
  }

  /** An exchange inside [lo, hi) of both sequences only reorders the pairs
      of [lo, hi). */
  lemma ExchangePairs(vs: seq<U32>, bs: seq<Box>, lo: int, hi: int, i: int, j: int)
    requires 0 <= lo <= i < hi && lo <= j < hi && hi <= |vs| && hi <= |bs|
    ensures multiset(PairsOf(Exchange(vs, i, j), Exchange(bs, i, j), lo, hi))
            == multiset(PairsOf(vs, bs, lo, hi))
  {
    var z, z' := PairsOf(vs, bs, lo, hi), PairsOf(Exchange(vs, i, j), Exchange(bs, i, j), lo, hi);
    assert z' == z[i - lo := z[j - lo]][j - lo := z[i - lo]];
  }

  /** Replaying exchanges inside [lo, hi) only reorders the pairs of
      [lo, hi) and changes nothing outside it. */
  lemma {:induction false} ReplayKeepsPairs(vs: seq<U32>, bs: seq<Box>, log: seq<(int, int)>,
                                            lo: int, hi: int)
    requires 0 <= lo <= hi <= |vs| && hi <= |bs| && Within(log, lo, hi)
    ensures multiset(PairsOf(Replay(vs, log), Replay(bs, log), lo, hi))
            == multiset(PairsOf(vs, bs, lo, hi))
    ensures forall k :: 0 <= k < |vs| && (k < lo || hi <= k) ==> Replay(vs, log)[k] == vs[k]
    ensures forall k :: 0 <= k < |bs| && (k < lo || hi <= k) ==> Replay(bs, log)[k] == bs[k]
    decreases |log|
  {
    if log != [] {
      var init, e := log[..|log| - 1], log[|log| - 1];
      assert Within(init, lo, hi) && e in log;
      ReplayKeepsPairs(vs, bs, init, lo, hi);
      ExchangePairs(Replay(vs, init), Replay(bs, init), lo, hi, e.0, e.1);
    }
  }

  /** A rearrangement keeps both lengths. */
  lemma RearrangedLength(vs: seq<U32>, bs: seq<Box>, vs0: seq<U32>, bs0: seq<Box>, lo: int, hi: int)
    requires Rearranged(vs, bs, vs0, bs0, lo, hi)
    ensures |vs| == |vs0| && |bs| == |bs0|
  {
  }

  /** What a rearrangement preserves: the multiset of (value, box) pairs on
      [lo, hi), so every box stays with its own value, and every value and
      box outside [lo, hi). */
  lemma RearrangedKeepsPairs(vs: seq<U32>, bs: seq<Box>, vs0: seq<U32>, bs0: seq<Box>, lo: int, hi: int)
    requires 0 <= lo <= hi <= |vs0| && hi <= |bs0|
    requires Rearranged(vs, bs, vs0, bs0, lo, hi)
    ensures |vs| == |vs0| && |bs| == |bs0|
    ensures multiset(PairsOf(vs, bs, lo, hi)) == multiset(PairsOf(vs0, bs0, lo, hi))
    ensures forall k :: 0 <= k < |vs| && (k < lo || hi <= k) ==> vs[k] == vs0[k]
    ensures forall k :: 0 <= k < |bs| && (k < lo || hi <= k) ==> bs[k] == bs0[k]
  {
    var log :| Within(log, lo, hi) && vs == Replay(vs0, log) && bs == Replay(bs0, log);
    ReplayKeepsPairs(vs0, bs0, log, lo, hi);
  }

  /** A rearrangement of [lo, hi) keeps every value there at most the pivot. */
  lemma AtMostSurvives(vs: seq<U32>, bs: seq<Box>, vs0: seq<U32>, bs0: seq<Box>,
                       lo: int, hi: int, pivot: U32)
    requires 0 <= lo <= hi <= |vs0| && hi <= |bs0|
    requires Rearranged(vs, bs, vs0, bs0, lo, hi)
    requires forall k :: lo <= k < hi ==> vs0[k] <= pivot
    ensures forall k :: lo <= k < hi ==> vs[k] <= pivot
  {
    RearrangedKeepsPairs(vs, bs, vs0, bs0, lo, hi);
    var z, z0 := PairsOf(vs, bs, lo, hi), PairsOf(vs0, bs0, lo, hi);
    forall k | lo <= k < hi ensures vs[k] <= pivot {
      assert z[k - lo] in multiset(z0);
      var m :| 0 <= m < |z0| && z0[m] == z[k - lo];
    }
  }

  /** A rearrangement of [lo, hi) keeps every value there at least the pivot. */
  lemma AtLeastSurvives(vs: seq<U32>, bs: seq<Box>, vs0: seq<U32>, bs0: seq<Box>,
                        lo: int, hi: int, pivot: U32)
    requires 0 <= lo <= hi <= |vs0| && hi <= |bs0|
    requires Rearranged(vs, bs, vs0, bs0, lo, hi)
    requires forall k :: lo <= k < hi ==> pivot <= vs0[k]
    ensures forall k :: lo <= k < hi ==> pivot <= vs[k]
  {
    RearrangedKeepsPairs(vs, bs, vs0, bs0, lo, hi);
    var z, z0 := PairsOf(vs, bs, lo, hi), PairsOf(vs0, bs0, lo, hi);
    forall k | lo <= k < hi ensures pivot <= vs[k] {
      assert z[k - lo] in multiset(z0);
      var m :| 0 <= m < |z0| && z0[m] == z[k - lo];
    }
  }

  /** A rearrangement of [j + 1, right] leaves a sorted run [left, j] whose
      values are at most the pivot as it was. */
  lemma PrefixSurvives(vs: seq<U32>, bs: seq<Box>, vs0: seq<U32>, bs0: seq<Box>,
                       left: int, j: int, right: int, pivot: U32)
    requires 0 <= left <= j < right < |vs0| && right < |bs0|
    requires Rearranged(vs, bs, vs0, bs0, j + 1, right + 1)
    requires forall k :: left <= k <= j ==> vs0[k] <= pivot
    requires SortedBetween(vs0, left, j + 1)
    ensures forall k :: left <= k <= j ==> vs[k] <= pivot
    ensures SortedBetween(vs, left, j + 1)
  {
    RearrangedKeepsPairs(vs, bs, vs0, bs0, j + 1, right + 1);
  }

  /** The step that makes the recursion sort: after the partition (v1) every
      value up to j is at most the pivot and every value after j at least the
      pivot; sorting the two parts in turn (v2, then v3) rearranges each part
      within itself, so the whole range ends sorted. */
  lemma CombineSorted(v1: seq<U32>, b1: seq<Box>, v2: seq<U32>, b2: seq<Box>,
                      v3: seq<U32>, b3: seq<Box>, left: int, j: int, right: int, pivot: U32)
    requires 0 <= left <= j < right < |v1| && right < |b1|
    requires forall k :: left <= k <= j ==> v1[k] <= pivot
    requires forall k :: j < k <= right ==> pivot <= v1[k]
    requires Rearranged(v2, b2, v1, b1, left, j + 1) && SortedBetween(v2, left, j + 1)
    requires Rearranged(v3, b3, v2, b2, j + 1, right + 1) && SortedBetween(v3, j + 1, right + 1)
    ensures SortedBetween(v3, left, right + 1)
  {
    AtMostSurvives(v2, b2, v1, b1, left, j + 1, pivot);
    RearrangedKeepsPairs(v2, b2, v1, b1, left, j + 1);
    assert forall k :: j < k <= right ==> pivot <= v2[k];
    AtLeastSurvives(v3, b3, v2, b2, j + 1, right + 1, pivot);
    PrefixSurvives(v3, b3, v2, b2, left, j, right, pivot);
    SortedJoin(v3, left, j, right, pivot);
  }

  /** Two sorted runs, the first at most and the second at least the pivot,
      form one sorted run. */
  lemma SortedJoin(vs: seq<U32>, left: int, j: int, right: int, pivot: U32)
    requires 0 <= left <= j < right < |vs|
    requires forall k :: left <= k <= j ==> vs[k] <= pivot
    requires forall k :: j < k <= right ==> pivot <= vs[k]
    requires SortedBetween(vs, left, j + 1) && SortedBetween(vs, j + 1, right + 1)
    ensures SortedBetween(vs, left, right + 1)
  {
  }

  /** The whole recursive step: the partition (v0 to v1) followed by the two
      recursive sorts (v1 to v2 to v3), each of which leaves a range of fewer
      than two positions alone, sorts and rearranges [left, right]. */
  lemma CombineRecursion(v0: seq<U32>, b0: seq<Box>, v1: seq<U32>, b1: seq<Box>,
                         v2: seq<U32>, b2: seq<Box>, v3: seq<U32>, b3: seq<Box>,
                         left: int, j: int, right: int, pivot: U32)
    requires 0 <= left <= j < right < |v0| && right < |b0|
    requires Rearranged(v1, b1, v0, b0, left, right + 1)
    requires forall k :: left <= k <= j ==> v1[k] <= pivot
    requires forall k :: j < k <= right ==> pivot <= v1[k]
    requires left == j ==> v2 == v1 && b2 == b1
    requires left < j ==> SortedBetween(v2, left, j + 1) && Rearranged(v2, b2, v1, b1, left, j + 1)
    requires j + 1 == right ==> v3 == v2 && b3 == b2
    requires j + 1 < right ==>
               SortedBetween(v3, j + 1, right + 1) && Rearranged(v3, b3, v2, b2, j + 1, right + 1)
    ensures SortedBetween(v3, left, right + 1)
    ensures Rearranged(v3, b3, v0, b0, left, right + 1)
  {
    RearrangedLength(v1, b1, v0, b0, left, right + 1);
    SortedStep(v1, b1, v2, b2, v3, b3, left, j, right, pivot);
    RearrangedStep(v0, b0, v1, b1, v2, b2, v3, b3, left, j, right);
  }

  /** The ordering half of CombineRecursion. */
  lemma SortedStep(v1: seq<U32>, b1: seq<Box>, v2: seq<U32>, b2: seq<Box>,
                   v3: seq<U32>, b3: seq<Box>, left: int, j: int, right: int, pivot: U32)
    requires 0 <= left <= j < right < |v1| && right < |b1|
    requires forall k :: left <= k <= j ==> v1[k] <= pivot
    requires forall k :: j < k <= right ==> pivot <= v1[k]
    requires left == j ==> v2 == v1 && b2 == b1
    requires left < j ==> SortedBetween(v2, left, j + 1) && Rearranged(v2, b2, v1, b1, left, j + 1)
    requires j + 1 == right ==> v3 == v2 && b3 == b2
    requires j + 1 < right ==>
               SortedBetween(v3, j + 1, right + 1) && Rearranged(v3, b3, v2, b2, j + 1, right + 1)
    ensures SortedBetween(v3, left, right + 1)
  {
    if left == j {
      RearrangedReflexive(v2, b2, left, j + 1);
    }
    if j + 1 == right {
      RearrangedReflexive(v3, b3, j + 1, right + 1);
    }
    CombineSorted(v1, b1, v2, b2, v3, b3, left, j, right, pivot);
  }

  /** The pairing half of CombineRecursion. */
  lemma RearrangedStep(v0: seq<U32>, b0: seq<Box>, v1: seq<U32>, b1: seq<Box>,
                       v2: seq<U32>, b2: seq<Box>, v3: seq<U32>, b3: seq<Box>,
                       left: int, j: int, right: int)
    requires left <= j < right
    requires Rearranged(v1, b1, v0, b0, left, right + 1)
    requires left == j ==> v2 == v1 && b2 == b1
    requires left < j ==> Rearranged(v2, b2, v1, b1, left, j + 1)
    requires j + 1 == right ==> v3 == v2 && b3 == b2
    requires j + 1 < right ==> Rearranged(v3, b3, v2, b2, j + 1, right + 1)
    ensures Rearranged(v3, b3, v0, b0, left, right + 1)
  {
    if left == j {
      RearrangedReflexive(v2, b2, left, j + 1);
    }
    if j + 1 == right {
      RearrangedReflexive(v3, b3, j + 1, right + 1);
    }
    RearrangedTransitive(v2, b2, v1, b1, v0, b0, left, right + 1, left, j + 1);
    RearrangedTransitive(v3, b3, v2, b2, v0, b0, left, right + 1, j + 1, right + 1);
  }

  /** Swaps positions i and j of both arrays, as lines 102-103 do, at the
      point where the scans stopped: the value at i is at least the pivot
      and the value at j at most, so afterwards [left, i] holds values at
      most the pivot and [j, right] values at least the pivot. The swap is
      recorded at the end of the exchange log. */
  method SwapPairs(values: array<U32>, boxes: array<Box>, i: int, j: int, pivot: U32,
                   ghost left: int, ghost right: int,
                   ghost v0: seq<U32>, ghost b0: seq<Box>, ghost log: seq<(int, int)>)
    returns (ghost log': seq<(int, int)>)
    requires 0 <= left <= i < j <= right < values.Length && right < boxes.Length
    requires values[j] <= pivot <= values[i]
    requires forall k :: left <= k < i ==> values[k] <= pivot
    requires forall k :: j < k <= right ==> pivot <= values[k]
    requires Within(log, left, right + 1)
    requires values[..] == Replay(v0, log) && boxes[..] == Replay(b0, log)
    modifies values, boxes
    ensures forall k :: left <= k <= i ==> values[k] <= pivot
    ensures forall k :: j <= k <= right ==> pivot <= values[k]
    ensures Within(log', left, right + 1)
    ensures values[..] == Replay(v0, log') && boxes[..] == Replay(b0, log')
    ensures log' == log + [(i, j)]
    ensures values[..] == old(values[..])[i := old(values[j])][j := old(values[i])]
    ensures boxes[..] == old(boxes[..])[i := old(boxes[j])][j := old(boxes[i])]
  {
    ReplayStep(v0, log, i, j);
    ReplayStep(b0, log, i, j);
    values[i], values[j] := values[j], values[i];
    boxes[i], boxes[j] := boxes[j], boxes[i];
    log' := log + [(i, j)];
  }

  /** The scan of lines 91-94: from start, step right past every value below
      the pivot. A position stop holding at least the pivot bounds the scan. */
  method ScanUp(values: array<U32>, start: int, pivot: U32, ghost stop: int) returns (i: int)
    requires 0 <= start <= stop < values.Length && pivot <= values[stop]
    ensures start <= i <= stop && pivot <= values[i]
    ensures forall k :: start <= k < i ==> values[k] < pivot
  {
    i := start;
    while values[i] < pivot
      invariant start <= i <= stop
      invariant forall k :: start <= k < i ==> values[k] < pivot
      decreases stop - i
    {
      i := i + 1;
    }
  }

  /** The scan of lines 95-98: from start, step left past every value above
      the pivot. A position stop holding at most the pivot bounds the scan. */
  method ScanDown(values: array<U32>, start: int, pivot: U32, ghost stop: int) returns (j: int)
    requires 0 <= stop <= start < values.Length && values[stop] <= pivot
    ensures stop <= j <= start && values[j] <= pivot
    ensures forall k :: j < k <= start ==> pivot < values[k]
  {
    j := start;
    while values[j] > pivot
      invariant stop <= j <= start
      invariant forall k :: j < k <= start ==> pivot < values[k]
      decreases j - stop
    {
      j := j - 1;
    }
  }

  /** The partition loop of lines 86-104: Hoare's scheme around the value in
      the middle of the range. It returns the final j and the pivot. */
  method Partition(values: array<U32>, boxes: array<Box>, left: int, right: int)
    returns (j: int, pivot: U32)
    requires 0 <= left < right < values.Length && right < boxes.Length
    modifies values, boxes
    ensures left <= j < right
    ensures pivot == old(values[(left + right) / 2])
    ensures forall k :: left <= k <= j ==> values[k] <= pivot
    ensures forall k :: j < k <= right ==> pivot <= values[k]
    ensures Rearranged(values[..], boxes[..], old(values[..]), old(boxes[..]), left, right + 1)
  {
    // (left + right) >> 1 in the source; the sum is not negative here.
    var mid := (left + right) / 2;
    pivot := values[mid];
    var i := left - 1;
    j := right + 1;
    ghost var v0, b0 := values[..], boxes[..];
    // The exchanges made so far.
    ghost var log: seq<(int, int)> := [];
    // The next scans cannot run past these: values[stopI] >= pivot >= values[stopJ].
    ghost var stopI, stopJ := mid, mid;
    while true
      invariant left - 1 <= i < stopI <= right && left <= stopJ < j <= right + 1
      invariant pivot <= values[stopI] && values[stopJ] <= pivot
      invariant stopI < right || j <= right
      invariant forall k :: left <= k <= i ==> values[k] <= pivot
      invariant forall k :: j <= k <= right ==> pivot <= values[k]
      invariant Within(log, left, right + 1)
      invariant values[..] == Replay(v0, log) && boxes[..] == Replay(b0, log)
      decreases j - i
    {
      i := ScanUp(values, i + 1, pivot, stopI);
      j := ScanDown(values, j - 1, pivot, stopJ);
      if i >= j {
        break;
      }
      log := SwapPairs(values, boxes, i, j, pivot, left, right, v0, b0, log);
      stopI, stopJ := j, i;
    }
    assert Within(log, left, right + 1) && values[..] == Replay(v0, log) && boxes[..] == Replay(b0, log);
  }

  /** sortValuesAndBoxes: sorts values[left..right] (both ends included) and
      moves each box with its value; a range of fewer than two positions is
      left alone. */
  method SortValuesAndBoxes(values: array<U32>, boxes: array<Box>, left: int, right: int)
    requires left < right ==> 0 <= left && right < values.Length && right < boxes.Length
    modifies values, boxes
    ensures left >= right ==> values[..] == old(values[..]) && boxes[..] == old(boxes[..])
    ensures left < right ==> SortedBetween(values[..], left, right + 1)
    ensures left < right ==>
              Rearranged(values[..], boxes[..], old(values[..]), old(boxes[..]), left, right + 1)
    decreases right - left
  {
    if left >= right {
      return;
    }
    var j, pivot := Partition(values, boxes, left, right);
    ghost var v1, b1 := values[..], boxes[..];
    SortValuesAndBoxes(values, boxes, left, j);
    ghost var v2, b2 := values[..], boxes[..];
    SortValuesAndBoxes(values, boxes, j + 1, right);
    CombineRecursion(old(values[..]), old(boxes[..]), v1, b1, v2, b2, values[..], boxes[..],
                     left, j, right, pivot);
  }
}
