/**
 Cilksort (benchmarks/cilksort/cilksort-lace.c): quicksort with a Hoare partition and
 insertion sort for small parts, a two-speed merge, and a parallel merge by binary
 splitting. Pointers into an array are indices; ranges are inclusive as in the source.
 */
module Cilksort {
  import opened SortSpec

  const MERGESIZE: nat := 2048
  const QUICKSIZE: nat := 2048
  const INSERTIONSIZE: nat := 20

  /** The median: two of the three values are not above it and two are not below it. */
  function Med3(a: int, b: int, c: int): (m: int)
    ensures m == a || m == b || m == c
    ensures (a <= m && b <= m) || (a <= m && c <= m) || (b <= m && c <= m)
    ensures (m <= a && m <= b) || (m <= a && m <= c) || (m <= b && m <= c)
  {
    if a < b then
      if b < c then b else if a < c then c else a
    else
      if b > c then b else if a > c then c else a
  }

  /** The pivot has an element on either side of it (or equal to it) below the last index. */
  method ChoosePivot(a: array<int>, low: nat, high: nat) returns (pivot: int)
    requires low < high < a.Length
    ensures exists k :: low <= k < high && pivot <= a[k]
    ensures exists k :: low <= k < high && a[k] <= pivot
  {
    var mid := low + (high - low) / 2;
    pivot := Med3(a[low], a[high], a[mid]);
    assert pivot <= a[low] || pivot <= a[mid];
    assert a[low] <= pivot || a[mid] <= pivot;
  }

  /** The partition under way: what lies outside [currLow, currHigh] is on its side of the
      pivot, and stopLow and stopHigh are where the two scans stop at the latest. */
  ghost predicate Parting(s: seq<int>, low: nat, high: nat, pivot: int, currLow: nat, currHigh: nat,
                          stopLow: nat, stopHigh: nat)
  {
    && low <= currLow <= currHigh + 1 && currHigh <= high < |s|
    && currLow <= stopLow <= high && pivot <= s[stopLow]
    && low <= stopHigh <= currHigh && s[stopHigh] <= pivot
    && (currHigh < high || (currLow == low && stopLow < high))
    && (forall k :: low <= k < currLow ==> s[k] <= pivot)
    && (forall k :: currHigh < k <= high ==> pivot <= s[k])
  }

  /** Where the scans have stopped. */
  ghost predicate Stopped(s: seq<int>, pivot: int, currLow: nat, currHigh: nat, stopLow: nat, stopHigh: nat, l: nat, h: nat) {
    && stopHigh <= h <= currHigh < |s| && currLow <= l <= stopLow < |s| && s[h] <= pivot <= s[l]
    && (forall i :: h < i <= currHigh ==> pivot < s[i])
    && (forall i :: currLow <= i < l ==> s[i] < pivot)
  }

  lemma PartingStart(s: seq<int>, low: nat, high: nat, pivot: int, stopLow: nat, stopHigh: nat)
    requires low <= stopLow < high < |s| && low <= stopHigh < high && s[stopHigh] <= pivot <= s[stopLow]
    ensures Parting(s, low, high, pivot, low, high, stopLow, stopHigh)
  {
  }

  lemma PartingBounds(s: seq<int>, low: nat, high: nat, pivot: int, currLow: nat, currHigh: nat,
                      stopLow: nat, stopHigh: nat)
    requires Parting(s, low, high, pivot, currLow, currHigh, stopLow, stopHigh)
    ensures low <= currLow <= stopLow <= high < |s| && low <= stopHigh <= currHigh <= high
    ensures s[stopHigh] <= pivot <= s[stopLow]
  {
  }

  lemma PartingStep(s: seq<int>, low: nat, high: nat, pivot: int, currLow: nat, currHigh: nat,
                    stopLow: nat, stopHigh: nat, l: nat, h: nat)
    requires Parting(s, low, high, pivot, currLow, currHigh, stopLow, stopHigh)
    requires Stopped(s, pivot, currLow, currHigh, stopLow, stopHigh, l, h) && l < h
    ensures Parting(s[l := s[h]][h := s[l]], low, high, pivot, l + 1, h - 1, h, l)
  {
  }

  lemma PartingEnd(s: seq<int>, low: nat, high: nat, pivot: int, currLow: nat, currHigh: nat,
                   stopLow: nat, stopHigh: nat, l: nat, h: nat)
    requires Parting(s, low, high, pivot, currLow, currHigh, stopLow, stopHigh)
    requires Stopped(s, pivot, currLow, currHigh, stopLow, stopHigh, l, h) && l >= h
    ensures low <= h < high && Below(s[low..h + 1], s[h + 1..high + 1])
  {
    assert forall k :: low <= k <= h ==> s[k] <= pivot;
    assert forall k :: h < k <= high ==> pivot <= s[k];
  }

  /** The scans: nothing checks their bounds, but each of them meets a value that stops it. */
  method Scan(a: array<int>, pivot: int, currLow: nat, currHigh: nat, ghost stopLow: nat, ghost stopHigh: nat)
    returns (l: nat, h: nat)
    requires stopHigh <= currHigh < a.Length && a[stopHigh] <= pivot
    requires currLow <= stopLow < a.Length && pivot <= a[stopLow]
    ensures currLow <= l <= stopLow && stopHigh <= h <= currHigh
    ensures Stopped(a[..], pivot, currLow, currHigh, stopLow, stopHigh, l, h)
  {
    h := currHigh;
    while a[h] > pivot
      invariant stopHigh <= h <= currHigh
      invariant forall i :: h < i <= currHigh ==> pivot < a[i]
      decreases h
    {
      h := h - 1;
    }
    l := currLow;
    while a[l] < pivot
      invariant currLow <= l <= stopLow
      invariant forall i :: currLow <= i < l ==> a[i] < pivot
      decreases stopLow - l
    {
      l := l + 1;
    }
  }

  /** seqpart: the scans stay inside the range, both parts are non-empty, nothing in the
      first is above anything in the second, and the branch for a trivial partition is
      never taken. */
  method SeqPart(a: array<int>, low: nat, high: nat) returns (p: int, ghost trivial: bool)
    requires low < high < a.Length
    modifies a
    ensures low <= p < high && !trivial
    ensures Bag(a[..], low, high + 1) == old(Bag(a[..], low, high + 1))
    ensures Below(a[low..p + 1], a[p + 1..high + 1])
  {
    hide Parting, Stopped, Bag, Below;
    var pivot := ChoosePivot(a, low, high);
    var currLow: nat, currHigh: nat := low, high;
    ghost var stopLow: nat :| low <= stopLow < high && pivot <= a[stopLow];
    ghost var stopHigh: nat :| low <= stopHigh < high && a[stopHigh] <= pivot;
    PartingStart(a[..], low, high, pivot, stopLow, stopHigh);
    var l: nat, h: nat := low, high;
    while true
      invariant Parting(a[..], low, high, pivot, currLow, currHigh, stopLow, stopHigh)
      invariant Bag(a[..], low, high + 1) == old(Bag(a[..], low, high + 1))
      decreases currHigh - currLow + 1
    {
      PartingBounds(a[..], low, high, pivot, currLow, currHigh, stopLow, stopHigh);
      l, h := Scan(a, pivot, currLow, currHigh, stopLow, stopHigh);
      if l >= h {
        break;
      }
      ghost var s := a[..];
      PartingStep(s, low, high, pivot, currLow, currHigh, stopLow, stopHigh, l, h);
      BagSwap(s, low, high + 1, l, h);
      a[l], a[h] := a[h], a[l];
      assert a[..] == s[l := s[h]][h := s[l]];
      stopLow, stopHigh := h, l;
      currLow, currHigh := l + 1, h - 1;
    }
    PartingEnd(a[..], low, high, pivot, currLow, currHigh, stopLow, stopHigh, l, h);
    trivial := h >= high;
    if h < high {
      p := h;
    } else {
      p := h - 1;
    }
  }

  /** insertion_sort: sorts [low, high], which may be empty. */
  method InsertionSort(a: array<int>, low: nat, high: int)
    requires low <= high + 1 <= a.Length
    modifies a
    ensures Bag(a[..], low, high + 1) == old(Bag(a[..], low, high + 1))
    ensures Sorted(a[low..high + 1])
  {
    var q := low + 1;
    while q <= high
      invariant low < q
      invariant q <= high + 1 || high + 1 <= low + 1
      invariant Bag(a[..], low, high + 1) == old(Bag(a[..], low, high + 1))
      invariant q <= high + 1 ==> Sorted(a[low..q])
    {
      Insert(a, low, q, high);
      q := q + 1;
    }
  }

  lemma SortedBelow(s: seq<int>, low: nat, q: nat, p: int)
    requires low <= q < |s| && low - 1 <= p < q && Sorted(s[low..q])
    ensures forall k :: low <= k <= p ==> s[k] <= s[p]
  {
    assert forall k :: low <= k < q ==> s[k] == s[low..q][k - low];
  }

  lemma Inserted(s: seq<int>, t: seq<int>, low: nat, q: nat, p: nat)
    requires low <= p <= q < |s| == |t| && Sorted(s[low..q])
    requires forall k :: low <= k < p ==> t[k] == s[k] && s[k] <= t[p]
    requires forall k :: p < k <= q ==> t[k] == s[k - 1] && t[p] < t[k]
    ensures Sorted(t[low..q + 1])
  {
    assert forall k :: low <= k < q ==> s[k] == s[low..q][k - low];
    forall i, j | low <= i < j <= q ensures t[i] <= t[j] {
    }
  }

  /** One round of insertion_sort: a[q] moves down to its place in the sorted part. */
  method Insert(a: array<int>, low: nat, q: nat, ghost high: nat)
    requires low < q <= high < a.Length && Sorted(a[low..q])
    modifies a
    ensures Bag(a[..], low, high + 1) == old(Bag(a[..], low, high + 1))
    ensures Sorted(a[low..q + 1])
  {
    hide Bag, Sorted;
    var x := a[q];
    var p: int := q - 1;
    ghost var s := a[..];
    assert a[..][p + 1 := x] == s;
    while p >= low && a[p] > x
      invariant low - 1 <= p < q
      invariant Bag(a[..][p + 1 := x], low, high + 1) == Bag(s, low, high + 1)
      invariant forall k :: low <= k <= p ==> a[k] == s[k]
      invariant forall k :: p + 1 < k <= q ==> a[k] == s[k - 1] && a[k] > x
    {
      ghost var t := a[..][p + 1 := x];
      BagSwap(t, low, high + 1, p, p + 1);
      a[p + 1] := a[p];
      assert a[..][p := x] == t[p := t[p + 1]][p + 1 := t[p]];
      p := p - 1;
    }
    SortedBelow(s, low, q, p);
    a[p + 1] := x;
    assert a[..] == a[..][p + 1 := x];
    Inserted(s, a[..], low, q, p + 1);
  }

  lemma SubSlice(s: seq<int>, lo: nat, hi: nat, from: nat, to: nat)
    requires lo <= from <= to <= hi <= |s|
    ensures s[from..to] == s[lo..hi][from - lo..to - lo]
  {
    var u := s[lo..hi];
    forall k | 0 <= k < to - from ensures s[from..to][k] == u[from - lo..to - lo][k] {
      assert u[from - lo..to - lo][k] == u[from - lo + k];
    }
  }

  /** Rearranging [lo, hi) leaves what is around it. */
  lemma BagAround(s: seq<int>, t: seq<int>, lo: nat, hi: nat, from: nat, to: nat)
    requires lo <= hi <= |s| == |t| && Bag(s, lo, hi) == Bag(t, lo, hi)
    requires from <= to <= lo || hi <= from <= to <= |s|
    ensures s[from..to] == t[from..to]
  {
    if from <= to <= lo {
      assert s[..lo] == s[0..lo] && t[..lo] == t[0..lo];
      SubSlice(s, 0, lo, from, to);
      SubSlice(t, 0, lo, from, to);
    } else {
      assert s[hi..] == s[hi..|s|] && t[hi..] == t[hi..|s|];
      SubSlice(s, hi, |s|, from, to);
      SubSlice(t, hi, |s|, from, to);
    }
  }

  lemma BagSoFar(s: seq<int>, t: seq<int>, u: seq<int>, first: nat, low: nat, p: nat, end: nat)
    requires first <= low <= p <= end <= |s| == |t| == |u|
    requires Bag(s, low, end) == Bag(t, low, end) && Bag(t, low, p) == Bag(u, low, p)
    ensures Bag(u, low, end) == Bag(s, low, end) && Bag(u, first, end) == Bag(s, first, end)
  {
    hide Bag;
    BagWiden(t, u, low, p, low, end);
    BagWiden(s, u, low, end, first, end);
  }

  /** A part above everything sorted so far was rearranged and its lower end sorted. */
  lemma SortedSoFar(s: seq<int>, t: seq<int>, u: seq<int>, first: nat, low: nat, p: nat, end: nat)
    requires first <= low <= p <= end <= |s| == |t| == |u|
    requires Sorted(s[first..low]) && Below(s[first..low], s[low..end]) && Bag(s, low, end) == Bag(t, low, end)
    requires Below(t[low..p], t[p..end]) && Bag(t, low, p) == Bag(u, low, p) && Sorted(u[low..p])
    ensures Sorted(u[first..p]) && Below(u[first..p], u[p..end])
    ensures Bag(u, first, end) == Bag(s, first, end)
  {
    hide Bag, Sorted, Below;
    BagSoFar(s, t, u, first, low, p, end);
    BagElements(t, u, low, p);
    BagElements(s, u, low, end);
    BagAround(s, u, low, end, first, low);
    BagAround(t, u, low, p, p, end);
    BelowRearranged(t[low..p], t[p..end], u[low..p], u[p..end]);
    BelowRearranged(s[first..low], s[low..end], u[first..low], u[low..end]);
    Halves(u, first, low, p);
    Halves(u, low, p, end);
    JoinSorted(u[first..low], u[low..p], u[p..end]);
  }

  lemma Halves(s: seq<int>, i: nat, j: nat, k: nat)
    requires i <= j <= k <= |s|
    ensures s[i..k] == s[i..j] + s[j..k]
  {
  }

  lemma BagElements(s: seq<int>, t: seq<int>, lo: nat, hi: nat)
    requires lo <= hi <= |s| == |t| && Bag(s, lo, hi) == Bag(t, lo, hi)
    ensures multiset(s[lo..hi]) == multiset(t[lo..hi])
  {
  }

  lemma JoinSorted(x: seq<int>, y: seq<int>, z: seq<int>)
    requires Sorted(x) && Sorted(y) && Below(x, y + z) && Below(y, z)
    ensures Sorted(x + y) && Below(x + y, z)
  {
    assert forall k :: 0 <= k < |y| ==> y[k] == (y + z)[k];
    assert forall k :: 0 <= k < |z| ==> z[k] == (y + z)[|y| + k];
  }

  lemma NothingSorted(s: seq<int>, first: nat, end: nat)
    requires first <= end <= |s|
    ensures Sorted(s[first..first]) && Below(s[first..first], s[first..end])
  {
  }

  lemma NothingAbove(s: seq<int>, low: nat, end: nat)
    requires low <= end <= |s|
    ensures Below(s[low..end], s[end..end])
  {
  }

  /** seqquick: sorts [first, high], which may be empty. */
  method SeqQuick(a: array<int>, first: nat, high: int)
    requires first <= high + 1 <= a.Length
    modifies a
    ensures Bag(a[..], first, high + 1) == old(Bag(a[..], first, high + 1))
    ensures Sorted(a[first..high + 1])
    decreases high - first + 1
  {
    hide Bag, Sorted, Below;
    var low := first;
    NothingSorted(a[..], first, high + 1);
    while high - low >= INSERTIONSIZE
      invariant first <= low <= high + 1
      invariant Bag(a[..], first, high + 1) == old(Bag(a[..], first, high + 1))
      invariant Sorted(a[first..low]) && Below(a[first..low], a[low..high + 1])
      decreases high - low
    {
      ghost var s := a[..];
      var p, _ := SeqPart(a, low, high);
      ghost var t := a[..];
      SeqQuick(a, low, p);
      SortedSoFar(s, t, a[..], first, low, p + 1, high + 1);
      low := p + 1;
    }
    ghost var s := a[..];
    InsertionSort(a, low, high);
    NothingAbove(s, low, high + 1);
    SortedSoFar(s, s, a[..], first, low, high + 1, high + 1);
  }

  // ---------------------------------------------------------------- merging

  lemma MergeFirst(s: seq<int>, t: seq<int>, out: seq<int>, all: seq<int>)
    requires s != [] && t != [] && out + Merge(s, t) == all
    ensures s[0] < t[0] ==> (out + [s[0]]) + Merge(s[1..], t) == all
    ensures s[0] >= t[0] ==> (out + [t[0]]) + Merge(s, t[1..]) == all
  {
    if s[0] < t[0] {
      assert out + ([s[0]] + Merge(s[1..], t)) == (out + [s[0]]) + Merge(s[1..], t);
    } else {
      assert out + ([t[0]] + Merge(s, t[1..])) == (out + [t[0]]) + Merge(s, t[1..]);
    }
  }

  /** What is left of a range once its first element is taken. */
  lemma RangeTail(s: seq<int>, i: nat, j: nat)
    requires i < j <= |s|
    ensures s[i..j] != [] && s[i..j][0] == s[i] && s[i..j][1..] == s[i + 1..j]
  {
  }

  /** The merge under way: out is written, the rest of both ranges is still to come. */
  ghost predicate Merging(src: seq<int>, low1: nat, end1: nat, low2: nat, end2: nat, out: seq<int>, all: seq<int>) {
    low1 <= end1 <= |src| && low2 <= end2 <= |src| && out + Merge(src[low1..end1], src[low2..end2]) == all
  }

  lemma TakeFirst(src: seq<int>, low1: nat, end1: nat, low2: nat, end2: nat, out: seq<int>, all: seq<int>)
    requires Merging(src, low1, end1, low2, end2, out, all) && low1 < end1
    requires low2 < end2 && src[low1] < src[low2]
    ensures Merging(src, low1 + 1, end1, low2, end2, out + [src[low1]], all)
  {
    hide Merge;
    RangeTail(src, low1, end1);
    RangeTail(src, low2, end2);
    MergeFirst(src[low1..end1], src[low2..end2], out, all);
  }

  lemma TakeSecond(src: seq<int>, low1: nat, end1: nat, low2: nat, end2: nat, out: seq<int>, all: seq<int>)
    requires Merging(src, low1, end1, low2, end2, out, all) && low1 < end1
    requires low2 < end2 && src[low1] >= src[low2]
    ensures Merging(src, low1, end1, low2 + 1, end2, out + [src[low2]], all)
  {
    hide Merge;
    RangeTail(src, low1, end1);
    RangeTail(src, low2, end2);
    MergeFirst(src[low1..end1], src[low2..end2], out, all);
  }

  lemma MergingEnd(src: seq<int>, low1: nat, end1: nat, low2: nat, end2: nat, out: seq<int>, all: seq<int>)
    requires Merging(src, low1, end1, low2, end2, out, all) && (low1 == end1 || low2 == end2)
    ensures low1 == end1 ==> out + src[low2..end2] == all
    ensures low2 == end2 ==> out + src[low1..end1] == all
  {
  }

  /** The destination with out written at d, and nothing else changed. */
  function Written(was: seq<int>, d: nat, out: seq<int>): (now: seq<int>)
    ensures |now| == |was|
  {
    if d + |out| <= |was| then was[..d] + out + was[d + |out|..] else was
  }

  lemma WriteNext(was: seq<int>, d: nat, out: seq<int>, x: int)
    requires d + |out| < |was|
    ensures Written(was, d, out)[d + |out| := x] == Written(was, d, out + [x])
  {
  }

  /** memcpy of src[from..from + n] to dest[d..]. */
  method Copy(src: array<int>, from: nat, n: nat, dest: array<int>, d: nat, ghost lowdest: nat,
              ghost was: seq<int>, ghost out: seq<int>)
    requires src != dest && from + n <= src.Length && d == lowdest + |out| && d + n <= dest.Length
    requires dest[..] == Written(was, lowdest, out)
    modifies dest
    ensures dest[..] == Written(was, lowdest, out + src[from..from + n])
  {
    assert out + src[from..from] == out;
    hide Written;
    for k := 0 to n
      invariant dest[..] == Written(was, lowdest, out + src[from..from + k])
    {
      WriteNext(was, lowdest, out + src[from..from + k], src[from + k]);
      dest[d + k] := src[from + k];
      assert out + src[from..from + k] + [src[from + k]] == out + src[from..from + k + 1];
    }
  }

  lemma MergeStart(was: seq<int>, s: seq<int>, low1: nat, end1: nat, low2: nat, end2: nat, lowdest: nat)
    requires low1 <= end1 <= |s| && low2 <= end2 <= |s| && lowdest <= |was|
    ensures Merging(s, low1, end1, low2, end2, [], Merge(s[low1..end1], s[low2..end2])) && was == Written(was, lowdest, [])
  {
    hide Merge;
    assert [] + Merge(s[low1..end1], s[low2..end2]) == Merge(s[low1..end1], s[low2..end2]);
  }

  /** The first loop of seqmerge, which reads ahead of its check and stops before the last
      element of a range. */
  method FastMerge(src: array<int>, from1: nat, high1: int, from2: nat, high2: int, dest: array<int>, from: nat,
                   ghost lowdest: nat, ghost was: seq<int>, ghost before: seq<int>, ghost all: seq<int>)
    returns (low1: nat, low2: nat, d: nat, ghost out: seq<int>)
    requires src != dest && from1 <= high1 + 1 <= src.Length && from2 <= high2 + 1 <= src.Length
    requires from == lowdest + |before| && |was| == dest.Length && lowdest + |all| <= dest.Length
    requires |before| + (high1 + 1 - from1) + (high2 + 1 - from2) == |all|
    requires dest[..] == Written(was, lowdest, before)
    requires Merging(src[..], from1, high1 + 1, from2, high2 + 1, before, all)
    modifies dest
    ensures from1 <= low1 <= high1 + 1 && from2 <= low2 <= high2 + 1
    ensures d == lowdest + |out| && |out| + (high1 + 1 - low1) + (high2 + 1 - low2) == |all|
    ensures dest[..] == Written(was, lowdest, out)
    ensures Merging(src[..], low1, high1 + 1, low2, high2 + 1, out, all)
  {
    hide Merge, Written, Merging;
    ghost var s := src[..];
    low1, low2, d, out := from1, from2, from, before;
    if low1 < high1 && low2 < high2 {
      var a1, a2 := src[low1], src[low2];
      while true
        invariant from1 <= low1 < high1 && from2 <= low2 < high2 && a1 == src[low1] && a2 == src[low2]
        invariant d == lowdest + |out| && |out| + (high1 + 1 - low1) + (high2 + 1 - low2) == |all|
        invariant dest[..] == Written(was, lowdest, out) && Merging(s, low1, high1 + 1, low2, high2 + 1, out, all)
        decreases high1 - low1 + high2 - low2
      {
        WriteNext(was, lowdest, out, if a1 < a2 then a1 else a2);
        if a1 < a2 {
          TakeFirst(s, low1, high1 + 1, low2, high2 + 1, out, all);
          out := out + [a1];
          dest[d] := a1;
          d := d + 1;
          low1 := low1 + 1;
          a1 := src[low1];
          if low1 >= high1 {
            break;
          }
        } else {
          TakeSecond(s, low1, high1 + 1, low2, high2 + 1, out, all);
          out := out + [a2];
          dest[d] := a2;
          d := d + 1;
          low2 := low2 + 1;
          a2 := src[low2];
          if low2 >= high2 {
            break;
          }
        }
      }
    }
  }

  /** The second loop of seqmerge, which checks before every read. */
  method SlowMerge(src: array<int>, from1: nat, high1: int, from2: nat, high2: int, dest: array<int>, from: nat,
                   ghost lowdest: nat, ghost was: seq<int>, ghost before: seq<int>, ghost all: seq<int>)
    returns (low1: nat, low2: nat, d: nat, ghost out: seq<int>)
    requires src != dest && from1 <= high1 + 1 <= src.Length && from2 <= high2 + 1 <= src.Length
    requires from == lowdest + |before| && |was| == dest.Length && lowdest + |all| <= dest.Length
    requires |before| + (high1 + 1 - from1) + (high2 + 1 - from2) == |all|
    requires dest[..] == Written(was, lowdest, before)
    requires Merging(src[..], from1, high1 + 1, from2, high2 + 1, before, all)
    modifies dest
    ensures from1 <= low1 <= high1 + 1 && from2 <= low2 <= high2 + 1 && (low1 == high1 + 1 || low2 == high2 + 1)
    ensures d == lowdest + |out| && |out| + (high1 + 1 - low1) + (high2 + 1 - low2) == |all|
    ensures dest[..] == Written(was, lowdest, out)
    ensures Merging(src[..], low1, high1 + 1, low2, high2 + 1, out, all)
  {
    hide Merge, Written, Merging;
    ghost var s := src[..];
    low1, low2, d, out := from1, from2, from, before;
    if low1 <= high1 && low2 <= high2 {
      var a1, a2 := src[low1], src[low2];
      while true
        invariant from1 <= low1 <= high1 && from2 <= low2 <= high2 && a1 == src[low1] && a2 == src[low2]
        invariant d == lowdest + |out| && |out| + (high1 + 1 - low1) + (high2 + 1 - low2) == |all|
        invariant dest[..] == Written(was, lowdest, out) && Merging(s, low1, high1 + 1, low2, high2 + 1, out, all)
        decreases high1 - low1 + high2 - low2
      {
        WriteNext(was, lowdest, out, if a1 < a2 then a1 else a2);
        if a1 < a2 {
          TakeFirst(s, low1, high1 + 1, low2, high2 + 1, out, all);
          out := out + [a1];
          dest[d] := a1;
          d := d + 1;
          low1 := low1 + 1;
          if low1 > high1 {
            break;
          }
          a1 := src[low1];
        } else {
          TakeSecond(s, low1, high1 + 1, low2, high2 + 1, out, all);
          out := out + [a2];
          dest[d] := a2;
          d := d + 1;
          low2 := low2 + 1;
          if low2 > high2 {
            break;
          }
          a2 := src[low2];
        }
      }
    }
  }

  /** seqmerge writes the merge of the two ranges, and nothing else. */
  method SeqMerge(src: array<int>, from1: nat, high1: int, from2: nat, high2: int, dest: array<int>, lowdest: nat)
    requires src != dest && from1 <= high1 + 1 <= src.Length && from2 <= high2 + 1 <= src.Length
    requires lowdest + (high1 + 1 - from1) + (high2 + 1 - from2) <= dest.Length
    modifies dest
    ensures dest[..] == Written(old(dest[..]), lowdest, Merge(src[from1..high1 + 1], src[from2..high2 + 1]))
  {
    hide Merge, Written, Merging;
    ghost var was, all := dest[..], Merge(src[from1..high1 + 1], src[from2..high2 + 1]);
    MergeStart(was, src[..], from1, high1 + 1, from2, high2 + 1, lowdest);
    var low1, low2, d, out := FastMerge(src, from1, high1, from2, high2, dest, lowdest, lowdest, was, [], all);
    low1, low2, d, out := SlowMerge(src, low1, high1, low2, high2, dest, d, lowdest, was, out, all);
    MergingEnd(src[..], low1, high1 + 1, low2, high2 + 1, out, all);
    if low1 > high1 {
      Copy(src, low2, high2 - low2 + 1, dest, d, lowdest, was, out);
    } else {
      Copy(src, low1, high1 - low1 + 1, dest, d, lowdest, was, out);
    }
  }

  lemma RangeOrder(s: seq<int>, low: nat, end: nat, i: nat, j: nat)
    requires low <= i <= j < end <= |s| && Sorted(s[low..end])
    ensures s[i] <= s[j]
  {
    assert s[i] == s[low..end][i - low] && s[j] == s[low..end][j - low];
  }

  /** Some element of the range equals val, and the first one is below it. */
  ghost predicate EqualBehind(s: seq<int>, val: int, first: nat, last: nat)
    requires first <= last < |s|
  {
    s[first] < val && exists k :: first <= k <= last && s[k] == val
  }

  /** The element at index i is the greatest of the range that is not above val. */
  ghost predicate GreatestUpTo(s: seq<int>, val: int, first: nat, last: nat, i: nat)
    requires first <= i <= last < |s|
  {
    s[i] <= val && forall k :: first <= k <= last && s[k] <= val ==> s[k] <= s[i]
  }

  /** binsplit: up to the result nothing is above val, behind it nothing is below val. The
      result is before the range exactly when val is below it; else it is the index of the
      greatest element not above val, if and only if no element equals val or the first does. */
  method BinSplit(a: array<int>, val: int, first: nat, last: nat) returns (split: int)
    requires first <= last < a.Length && Sorted(a[first..last + 1])
    ensures first - 1 <= split <= last
    ensures forall k :: first <= k <= split ==> a[k] <= val
    ensures forall k :: split < k <= last ==> val <= a[k]
    ensures split < first <==> val < a[first]
    ensures split >= first ==> (GreatestUpTo(a[..], val, first, last, split) <==> !EqualBehind(a[..], val, first, last))
  {
    hide Sorted;
    forall k, j | first <= k <= j <= last ensures a[k] <= a[j] {
      RangeOrder(a[..], first, last + 1, k, j);
    }
    var low, high := first, last;
    while low != high
      invariant first <= low <= high <= last
      invariant forall k :: first <= k < low ==> a[k] <= val
      invariant low == first || a[low] < val
      invariant forall k :: high < k <= last ==> val <= a[k]
      decreases high - low
    {
      var mid := low + (high - low + 1) / 2;
      if val <= a[mid] {
        high := mid - 1;
      } else {
        low := mid;
      }
    }
    if a[low] > val {
      split := low - 1;
    } else {
      split := low;
    }
  }

  /** binsplit on 0, 1 with val 1: it stops at the 0, although the 1 is not above val. */
  method BinSplitMisses() returns (a: array<int>, split: int)
    ensures fresh(a) && a[..] == [0, 1] && split == 0
    ensures !GreatestUpTo(a[..], 1, 0, 1, split)
  {
    a := new int[2];
    a[0], a[1] := 0, 1;
    split := BinSplit(a, 1, 0, 1);
    assert a[..][1] == 1;
    assert EqualBehind(a[..], 1, 0, 1);
  }

  lemma WriteJoin(was: seq<int>, d: nat, x: seq<int>, y: seq<int>)
    requires d + |x| + |y| <= |was|
    ensures Written(Written(was, d, x), d + |x|, y) == Written(was, d, x + y)
    ensures Written(Written(was, d + |x|, y), d, x) == Written(was, d, x + y)
  {
    var m, n := Written(was, d, x), Written(was, d + |x|, y);
    assert m[..d + |x|] == was[..d] + x && m[d + |x| + |y|..] == was[d + |x| + |y|..];
    assert n[..d] == was[..d] && n[d + |x|..] == y + was[d + |x| + |y|..];
  }

  lemma SliceSorted(s: seq<int>, low: nat, end: nat, low': nat, end': nat)
    requires low <= low' <= end' <= end <= |s| && Sorted(s[low..end])
    ensures Sorted(s[low'..end'])
  {
    SubSlice(s, low, end, low', end');
  }

  /** The two halves around the middle element of the first range, as one merge. */
  lemma SplitMerge(s: seq<int>, low1: nat, end1: nat, low2: nat, end2: nat, split1: nat, split2: nat)
    requires low1 <= split1 < end1 <= |s| && low2 <= split2 <= end2 <= |s|
    requires Sorted(s[low1..end1]) && Sorted(s[low2..end2])
    requires forall k :: low2 <= k < split2 ==> s[k] <= s[split1]
    requires forall k :: split2 <= k < end2 ==> s[split1] <= s[k]
    ensures Merge(s[low1..end1], s[low2..end2])
         == Merge(s[low1..split1], s[low2..split2]) + [s[split1]] + Merge(s[split1 + 1..end1], s[split2..end2])
  {
    var x := s[split1];
    assert Below(s[low2..split2], [x]) && Below([x], s[split2..end2]);
    hide Sorted, Below, Merge;
    assert s[low1..end1] == s[low1..split1] + [x] + s[split1 + 1..end1];
    Halves(s, low2, split2, end2);
    MergeAround(s[low1..split1], x, s[split1 + 1..end1], s[low2..split2], s[split2..end2]);
  }

  /** The ranges a merge reads and the room it needs. */
  predicate Ranges(src: array<int>, low1: nat, high1: int, low2: nat, high2: int, dest: array<int>, lowdest: nat) {
    && src != dest && low1 <= high1 + 1 <= src.Length && low2 <= high2 + 1 <= src.Length
    && lowdest + (high1 + 1 - low1) + (high2 + 1 - low2) <= dest.Length
  }

  /** When cilkmerge, after its swap, finds the first range empty: exactly when both ranges
      are, and then the length it would copy is negative. */
  lemma EmptyBranch(low1: nat, high1: int, low2: nat, high2: int)
    requires low1 <= high1 + 1 && low2 <= high2 + 1
    ensures var swap := high2 - low2 > high1 - low1;
            var (l1, h1, l2, h2) := if swap then (low2, high2, low1, high1) else (low1, high1, low2, high2);
            && (h1 < l1 <==> high1 < low1 && high2 < low2)
            && (h1 < l1 ==> h2 - l2 < 0)
  {
  }

  /** cilkmerge. Its branch for an empty first range copies a negative number of elements;
      it is reached only when both ranges are empty, which no call does. The two spawned
      merges run in either order. */
  method CilkMerge(src: array<int>, from1: nat, last1: int, from2: nat, last2: int, dest: array<int>, lowdest: nat)
    requires Ranges(src, from1, last1, from2, last2, dest, lowdest)
    requires from1 <= last1 || from2 <= last2
    requires Sorted(src[from1..last1 + 1]) && Sorted(src[from2..last2 + 1])
    modifies dest
    ensures dest[..] == Written(old(dest[..]), lowdest, Merge(src[from1..last1 + 1], src[from2..last2 + 1]))
    decreases last1 - from1 + last2 - from2 + 2, 2
  {
    hide Sorted, Written, Merge;
    var low1, high1, low2, high2 := from1, last1, from2, last2;
    if high2 - low2 > high1 - low1 {
      MergeCommutes(src[from1..last1 + 1], src[from2..last2 + 1]);
      low1, low2 := low2, low1;
      high1, high2 := high2, high1;
    }
    if high1 < low1 {
      assert false;
    } else if high2 - low2 < MERGESIZE {
      SeqMerge(src, low1, high1, low2, high2, dest, lowdest);
    } else {
      MergeHalves(src, low1, high1, low2, high2, dest, lowdest);
    }
  }

  /** Two spawned merges into disjoint parts of the destination: their order does not matter. */
  method SpawnBoth(src: array<int>, low1: nat, high1: int, low2: nat, high2: int, d: nat,
                   low3: nat, high3: int, low4: nat, high4: int, e: nat, dest: array<int>,
                   ghost lower: seq<int>, ghost upper: seq<int>, ghost size: nat)
    requires Ranges(src, low1, high1, low2, high2, dest, d) && low1 <= high1
    requires Ranges(src, low3, high3, low4, high4, dest, e) && low3 <= high3
    requires Sorted(src[low1..high1 + 1]) && Sorted(src[low2..high2 + 1])
    requires Sorted(src[low3..high3 + 1]) && Sorted(src[low4..high4 + 1])
    requires lower == Merge(src[low1..high1 + 1], src[low2..high2 + 1])
    requires upper == Merge(src[low3..high3 + 1], src[low4..high4 + 1])
    requires d + |lower| <= e && |lower| < size && |upper| < size
    modifies dest
    ensures dest[..] == Written(Written(old(dest[..]), d, lower), e, upper)
    decreases size, 0
  {
    hide Sorted, Written, Merge;
    WriteSwap(dest[..], d, lower, e, upper);
    ghost var s, was := src[..], dest[..];
    if * {
      CilkMerge(src, low1, high1, low2, high2, dest, d);
      assert src[..] == s && dest[..] == Written(was, d, lower);
      CilkMerge(src, low3, high3, low4, high4, dest, e);
    } else {
      CilkMerge(src, low3, high3, low4, high4, dest, e);
      assert src[..] == s && dest[..] == Written(was, e, upper);
      CilkMerge(src, low1, high1, low2, high2, dest, d);
    }
  }

  lemma WriteSwap(was: seq<int>, d: nat, x: seq<int>, e: nat, y: seq<int>)
    requires d + |x| <= e && e + |y| <= |was|
    ensures Written(Written(was, d, x), e, y) == Written(Written(was, e, y), d, x)
  {
  }

  lemma SplitSorted(s: seq<int>, low: nat, end: nat, i: nat, j: nat)
    requires low <= i <= j <= end <= |s| && Sorted(s[low..end])
    ensures Sorted(s[low..i]) && Sorted(s[j..end])
  {
    hide Sorted;
    SliceSorted(s, low, end, low, i);
    SliceSorted(s, low, end, j, end);
  }

  /** Where cilkmerge cuts: around the middle of the larger range, both cuts leave sorted
      parts and the merge is that of the lower parts, the middle element and the upper parts. */
  method ChooseSplit(src: array<int>, low1: nat, high1: nat, low2: nat, high2: nat) returns (split1: nat, split2: int)
    requires low1 < high1 < src.Length && low2 <= high2 < src.Length
    requires Sorted(src[low1..high1 + 1]) && Sorted(src[low2..high2 + 1])
    ensures split1 == (high1 - low1 + 1) / 2 + low1 && low2 - 1 <= split2 <= high2
    ensures Sorted(src[low1..split1]) && Sorted(src[split1 + 1..high1 + 1])
    ensures Sorted(src[low2..split2 + 1]) && Sorted(src[split2 + 1..high2 + 1])
    ensures Merge(src[low1..high1 + 1], src[low2..high2 + 1]) == Merge(src[low1..split1], src[low2..split2 + 1])
              + [src[split1]] + Merge(src[split1 + 1..high1 + 1], src[split2 + 1..high2 + 1])
  {
    hide Sorted, Merge, GreatestUpTo, EqualBehind;
    split1 := (high1 - low1 + 1) / 2 + low1;
    split2 := BinSplit(src, src[split1], low2, high2);
    ghost var s := src[..];
    SplitMerge(s, low1, high1 + 1, low2, high2 + 1, split1, split2 + 1);
    SplitSorted(s, low1, high1 + 1, split1, split1 + 1);
    SplitSorted(s, low2, high2 + 1, split2 + 1, split2 + 1);
  }

  /** The parallel part of cilkmerge. */
  method MergeHalves(src: array<int>, low1: nat, high1: nat, low2: nat, high2: nat, dest: array<int>, lowdest: nat)
    requires Ranges(src, low1, high1, low2, high2, dest, lowdest)
    requires MERGESIZE <= high2 - low2 <= high1 - low1
    requires Sorted(src[low1..high1 + 1]) && Sorted(src[low2..high2 + 1])
    modifies dest
    ensures dest[..] == Written(old(dest[..]), lowdest, Merge(src[low1..high1 + 1], src[low2..high2 + 1]))
    decreases high1 - low1 + high2 - low2 + 2, 1
  {
    hide Sorted, Written, Merge;
    var split1, split2 := ChooseSplit(src, low1, high1, low2, high2);
    var lowsize := split1 - low1 + split2 - low2;
    ghost var s := src[..];
    ghost var lower, upper := Merge(src[low1..split1], src[low2..split2 + 1]),
                              Merge(src[split1 + 1..high1 + 1], src[split2 + 1..high2 + 1]);
    WriteParts(dest[..], lowdest, lower, src[split1], upper);
    dest[lowdest + lowsize + 1] := src[split1];
    assert src[..] == s;
    SpawnBoth(src, low1, split1 - 1, low2, split2, lowdest,
              split1 + 1, high1, split2 + 1, high2, lowdest + lowsize + 2, dest,
              lower, upper, high1 - low1 + high2 - low2 + 2);
  }

  /** The pivot first, then the two halves. */
  lemma WriteParts(was: seq<int>, d: nat, lower: seq<int>, x: int, upper: seq<int>)
    requires d + |lower| + 1 + |upper| <= |was|
    ensures Written(Written(was[d + |lower| := x], d, lower), d + |lower| + 1, upper)
         == Written(was, d, lower + [x] + upper)
  {
    assert was[d + |lower| := x] == Written(was, d + |lower|, [x]) by {
      WriteOne(was, d + |lower|, x);
    }
    hide Written;
    WriteJoin(was, d, lower, [x]);
    WriteJoin(was, d, lower + [x], upper);
  }

  lemma WriteOne(was: seq<int>, d: nat, x: int)
    requires d < |was|
    ensures was[d := x] == Written(was, d, [x])
  {
  }

  // ---------------------------------------------------------------- cilksort

  datatype Ends = Ends(before: seq<int>, after: seq<int>)

  /** What writing to [lo, hi) leaves alone. */
  function Outside(s: seq<int>, lo: nat, hi: nat): Ends
    requires lo <= hi <= |s|
  {
    Ends(s[..lo], s[hi..])
  }

  lemma OutsideWiden(s: seq<int>, t: seq<int>, lo: nat, hi: nat, lo': nat, hi': nat)
    requires lo' <= lo <= hi <= hi' <= |s| == |t| && Outside(s, lo, hi) == Outside(t, lo, hi)
    ensures Outside(s, lo', hi') == Outside(t, lo', hi')
  {
    Slices(s, lo, hi, lo', hi');
    Slices(t, lo, hi, lo', hi');
  }

  lemma WrittenParts(was: seq<int>, d: nat, out: seq<int>)
    requires d + |out| <= |was|
    ensures Written(was, d, out)[d..d + |out|] == out
    ensures Outside(Written(was, d, out), d, d + |out|) == Outside(was, d, d + |out|)
  {
  }

  /** Where quarter k begins. */
  function Cut(size: nat, k: nat): (c: nat)
    requires k <= 4
    ensures c <= size
  {
    if k == 4 then size else k * (size / 4)
  }

  ghost predicate QuarterSorted(s: seq<int>, lo: nat, size: nat, k: nat)
    requires k < 4 && lo + size <= |s|
  {
    Sorted(s[lo + Cut(size, k)..lo + Cut(size, k + 1)])
  }

  lemma CutsApart(size: nat, j: nat, k: nat)
    requires j < 4 && k < 4 && j != k
    ensures Cut(size, j) <= Cut(size, j + 1)
    ensures Cut(size, j + 1) <= Cut(size, k) || Cut(size, k + 1) <= Cut(size, j)
  {
  }

  /** Sorting quarter k leaves the other quarters and, as a multiset, the whole part. */
  lemma QuarterDone(s: seq<int>, t: seq<int>, lo: nat, size: nat, k: nat, j: nat)
    requires k < 4 && j < 4 && j != k && lo + size <= |s| == |t|
    requires Cut(size, k) <= Cut(size, k + 1)
    requires Bag(t, lo + Cut(size, k), lo + Cut(size, k + 1)) == Bag(s, lo + Cut(size, k), lo + Cut(size, k + 1))
    requires QuarterSorted(s, lo, size, j)
    ensures QuarterSorted(t, lo, size, j)
  {
    hide Bag, Sorted, Cut;
    CutsApart(size, j, k);
    CutsApart(size, k, j);
    BagAround(s, t, lo + Cut(size, k), lo + Cut(size, k + 1), lo + Cut(size, j), lo + Cut(size, j + 1));
  }

  /** The four spawned sorts, in any order. */
  method SortQuarters(a: array<int>, lo: nat, tmp: array<int>, tlo: nat, size: nat)
    requires a != tmp && lo + size <= a.Length && tlo + size <= tmp.Length && size >= QUICKSIZE
    modifies a, tmp
    ensures Bag(a[..], lo, lo + size) == old(Bag(a[..], lo, lo + size))
    ensures Outside(tmp[..], tlo, tlo + size) == old(Outside(tmp[..], tlo, tlo + size))
    ensures forall k :: 0 <= k < 4 ==> QuarterSorted(a[..], lo, size, k)
    decreases size, 0
  {
    hide Bag, Outside, QuarterSorted;
    var todo := {0, 1, 2, 3};
    while todo != {}
      invariant todo <= {0, 1, 2, 3}
      invariant Bag(a[..], lo, lo + size) == old(Bag(a[..], lo, lo + size))
      invariant Outside(tmp[..], tlo, tlo + size) == old(Outside(tmp[..], tlo, tlo + size))
      invariant forall k :: 0 <= k < 4 && k !in todo ==> QuarterSorted(a[..], lo, size, k)
      decreases todo
    {
      var k: nat :| k in todo;
      todo := todo - {k};
      ghost var s, t := a[..], tmp[..];
      var c, e := Cut(size, k), Cut(size, k + 1);
      CilkSort(a, lo + c, tmp, tlo + c, e - c);
      BagWiden(s, a[..], lo + c, lo + e, lo, lo + size);
      OutsideWiden(t, tmp[..], tlo + c, tlo + e, tlo, tlo + size);
      QuarterNow(a[..], lo, size, k);
      forall j | 0 <= j < 4 && j != k && j !in todo ensures QuarterSorted(a[..], lo, size, j) {
        QuarterDone(s, a[..], lo, size, k, j);
      }
    }
  }

  lemma QuarterNow(s: seq<int>, lo: nat, size: nat, k: nat)
    requires k < 4 && lo + size <= |s| && Cut(size, k) <= Cut(size, k + 1)
    requires Sorted(s[lo + Cut(size, k)..lo + Cut(size, k + 1)])
    ensures QuarterSorted(s, lo, size, k)
  {
  }

  /** cilksort: sorts size elements from lo, with as many elements of tmp from tlo as scratch. */
  method CilkSort(a: array<int>, lo: nat, tmp: array<int>, tlo: nat, size: nat)
    requires a != tmp && lo + size <= a.Length && tlo + size <= tmp.Length
    modifies a, tmp
    ensures Sorted(a[lo..lo + size])
    ensures Bag(a[..], lo, lo + size) == old(Bag(a[..], lo, lo + size))
    ensures Outside(tmp[..], tlo, tlo + size) == old(Outside(tmp[..], tlo, tlo + size))
    decreases size, 2
  {
    if size < QUICKSIZE {
      SeqQuick(a, lo, lo + size - 1);
    } else {
      SortQuarters(a, lo, tmp, tlo, size);
      MergeQuarters(a, lo, tmp, tlo, size);
    }
  }

  lemma QuartersOf(s: seq<int>, lo: nat, size: nat)
    requires lo + size <= |s| && forall k :: 0 <= k < 4 ==> QuarterSorted(s, lo, size, k)
    ensures var q := size / 4;
            && Sorted(s[lo..lo + q]) && Sorted(s[lo + q..lo + 2 * q])
            && Sorted(s[lo + 2 * q..lo + 3 * q]) && Sorted(s[lo + 3 * q..lo + size])
  {
    hide Sorted;
    assert QuarterSorted(s, lo, size, 0) && QuarterSorted(s, lo, size, 1);
    assert QuarterSorted(s, lo, size, 2) && QuarterSorted(s, lo, size, 3);
  }

  lemma HalvesWritten(was: seq<int>, now: seq<int>, d: nat, x: seq<int>, y: seq<int>)
    requires d + |x| + |y| <= |was| && now == Written(was, d, x + y)
    ensures now[d..d + |x|] == x && now[d + |x|..d + |x| + |y|] == y
    ensures Outside(now, d, d + |x| + |y|) == Outside(was, d, d + |x| + |y|)
  {
    var z := x + y;
    WrittenParts(was, d, z);
    assert now[d..d + |z|] == z;
    SubSlice(now, d, d + |z|, d, d + |x|);
    SubSlice(now, d, d + |z|, d + |x|, d + |z|);
  }

  ghost function Elements(a: seq<int>, b: seq<int>, c: seq<int>, d: seq<int>): multiset<int> {
    multiset(a) + multiset(b) + multiset(c) + multiset(d)
  }

  lemma FourMerged(a: seq<int>, b: seq<int>, c: seq<int>, d: seq<int>)
    requires Sorted(a) && Sorted(b) && Sorted(c) && Sorted(d)
    ensures Sorted(Merge(a, b)) && Sorted(Merge(c, d)) && Sorted(Merge(Merge(a, b), Merge(c, d)))
    ensures multiset(Merge(Merge(a, b), Merge(c, d))) == Elements(a, b, c, d)
  {
    hide Sorted, Merge;
    MergeSorted(a, b);
    MergeSorted(c, d);
    MergeSorted(Merge(a, b), Merge(c, d));
    MergeElements(a, b);
    MergeElements(c, d);
    MergeElements(Merge(a, b), Merge(c, d));
  }

  lemma FourParts(s: seq<int>, i: nat, j: nat, k: nat, l: nat, m: nat)
    requires i <= j <= k <= l <= m <= |s|
    ensures multiset(s[i..m]) == Elements(s[i..j], s[j..k], s[k..l], s[l..m])
  {
    Halves(s, i, j, k);
    Halves(s, i, k, l);
    Halves(s, i, l, m);
  }

  lemma BagWritten(s: seq<int>, lo: nat, size: nat, out: seq<int>)
    requires lo + size <= |s| && |out| == size && multiset(out) == multiset(s[lo..lo + size])
    ensures Bag(Written(s, lo, out), lo, lo + size) == Bag(s, lo, lo + size)
    ensures Written(s, lo, out)[lo..lo + size] == out
  {
    WrittenParts(s, lo, out);
  }

  /** The merges of the first two and of the last two quarters. */
  ghost function LowerPair(s: seq<int>, lo: nat, size: nat): (r: seq<int>)
    requires lo + size <= |s|
    ensures |r| == 2 * (size / 4)
  {
    var q := size / 4;
    Merge(s[lo..lo + q], s[lo + q..lo + 2 * q])
  }

  ghost function UpperPair(s: seq<int>, lo: nat, size: nat): (r: seq<int>)
    requires lo + size <= |s|
    ensures |r| == size - 2 * (size / 4)
  {
    var q := size / 4;
    Merge(s[lo + 2 * q..lo + 3 * q], s[lo + 3 * q..lo + size])
  }

  lemma PairsMerged(s: seq<int>, lo: nat, size: nat)
    requires lo + size <= |s| && forall k :: 0 <= k < 4 ==> QuarterSorted(s, lo, size, k)
    ensures var ab, cd := LowerPair(s, lo, size), UpperPair(s, lo, size);
            && Sorted(ab) && Sorted(cd) && Sorted(Merge(ab, cd))
            && multiset(Merge(ab, cd)) == multiset(s[lo..lo + size])
  {
    hide Sorted, Merge, QuarterSorted, Elements;
    var q := size / 4;
    QuartersOf(s, lo, size);
    FourMerged(s[lo..lo + q], s[lo + q..lo + 2 * q], s[lo + 2 * q..lo + 3 * q], s[lo + 3 * q..lo + size]);
    FourParts(s, lo, lo + q, lo + 2 * q, lo + 3 * q, lo + size);
  }

  /** The first two merges of cilksort, in either order. */
  method MergePairs(a: array<int>, lo: nat, tmp: array<int>, tlo: nat, size: nat)
    requires a != tmp && lo + size <= a.Length && tlo + size <= tmp.Length && size >= QUICKSIZE
    requires forall k :: 0 <= k < 4 ==> QuarterSorted(a[..], lo, size, k)
    modifies tmp
    ensures tmp[..] == Written(Written(old(tmp[..]), tlo, LowerPair(a[..], lo, size)),
                               tlo + 2 * (size / 4), UpperPair(a[..], lo, size))
  {
    hide Sorted, Merge, Written, QuarterSorted;
    var quarter := size / 4;
    var A, B, C, D := lo, lo + quarter, lo + 2 * quarter, lo + 3 * quarter;
    QuartersOf(a[..], lo, size);
    assert a[..][A..B] == a[A..B] && a[..][B..C] == a[B..C] && a[..][C..D] == a[C..D];
    assert a[..][D..lo + size] == a[D..lo + size];
    SpawnBoth(a, A, A + quarter - 1, B, B + quarter - 1, tlo,
              C, C + quarter - 1, D, lo + size - 1, tlo + 2 * quarter, tmp,
              LowerPair(a[..], lo, size), UpperPair(a[..], lo, size), size);
  }

  /** The three merges of cilksort. */
  method MergeQuarters(a: array<int>, lo: nat, tmp: array<int>, tlo: nat, size: nat)
    requires a != tmp && lo + size <= a.Length && tlo + size <= tmp.Length && size >= QUICKSIZE
    requires forall k :: 0 <= k < 4 ==> QuarterSorted(a[..], lo, size, k)
    modifies a, tmp
    ensures Sorted(a[lo..lo + size])
    ensures Bag(a[..], lo, lo + size) == old(Bag(a[..], lo, lo + size))
    ensures Outside(tmp[..], tlo, tlo + size) == old(Outside(tmp[..], tlo, tlo + size))
  {
    hide Bag, Outside, QuarterSorted, Sorted, Merge, Written, LowerPair, UpperPair;
    ghost var s, t := a[..], tmp[..];
    PairsMerged(s, lo, size);
    MergePairs(a, lo, tmp, tlo, size);
    assert a[..] == s;
    MergeBack(a, lo, tmp, tlo, size, LowerPair(s, lo, size), UpperPair(s, lo, size), t);
  }

  /** The last merge, from the scratch array back into the array. */
  method MergeBack(a: array<int>, lo: nat, tmp: array<int>, tlo: nat, size: nat,
                   ghost ab: seq<int>, ghost cd: seq<int>, ghost t: seq<int>)
    requires a != tmp && lo + size <= a.Length && |ab| == 2 * (size / 4) && |ab| + |cd| == size && size >= QUICKSIZE
    requires tlo + size <= |t| && tmp[..] == Written(Written(t, tlo, ab), tlo + |ab|, cd)
    requires Sorted(ab) && Sorted(cd) && Sorted(Merge(ab, cd))
    requires multiset(Merge(ab, cd)) == multiset(a[lo..lo + size])
    modifies a
    ensures Sorted(a[lo..lo + size])
    ensures Bag(a[..], lo, lo + size) == old(Bag(a[..], lo, lo + size))
    ensures Outside(tmp[..], tlo, tlo + size) == Outside(t, tlo, tlo + size)
  {
    hide Bag, Outside, Sorted, Merge, Written;
    WriteJoin(t, tlo, ab, cd);
    HalvesWritten(t, tmp[..], tlo, ab, cd);
    BagWritten(a[..], lo, size, Merge(ab, cd));
    CilkMerge(tmp, tlo, tlo + 2 * (size / 4) - 1, tlo + 2 * (size / 4), tlo + size - 1, a, lo);
  }
}
