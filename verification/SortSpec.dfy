/** What sorting and merging mean, on values. */
module SortSpec {
  ghost predicate Sorted(s: seq<int>) {
    forall i, j :: 0 <= i < j < |s| ==> s[i] <= s[j]
  }

  /** Every element of s is at most every element of t. */
  ghost predicate Below(s: seq<int>, t: seq<int>) {
    forall i, j :: 0 <= i < |s| && 0 <= j < |t| ==> s[i] <= t[j]
  }

  datatype Parts = Parts(before: seq<int>, elements: multiset<int>, after: seq<int>)

  /** What rearranging [lo, hi) keeps: two sequences with the same bag differ only in the
      order of the elements there. */
  ghost function Bag(s: seq<int>, lo: nat, hi: nat): Parts
    requires lo <= hi <= |s|
  {
    Parts(s[..lo], multiset(s[lo..hi]), s[hi..])
  }

  lemma Slices(s: seq<int>, lo: nat, hi: nat, lo': nat, hi': nat)
    requires lo' <= lo <= hi <= hi' <= |s|
    ensures s[lo'..hi'] == s[..lo][lo'..] + s[lo..hi] + s[hi..][..hi' - hi]
    ensures s[..lo'] == s[..lo][..lo'] && s[hi'..] == s[hi..][hi' - hi..]
  {
  }

  /** A rearrangement of a part is one of any larger part. */
  lemma BagWiden(s: seq<int>, t: seq<int>, lo: nat, hi: nat, lo': nat, hi': nat)
    requires lo' <= lo <= hi <= hi' <= |s| == |t| && Bag(s, lo, hi) == Bag(t, lo, hi)
    ensures Bag(s, lo', hi') == Bag(t, lo', hi')
  {
    Slices(s, lo, hi, lo', hi');
    Slices(t, lo, hi, lo', hi');
  }

  lemma BagSwap(s: seq<int>, lo: nat, hi: nat, i: nat, j: nat)
    requires lo <= i <= j < hi <= |s|
    ensures Bag(s[i := s[j]][j := s[i]], lo, hi) == Bag(s, lo, hi)
  {
    var t := s[i := s[j]][j := s[i]];
    var u := s[lo..hi];
    assert t[lo..hi] == u[i - lo := u[j - lo]][j - lo := u[i - lo]];
  }

  lemma SameElements(s: seq<int>, t: seq<int>, x: int)
    requires multiset(s) == multiset(t)
    ensures x in s <==> x in t
  {
    assert x in s <==> x in multiset(s);
    assert x in t <==> x in multiset(t);
  }

  lemma BelowRearranged(s: seq<int>, t: seq<int>, s': seq<int>, t': seq<int>)
    requires Below(s, t) && multiset(s) == multiset(s') && multiset(t) == multiset(t')
    ensures Below(s', t')
  {
    forall i, j | 0 <= i < |s'| && 0 <= j < |t'| ensures s'[i] <= t'[j] {
      SameElements(s, s', s'[i]);
      SameElements(t, t', t'[j]);
      var a :| 0 <= a < |s| && s[a] == s'[i];
      var b :| 0 <= b < |t| && t[b] == t'[j];
    }
  }

  lemma SortedJoin(s: seq<int>, t: seq<int>)
    requires Sorted(s) && Sorted(t) && Below(s, t)
    ensures Sorted(s + t)
  {
  }

  lemma HeadLeast(s: seq<int>, x: int)
    requires Sorted(s) && x in s
    ensures s[0] <= x
  {
  }

  lemma HeadTail(s: seq<int>)
    requires s != []
    ensures s == [s[0]] + s[1..] && multiset(s) == multiset{s[0]} + multiset(s[1..])
    ensures Sorted(s) ==> Sorted(s[1..])
  {
    assert s == [s[0]] + s[1..];
  }

  lemma SameHead(s: seq<int>, t: seq<int>)
    requires Sorted(s) && Sorted(t) && multiset(s) == multiset(t) && s != [] && t != []
    ensures s[0] == t[0]
  {
    SameElements(s, t, s[0]);
    SameElements(s, t, t[0]);
    HeadLeast(s, t[0]);
    HeadLeast(t, s[0]);
  }

  /** A multiset has only one sorted sequence. */
  lemma {:induction false} SortedUnique(s: seq<int>, t: seq<int>)
    requires Sorted(s) && Sorted(t) && multiset(s) == multiset(t)
    ensures s == t
  {
    hide Sorted;
    assert |s| == |multiset(s)| == |multiset(t)| == |t|;
    if s != [] {
      SameHead(s, t);
      HeadTail(s);
      HeadTail(t);
      assert multiset(s[1..]) == multiset(s) - multiset{s[0]};
      assert multiset(t[1..]) == multiset(t) - multiset{t[0]};
      SortedUnique(s[1..], t[1..]);
    }
  }

  /** The merge of two sequences: always the smaller head, from t when they are equal. */
  function Merge(s: seq<int>, t: seq<int>): (r: seq<int>)
    ensures |r| == |s| + |t|
  {
    if s == [] then t
    else if t == [] then s
    else if s[0] < t[0] then [s[0]] + Merge(s[1..], t)
    else [t[0]] + Merge(s, t[1..])
  }

  lemma {:induction false} MergeElements(s: seq<int>, t: seq<int>)
    ensures multiset(Merge(s, t)) == multiset(s) + multiset(t)
    decreases |s| + |t|
  {
    hide Sorted;
    if s != [] && t != [] {
      if s[0] < t[0] {
        MergeElements(s[1..], t);
        HeadTail(s);
      } else {
        MergeElements(s, t[1..]);
        HeadTail(t);
      }
    }
  }

  lemma MergeMember(s: seq<int>, t: seq<int>, k: nat)
    requires k < |Merge(s, t)|
    ensures Merge(s, t)[k] in s || Merge(s, t)[k] in t
  {
    hide Merge;
    MergeElements(s, t);
    assert Merge(s, t)[k] in multiset(Merge(s, t));
  }

  lemma {:induction false} MergeSorted(s: seq<int>, t: seq<int>)
    requires Sorted(s) && Sorted(t)
    ensures Sorted(Merge(s, t))
    decreases |s| + |t|
  {
    if s != [] && t != [] {
      if s[0] < t[0] {
        MergeSorted(s[1..], t);
        FirstBelow(s[0], s[1..], t);
      } else {
        MergeSorted(s, t[1..]);
        FirstBelow(t[0], s, t[1..]);
      }
    }
  }

  lemma FirstBelow(x: int, s: seq<int>, t: seq<int>)
    requires Sorted(Merge(s, t)) && Below([x], s) && Below([x], t)
    ensures Sorted([x] + Merge(s, t))
  {
    hide Merge;
    forall k | 0 <= k < |Merge(s, t)| ensures x <= Merge(s, t)[k] {
      MergeMember(s, t, k);
      assert [x][0] == x;
    }
    SortedJoin([x], Merge(s, t));
  }

  /** A sorted sequence with the elements of s and t is their merge. */
  lemma MergeUnique(s: seq<int>, t: seq<int>, r: seq<int>)
    requires Sorted(s) && Sorted(t) && Sorted(r) && multiset(r) == multiset(s) + multiset(t)
    ensures r == Merge(s, t)
  {
    MergeSorted(s, t);
    MergeElements(s, t);
    SortedUnique(r, Merge(s, t));
  }

  lemma MergeCommutes(s: seq<int>, t: seq<int>)
    requires Sorted(s) && Sorted(t)
    ensures Merge(s, t) == Merge(t, s)
  {
    MergeSorted(t, s);
    MergeElements(t, s);
    MergeUnique(s, t, Merge(t, s));
  }

  /** Merging around an element x of s that splits t. */
  lemma MergeAround(s1: seq<int>, x: int, s2: seq<int>, t1: seq<int>, t2: seq<int>)
    requires Sorted(s1 + [x] + s2) && Sorted(t1 + t2) && Below(t1, [x]) && Below([x], t2)
    ensures Merge(s1 + [x] + s2, t1 + t2) == Merge(s1, t1) + [x] + Merge(s2, t2)
  {
    hide Merge;
    var s, t := s1 + [x] + s2, t1 + t2;
    PartsSorted(s1, x, s2);
    TwoPartsSorted(t1, t2);
    MergeSorted(s1, t1);
    MergeElements(s1, t1);
    MergeSorted(s2, t2);
    MergeElements(s2, t2);
    var l, h := Merge(s1, t1), Merge(s2, t2);
    forall k | 0 <= k < |l| ensures l[k] <= x {
      MergeMember(s1, t1, k);
      assert [x][0] == x;
    }
    forall k | 0 <= k < |h| ensures x <= h[k] {
      MergeMember(s2, t2, k);
      assert [x][0] == x;
    }
    JoinThree(l, x, h);
    assert multiset(l + [x] + h) == multiset(s) + multiset(t);
    MergeUnique(s, t, l + [x] + h);
  }

  lemma PartsSorted(s1: seq<int>, x: int, s2: seq<int>)
    requires Sorted(s1 + [x] + s2)
    ensures Sorted(s1) && Sorted(s2) && Below(s1, [x]) && Below([x], s2)
  {
    var s := s1 + [x] + s2;
    assert forall k :: 0 <= k < |s1| ==> s1[k] == s[k];
    assert s[|s1|] == x;
    assert forall k :: 0 <= k < |s2| ==> s2[k] == s[|s1| + 1 + k];
  }

  lemma TwoPartsSorted(t1: seq<int>, t2: seq<int>)
    requires Sorted(t1 + t2)
    ensures Sorted(t1) && Sorted(t2)
  {
    var t := t1 + t2;
    assert forall k :: 0 <= k < |t1| ==> t1[k] == t[k];
    assert forall k :: 0 <= k < |t2| ==> t2[k] == t[|t1| + k];
  }

  lemma JoinThree(l: seq<int>, x: int, h: seq<int>)
    requires Sorted(l) && Sorted(h)
    requires (forall k :: 0 <= k < |l| ==> l[k] <= x) && (forall k :: 0 <= k < |h| ==> x <= h[k])
    ensures Sorted(l + [x] + h)
  {
  }
}
