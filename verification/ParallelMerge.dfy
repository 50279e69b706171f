/**
 cilkmerge under any schedule (benchmarks/cilksort/cilksort-lace.c): the merge as the
 stores it makes, in every order in which the workers can make them. Merges never read the
 destination, so a run is determined by how the stores of spawned merges interleave.
 */
module ParallelMerge {
  import opened SortSpec
  import opened Cilksort

  datatype Store = Store(at: nat, value: int)

  function Perform(mem: seq<int>, stores: seq<Store>): (r: seq<int>)
    ensures |r| == |mem|
    decreases |stores|
  {
    if stores == [] then mem
    else Perform(if stores[0].at < |mem| then mem[stores[0].at := stores[0].value] else mem, stores[1..])
  }

  ghost predicate Interleaves(t1: seq<Store>, t2: seq<Store>, t: seq<Store>)
    decreases |t|
  {
    if t == [] then t1 == [] && t2 == []
    else
      || (t1 != [] && t[0] == t1[0] && Interleaves(t1[1..], t2, t[1..]))
      || (t2 != [] && t[0] == t2[0] && Interleaves(t1, t2[1..], t[1..]))
  }

  /** The stores of one sequential merge. */
  function Sequential(d: nat, out: seq<int>): seq<Store> {
    seq(|out|, k requires 0 <= k < |out| => Store(d + k, out[k]))
  }

  /** Where binsplit may cut t for the element x. */
  ghost predicate Splits(t: seq<int>, j: nat, x: int) {
    j <= |t| && Below(t[..j], [x]) && Below([x], t[j..])
  }

  /** `stores` is an order in which cilkmerge can make its stores. */
  ghost predicate Schedule(s: seq<int>, t: seq<int>, d: nat, stores: seq<Store>)
    decreases |s| + |t|, if |t| > |s| then 2 else 1
  {
    if |t| > |s| then Schedule(t, s, d, stores)
    else if |t| <= MERGESIZE then stores == Sequential(d, Merge(s, t))
    else exists j: nat, t1, t2 :: Forks(s, t, d, stores, j, t1, t2)
  }

  /** The splitting element first, then the stores of two spawned merges in any order. */
  ghost predicate Forks(s: seq<int>, t: seq<int>, d: nat, stores: seq<Store>, j: nat, t1: seq<Store>, t2: seq<Store>)
    requires s != []
    decreases |s| + |t|, 0
  {
    var i := |s| / 2;
    && Splits(t, j, s[i]) && stores != [] && stores[0] == Store(d + i + j, s[i])
    && Interleaves(t1, t2, stores[1..])
    && Schedule(s[..i], t[..j], d, t1) && Schedule(s[i + 1..], t[j..], d + i + j + 1, t2)
  }

  ghost predicate Within(stores: seq<Store>, lo: nat, hi: nat) {
    forall k :: 0 <= k < |stores| ==> lo <= stores[k].at < hi
  }

  /** A store elsewhere can be made before or after. */
  lemma {:induction false} StoreLast(mem: seq<int>, stores: seq<Store>, w: Store, lo: nat, hi: nat)
    requires Within(stores, lo, hi) && hi <= |mem| && w.at < |mem| && !(lo <= w.at < hi)
    ensures Perform(mem[w.at := w.value], stores) == Perform(mem, stores)[w.at := w.value]
    decreases |stores|
  {
    if stores != [] {
      var f := stores[0];
      assert Within(stores[1..], lo, hi);
      StoreLast(mem[f.at := f.value], stores[1..], w, lo, hi);
      assert mem[w.at := w.value][f.at := f.value] == mem[f.at := f.value][w.at := w.value];
    }
  }

  /** However two sets of stores to disjoint parts interleave, the memory is the same. */
  lemma {:induction false} AnyInterleaving(mem: seq<int>, t1: seq<Store>, t2: seq<Store>, t: seq<Store>,
                                           lo: nat, hi: nat, lo': nat, hi': nat)
    requires Interleaves(t1, t2, t) && Within(t1, lo, hi) && Within(t2, lo', hi')
    requires lo <= hi <= lo' <= hi' <= |mem|
    ensures Perform(mem, t) == Perform(Perform(mem, t1), t2)
    ensures Within(t, lo, hi')
    decreases |t|
  {
    if t != [] {
      var w := t[0];
      if t1 != [] && w == t1[0] && Interleaves(t1[1..], t2, t[1..]) {
        assert Within(t1[1..], lo, hi);
        AnyInterleaving(mem[w.at := w.value], t1[1..], t2, t[1..], lo, hi, lo', hi');
      } else {
        assert Within(t2[1..], lo', hi');
        AnyInterleaving(mem[w.at := w.value], t1, t2[1..], t[1..], lo, hi, lo', hi');
        StoreLast(mem, t1, w, lo, hi);
      }
    }
  }

  lemma {:induction false} SequentialIs(mem: seq<int>, d: nat, out: seq<int>)
    requires d + |out| <= |mem|
    ensures Perform(mem, Sequential(d, out)) == Written(mem, d, out)
    ensures Within(Sequential(d, out), d, d + |out|)
    decreases |out|
  {
    if out != [] {
      var mem' := mem[d := out[0]];
      assert Sequential(d, out)[1..] == Sequential(d + 1, out[1..]);
      SequentialIs(mem', d + 1, out[1..]);
      WriteOne(mem, d, out[0]);
      WriteJoin(mem, d, [out[0]], out[1..]);
      assert [out[0]] + out[1..] == out;
    }
  }

  /** The spawned halves, once their own stores are known to make their merges. */
  lemma HalvesMake(s: seq<int>, t: seq<int>, i: nat, j: nat, d: nat, mem: seq<int>)
    requires Sorted(s) && Sorted(t) && i < |s| && Splits(t, j, s[i]) && d + |s| + |t| <= |mem|
    ensures Sorted(s[..i]) && Sorted(t[..j]) && Sorted(s[i + 1..]) && Sorted(t[j..])
    ensures Written(Written(mem[d + i + j := s[i]], d, Merge(s[..i], t[..j])), d + i + j + 1, Merge(s[i + 1..], t[j..]))
         == Written(mem, d, Merge(s, t))
  {
    hide Sorted, Below, Merge, Written;
    assert s == s[..i] + [s[i]] + s[i + 1..] && t == t[..j] + t[j..];
    PartsSorted(s[..i], s[i], s[i + 1..]);
    TwoPartsSorted(t[..j], t[j..]);
    MergeAround(s[..i], s[i], s[i + 1..], t[..j], t[j..]);
    WriteParts(mem, d, Merge(s[..i], t[..j]), s[i], Merge(s[i + 1..], t[j..]));
  }

  lemma SpawnedMake(s: seq<int>, t: seq<int>, i: nat, j: nat, d: nat, mem: seq<int>,
                    stores: seq<Store>, t1: seq<Store>, t2: seq<Store>)
    requires Sorted(s) && Sorted(t) && i < |s| && Splits(t, j, s[i]) && d + |s| + |t| <= |mem|
    requires stores != [] && stores[0] == Store(d + i + j, s[i]) && Interleaves(t1, t2, stores[1..])
    requires Within(t1, d, d + i + j) && Within(t2, d + i + j + 1, d + |s| + |t|)
    requires var m := mem[d + i + j := s[i]];
             && Perform(m, t1) == Written(m, d, Merge(s[..i], t[..j]))
             && Perform(Perform(m, t1), t2) == Written(Perform(m, t1), d + i + j + 1, Merge(s[i + 1..], t[j..]))
    ensures Perform(mem, stores) == Written(mem, d, Merge(s, t))
    ensures Within(stores, d, d + |s| + |t|)
  {
    hide Sorted, Merge, Written, Below;
    HalvesMake(s, t, i, j, d, mem);
    var m := mem[d + i + j := s[i]];
    AnyInterleaving(m, t1, t2, stores[1..], d, d + i + j, d + i + j + 1, d + |s| + |t|);
    assert Perform(mem, stores) == Perform(m, stores[1..]);
  }

  /** Whatever the schedule, cilkmerge leaves the merge of its ranges in the destination and
      writes nowhere else. */
  lemma {:induction false} AnySchedule(s: seq<int>, t: seq<int>, d: nat, stores: seq<Store>, mem: seq<int>)
    requires Sorted(s) && Sorted(t) && Schedule(s, t, d, stores) && d + |s| + |t| <= |mem|
    ensures Perform(mem, stores) == Written(mem, d, Merge(s, t))
    ensures Within(stores, d, d + |s| + |t|)
    decreases |s| + |t|, if |t| > |s| then 2 else 1
  {
    hide Sorted, Merge, Written, Below, Perform, Interleaves;
    if |t| > |s| {
      MergeCommutes(s, t);
      AnySchedule(t, s, d, stores, mem);
    } else if |t| <= MERGESIZE {
      SequentialIs(mem, d, Merge(s, t));
    } else {
      var j: nat, t1, t2 :| Forks(s, t, d, stores, j, t1, t2);
      ForkMakes(s, t, d, stores, mem, j, t1, t2);
    }
  }

  lemma {:induction false} ForkMakes(s: seq<int>, t: seq<int>, d: nat, stores: seq<Store>, mem: seq<int>,
                                     j: nat, t1: seq<Store>, t2: seq<Store>)
    requires Sorted(s) && Sorted(t) && s != [] && d + |s| + |t| <= |mem|
    requires Forks(s, t, d, stores, j, t1, t2)
    ensures Perform(mem, stores) == Written(mem, d, Merge(s, t))
    ensures Within(stores, d, d + |s| + |t|)
    decreases |s| + |t|, 0
  {
    hide Sorted, Merge, Written, Below, Perform, Interleaves, Schedule;
    var i := |s| / 2;
    HalvesMake(s, t, i, j, d, mem);
    var m := mem[d + i + j := s[i]];
    AnySchedule(s[..i], t[..j], d, t1, m);
    AnySchedule(s[i + 1..], t[j..], d + i + j + 1, t2, Perform(m, t1));
    SpawnedMake(s, t, i, j, d, mem, stores, t1, t2);
  }

  // ---------------------------------------------------------------- schedules exist

  lemma {:induction false} OneAfterTheOther(t1: seq<Store>, t2: seq<Store>)
    ensures Interleaves(t1, t2, t1 + t2)
    decreases |t1| + |t2|
  {
    if t1 != [] {
      OneAfterTheOther(t1[1..], t2);
      assert (t1 + t2)[1..] == t1[1..] + t2;
    } else if t2 != [] {
      OneAfterTheOther(t1, t2[1..]);
      assert (t1 + t2)[1..] == t1 + t2[1..];
    }
  }

  lemma {:induction false} CanSplit(t: seq<int>, x: int) returns (j: nat)
    requires Sorted(t)
    ensures Splits(t, j, x)
  {
    var m := |t| - 1;
    if t == [] || t[m] <= x {
      j := |t|;
    } else {
      j := CanSplit(t[..m], x);
      assert t[..m][..j] == t[..j];
      forall k | 0 <= k < |t[j..]| ensures x <= t[j..][k] {
        if j + k < m {
          assert t[..m][j..][k] == t[j..][k];
        }
        assert [x][0] == x;
      }
    }
  }

  /** Every merge of sorted ranges has a schedule, however long they are. */
  lemma {:induction false} SomeSchedule(s: seq<int>, t: seq<int>, d: nat) returns (stores: seq<Store>)
    requires Sorted(s) && Sorted(t)
    ensures Schedule(s, t, d, stores)
    decreases |s| + |t|, if |t| > |s| then 1 else 0
  {
    if |t| > |s| {
      stores := SomeSchedule(t, s, d);
    } else if |t| <= MERGESIZE {
      stores := Sequential(d, Merge(s, t));
    } else {
      hide Sorted, Below;
      var i := |s| / 2;
      var j := CanSplit(t, s[i]);
      HalvesSorted(s, t, i, j);
      var t1 := SomeSchedule(s[..i], t[..j], d);
      var t2 := SomeSchedule(s[i + 1..], t[j..], d + i + j + 1);
      OneAfterTheOther(t1, t2);
      stores := [Store(d + i + j, s[i])] + (t1 + t2);
      assert stores[1..] == t1 + t2;
      assert Forks(s, t, d, stores, j, t1, t2);
    }
  }

  lemma HalvesSorted(s: seq<int>, t: seq<int>, i: nat, j: nat)
    requires Sorted(s) && Sorted(t) && i < |s| && j <= |t|
    ensures Sorted(s[..i]) && Sorted(t[..j]) && Sorted(s[i + 1..]) && Sorted(t[j..])
  {
    hide Sorted;
    assert s == s[..i] + [s[i]] + s[i + 1..] && t == t[..j] + t[j..];
    PartsSorted(s[..i], s[i], s[i + 1..]);
    TwoPartsSorted(t[..j], t[j..]);
  }
}
