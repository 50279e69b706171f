/**
 The owner's operations on the split deque as the code that runs: an object whose fields
 are updated in place, one store at a time, with thieves free to act between any two
 stores (src/lace.h). What the slots hold is left to module SplitDeque; here only which
 slots are claimed matters.
 */
module OwnerDeque {
  import opened SplitDeque

  /** How a SYNC goes on: the owner runs the task itself, or it must leapfrog. */
  datatype Outcome = RunIt | Leapfrog

  /** p is half the way from some tail between lo and hi to the head d + 1. */
  ghost predicate Halved(lo: nat, hi: nat, d: nat, p: nat) {
    exists t: nat :: lo <= t <= hi && p == Half(t, d)
  }

  function Half(t: nat, d: nat): nat {
    (t + d + 1) / 2
  }

  lemma HalvedMore(lo: nat, hi: nat, lo': nat, hi': nat, d: nat, p: nat)
    requires lo' <= lo && hi <= hi'
    ensures Halved(lo, hi, d, p) ==> Halved(lo', hi', d, p)
  {
    if Halved(lo, hi, d, p) {
      var t: nat :| lo <= t <= hi && p == Half(t, d);
      assert lo' <= t <= hi' && p == Half(t, d);
    }
  }

  /** The split half the way from p to the task d that is popped. */
  function Grown(p: nat, d: nat): nat
    requires p <= d
  {
    p + (d - p + 1) / 2
  }

  /** The split of a SYNC on task d before it grows: the old one, or half the way down from it
      if the task was shared. */
  ghost predicate Settled(psplit: nat, lo: nat, hi: nat, d: nat, p: nat) {
    p <= d && if psplit > d then Halved(lo, hi, d, p) else p == psplit
  }

  /** The split stays at p or grows from there, and it grows if more work was asked for. */
  predicate Shares(p: nat, d: nat, split: nat, asked: bool, asks: bool) {
    p <= d && (split == p || split == Grown(p, d)) && (asked ==> split == Grown(p, d) && !asks)
  }

  class Owner {
    // public
    var tail: nat
    var split: nat
    var allstolen: bool
    var movesplit: bool
    // private
    var psplit: nat
    var pallstolen: bool
    const size: nat
    ghost var claimed: set<nat>  // slots whose current task a thief has taken

    constructor (n: nat)
      requires n < SIZE_LIMIT
      ensures size == n && Valid(0) && !pallstolen
    {
      size := n;
      tail, split, allstolen, movesplit := 0, 0, false, false;
      psplit, pallstolen := 0, false;
      claimed := {};
    }

    /** The state between operations, with `h` tasks in the deque. */
    ghost predicate Valid(h: nat)
      reads this
    {
      && h <= size < SIZE_LIMIT
      && allstolen == pallstolen
      && (!allstolen ==> tail <= split == psplit <= h && ToTail(h))
      && (allstolen ==> split <= tail && h <= psplit && h <= tail && forall i :: 0 <= i < h ==> i in claimed)
    }

    ghost predicate ToTail(h: nat)
      reads this
    {
      forall i :: 0 <= i < h ==> (i in claimed <==> i < tail)
    }

    /** Any number of steps of any thieves: each one takes the slot at the tail while
        tail < split, or asks for more shared work. */
    method Thieves()
      modifies this`tail, this`movesplit, this`claimed
      ensures old(movesplit) ==> movesplit
      ensures old(tail) <= tail && (tail == old(tail) || tail <= split)
      ensures forall i: nat :: i in claimed <==> i in old(claimed) || old(tail) <= i < tail
    {
      var steps: nat := *;
      while steps > 0
        invariant old(tail) <= tail && (tail == old(tail) || tail <= split) && (old(movesplit) ==> movesplit)
        invariant forall i: nat :: i in claimed <==> i in old(claimed) || old(tail) <= i < tail
      {
        if * {
          if tail < split {
            claimed := claimed + {tail};
            tail := tail + 1;
          }
        } else {
          movesplit := true;
        }
        steps := steps - 1;
      }
    }

    /** SPAWN at head h: afterwards the deque is open and the shared part has not shrunk;
        if it was allstolen, or more work was asked for, at least one more task is shared. */
    method Spawn(h: nat)
      requires Valid(h) && h < size
      modifies this
      ensures Valid(h + 1) && !pallstolen
      ensures old(pallstolen) ==> split == h + 1
      ensures !old(pallstolen) && !old(movesplit) ==> split == old(split)
      ensures !old(pallstolen) && old(movesplit) ==> old(split) < split == (old(split) + h + 2) / 2
    {
      claimed := claimed - {h};
      if pallstolen {
        if movesplit {
          movesplit := false;
        }
        Thieves();
        tail, split := U32(h), U32(h + 1);
        Thieves();
        allstolen := false;
        Thieves();
        psplit := h + 1;
        pallstolen := false;
      } else if movesplit {
        var newsplit := U32(psplit + h + 2) / 2;
        split := newsplit;
        Thieves();
        psplit := newsplit;
        movesplit := false;
      }
      Thieves();
    }

    /** lace_shrink_shared, called by a SYNC on slot d when that slot is shared. */
    method ShrinkShared(d: nat) returns (lost: bool)
      requires Valid(d + 1) && !pallstolen && d < psplit
      modifies this
      ensures Valid(d + 1)
      ensures !lost ==> !pallstolen && tail <= split == psplit < old(split) && d !in claimed
      ensures !lost ==> Halved(old(tail), tail, d, split) && (old(movesplit) ==> movesplit)
      ensures lost ==> pallstolen && split <= tail && forall i :: 0 <= i < old(split) ==> i in claimed
    {
      var t, s := tail, split;
      if t != s {
        Thieves();
        var newsplit := U32(t + s) / 2;
        assert newsplit == Half(t, d);
        split := newsplit;
        Thieves();
        t := tail;
        if t != s {
          if t > newsplit {
            Thieves();
            newsplit := U32(t + s) / 2;
            assert newsplit == Half(t, d);
            split := newsplit;
          }
          Thieves();
          psplit := newsplit;
          return false;
        }
      }
      Thieves();
      allstolen := true;
      Thieves();
      pallstolen := true;
      return true;
    }

    /** The end of SYNC_SLOW on task d, which is not shared: half of the tasks below it are
        shared if more work was asked for. */
    method Grow(d: nat)
      requires Valid(d + 1) && !pallstolen && psplit <= d
      modifies this
      ensures Valid(d) && !pallstolen && d !in claimed && old(tail) <= tail
      ensures Shares(old(psplit), d, split, old(movesplit), movesplit)
    {
      if movesplit {
        var diff := (d - psplit + 1) / 2;
        psplit := psplit + diff;
        split := U32(split + diff);
        Thieves();
        movesplit := false;
      }
    }

    /** SYNC and SYNC_SLOW on the top slot, up to running or leapfrogging its task: the
        owner runs the task exactly when no thief has it, and it never shares it. */
    method Sync(h: nat) returns (r: Outcome, ghost p: nat)
      requires Valid(h) && h > 0
      modifies this
      ensures r == RunIt ==> Valid(h - 1) && !pallstolen && split < h && h - 1 !in claimed
      ensures r == Leapfrog ==> Valid(h) && pallstolen && h - 1 in claimed
      ensures r == RunIt ==> Settled(old(psplit), old(tail), tail, h - 1, p) && Shares(p, h - 1, split, old(movesplit), movesplit)
    {
      hide Halved;
      var d := h - 1;
      p := psplit;
      if !movesplit && psplit <= d {
        return RunIt, p;
      }
      Thieves();
      if pallstolen {
        return Leapfrog, p;
      }
      ghost var lo := tail;
      if psplit > d {
        var lost := ShrinkShared(d);
        if lost {
          return Leapfrog, p;
        }
      }
      p := psplit;
      ghost var hi := tail;
      Grow(d);
      HalvedMore(lo, hi, old(tail), tail, d, p);
      return RunIt, p;
    }

    /** The end of lace_leapfrog on slot d, after any nested operations have brought the
        head back to d + 1: if the deque is open then tail = split = head. */
    method LeapPop(d: nat)
      requires Valid(d + 1) && d in claimed
      modifies this
      ensures Valid(d) && pallstolen && split == old(split) && psplit == old(psplit)
      ensures !old(pallstolen) ==> tail == split == psplit == d + 1
    {
      if !pallstolen {
        allstolen := true;
        Thieves();
        pallstolen := true;
      }
    }

    /** lace_make_all_shared. */
    method MakeAllShared(h: nat)
      requires Valid(h)
      modifies this
      ensures Valid(h) && psplit == h && pallstolen == old(pallstolen)
      ensures !pallstolen ==> split == h
    {
      if psplit != h {
        psplit := h;
        split := U32(h);
        Thieves();
      }
    }
  }
}
