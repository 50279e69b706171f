/**
 lace_get_head: recovering the deque head from the slots (src/lace.c).
 */
module GetHead {
  import opened Helpers
  import opened SplitDeque
  import opened Sequential
  import opened ForkJoin
  import opened ForkJoinProof

  /** The linear scan that lace_get_head replaces: the first empty slot, or the end. */
  function FirstEmpty(dq: seq<Slot>): nat {
    if dq == [] || dq[0].thief == Empty then 0 else 1 + FirstEmpty(dq[1..])
  }

  /** Slots are full up to some point and empty from there on, as at every task body. */
  ghost predicate FullToHead(dq: seq<Slot>) {
    forall i, j :: 0 <= i < j < |dq| && dq[i].thief == Empty ==> dq[j].thief == Empty
  }

  lemma {:induction false} FirstEmptyBounds(dq: seq<Slot>)
    ensures FirstEmpty(dq) <= |dq|
    ensures forall i :: 0 <= i < FirstEmpty(dq) ==> dq[i].thief != Empty
    ensures FirstEmpty(dq) < |dq| ==> dq[FirstEmpty(dq)].thief == Empty
  {
    if dq != [] && dq[0].thief != Empty {
      FirstEmptyBounds(dq[1..]);
      forall i | 0 <= i < FirstEmpty(dq) ensures dq[i].thief != Empty {
        if i > 0 {
          assert dq[i] == dq[1..][i - 1];
        }
      }
    }
  }

  lemma FirstEmptyUnique(dq: seq<Slot>, h: nat)
    requires h <= |dq|
    requires forall i :: 0 <= i < h ==> dq[i].thief != Empty
    requires h < |dq| ==> dq[h].thief == Empty
    ensures h == FirstEmpty(dq)
  {
    FirstEmptyBounds(dq);
  }

  /** Four probes, then a gallop in powers of two, then a binary search. */
  method GetHead(dq: seq<Slot>) returns (head: nat)
    requires 4 <= |dq| && FullToHead(dq)
    ensures head == FirstEmpty(dq)
  {
    if dq[0].thief == Empty { FirstEmptyUnique(dq, 0); return 0; }
    if dq[1].thief == Empty { FirstEmptyUnique(dq, 1); return 1; }
    if dq[2].thief == Empty { FirstEmptyUnique(dq, 2); return 2; }
    if dq[3].thief == Empty { FirstEmptyUnique(dq, 3); return 3; }
    var low, high := 2, |dq|;
    while true
      invariant 2 <= low < high == |dq|
      invariant dq[low].thief != Empty
      decreases high - low
    {
      if low * 2 >= high {
        break;
      } else if dq[low * 2].thief == Empty {
        high := low * 2;
        break;
      } else {
        low := low * 2;
      }
    }
    assert dq[low].thief != Empty;
    while low < high
      invariant 0 < low <= high <= |dq|
      invariant dq[low - 1].thief != Empty
      invariant high < |dq| ==> dq[high].thief == Empty
    {
      var mid := low + (high - low) / 2;
      if dq[mid].thief == Empty {
        high := mid;
      } else {
        low := mid + 1;
      }
    }
    FirstEmptyUnique(dq, low);
    return low;
  }

  lemma HeadOfDeque(q: Deque, h: nat, b: nat)
    requires DequeInv(q, Idle(h), b)
    ensures FullToHead(q.slots) && FirstEmpty(q.slots) == h
  {
    FirstEmptyUnique(q.slots, h);
  }

  /** In every reachable state of the system, a worker between two deque operations finds by
      this scan exactly the head that its task body holds, also when the deque is full. */
  lemma HeadInEveryRun(body: Body, n: nat, size: nat, run: seq<System>, k: nat, w: nat)
    requires size < SIZE_LIMIT && Run(body, n, size, run) && k < |run| && w < n
    ensures |run[k].workers| == n
    ensures var me := run[k].workers[w];
            me.pc.Idle? ==> FullToHead(me.dq.slots) && FirstEmpty(me.dq.slots) == me.pc.h
  {
    hide DequeInv, FullToHead, FirstEmpty;
    RunInv(body, n, size, run, k);
    var me := run[k].workers[w];
    assert Local(body, me);
    if me.pc.Idle? {
      HeadOfDeque(me.dq, me.pc.h, 0);
    }
  }
}
