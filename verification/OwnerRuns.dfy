/**
 What a whole SPAWN or SYNC does to the deque of its worker (src/lace.h): alone, and in every
 run of the work-stealing system, with thieves between any two of its loads and stores.
 */
module OwnerRuns {
  import opened Helpers
  import opened SplitDeque
  import opened Sequential
  import opened ForkJoin
  import opened ForkJoinProof

  // ---------------------------------------------------------------- alone

  /** How many loads and stores an operation has at most before it. */
  function Rank(pc: Pc): nat {
    match pc
    case SpawnCheck(_) => 5
    case SpawnClear(_, _) => 4
    case SpawnPublish(_) => 3
    case SpawnUnflag(_) => 2
    case SpawnPrivate(_) => 1
    case SpawnGrow(_) => 2
    case SpawnGrown(_, _) => 1
    case SyncSlow(_) => 9
    case ShrinkRead(_) => 8
    case ShrinkStore(_, _, _) => 7
    case ShrinkReread(_, _, _) => 6
    case ShrinkRestore(_, _, _) => 5
    case ShrinkSet(_, _) => 4
    case ShrinkLost(_) => 2
    case ShrinkLostPrivate(_) => 1
    case SlowCheck(_) => 3
    case SlowGrow(_) => 2
    case SlowGrown(_) => 1
    case LeapPost(_) => 3
    case LeapPostPublic(_) => 2
    case LeapPostPrivate(_) => 1
    case _ => 0
  }

  lemma RankFalls(q: Deque, pc: Pc)
    ensures Stepping(pc) <==> Rank(pc) > 0
    ensures Stepping(pc) ==> Rank(Advance(q, pc).1) < Rank(pc)
  {
  }

  /** The owner goes on alone to the end of its operation. */
  function Finish(q: Deque, pc: Pc): (Deque, Pc)
    decreases Rank(pc)
  {
    RankFalls(q, pc);
    if Stepping(pc) then var (q', pc') := Advance(q, pc); Finish(q', pc') else (q, pc)
  }

  /** SPAWN alone: all was stolen, and the shared part starts anew with the task; or more work
      was asked for, and the split moves half the way to the head; or nothing changes. */
  lemma SpawnAlone(q: Deque, h: nat, b: nat)
    requires DequeInv(q, SpawnCheck(h), b)
    ensures Finish(q, SpawnCheck(h)).1 == Idle(h + 1)
    ensures Finish(q, SpawnCheck(h)).0 ==
            if q.pallstolen then
              q.(tail := h, split := h + 1, psplit := h + 1, allstolen := false, pallstolen := false, movesplit := false)
            else if q.movesplit then
              q.(split := (q.split + h + 2) / 2, psplit := (q.split + h + 2) / 2, movesplit := false)
            else q
  {
    hide SlotsOk, ClaimsOk, ClaimedToTail, AllClaimed;
    if q.pallstolen {
      SpawnRestart(q, h, q.movesplit);
    } else if q.movesplit {
      var q1 := q.(split := (q.split + h + 2) / 2);
      assert Finish(q1, SpawnGrown(h, q1.split)) == (q1.(psplit := q1.split, movesplit := false), Idle(h + 1));
    }
  }

  lemma SpawnRestart(q: Deque, h: nat, seen: bool)
    requires seen == q.movesplit && h + 1 < WORD
    ensures Finish(q, SpawnClear(h, seen)) ==
            (q.(tail := h, split := h + 1, psplit := h + 1, allstolen := false, pallstolen := false, movesplit := false), Idle(h + 1))
  {
    var q1 := q.(movesplit := false);
    var q2 := q1.(tail := h, split := h + 1);
    var q3 := q2.(allstolen := false);
    assert Finish(q3, SpawnPrivate(h)) == (q3.(psplit := h + 1, pallstolen := false), Idle(h + 1));
    assert Finish(q2, SpawnUnflag(h)) == Finish(q3, SpawnPrivate(h));
    assert Finish(q1, SpawnPublish(h)) == Finish(q2, SpawnUnflag(h));
  }

  /** The split half the way from p to the head d of the private part. */
  function Grown(p: nat, d: nat): nat
    requires p <= d
  {
    p + (d - p + 1) / 2
  }

  /** What SYNC_SLOW makes of the split before it grows it. */
  function Shrunk(q: Deque, d: nat): nat {
    if q.psplit > d then (q.tail + d + 1) / 2 else q.psplit
  }

  lemma SyncStolenFrom(q: Deque, d: nat)
    requires q.pallstolen || (q.psplit > d && q.tail == q.split)
    ensures Finish(q, SyncSlow(d)) == (if q.pallstolen then q else q.(allstolen := true, pallstolen := true), LeapRead(d))
  {
    if !q.pallstolen {
      var q1 := q.(allstolen := true);
      assert Finish(q1, ShrinkLostPrivate(d)) == (q1.(pallstolen := true), LeapRead(d));
      assert Finish(q, ShrinkRead(d)) == Finish(q, ShrinkLost(d));
    }
  }

  /** SYNC_SLOW alone, when the task is stolen for certain. */
  lemma SyncStolenAlone(q: Deque, d: nat, b: nat)
    requires DequeInv(q, SyncSlow(d), b) && (q.pallstolen || (q.psplit > d && q.tail == q.split))
    ensures Finish(q, SyncSlow(d)) == (q.(allstolen := true, pallstolen := true), LeapRead(d))
  {
    hide Finish, SlotsOk, ClaimsOk, ClaimedToTail, AllClaimed;
    SyncStolenFrom(q, d);
  }

  lemma SlowAlone(q: Deque, d: nat)
    requires q.psplit == q.split <= d < WORD
    ensures Finish(q, SlowCheck(d)) == (if q.movesplit
              then q.(psplit := Grown(q.split, d), split := Grown(q.split, d), movesplit := false) else q, SyncPop(d))
  {
    if q.movesplit {
      var p := Grown(q.split, d);
      var q1 := q.(psplit := p, split := p);
      assert Finish(q1, SlowGrown(d)) == (q1.(movesplit := false), SyncPop(d));
    }
  }

  lemma ShrinkAlone(q: Deque, d: nat)
    requires q.tail < q.split == d + 1 && q.tail + d + 1 < WORD
    ensures var p := (q.tail + d + 1) / 2; p <= d && Finish(q, ShrinkRead(d)) == Finish(q.(split := p, psplit := p), SlowCheck(d))
  {
    var p := (q.tail + d + 1) / 2;
    var q0 := q.(split := p);
    assert Finish(q0, ShrinkSet(d, p)) == Finish(q0.(psplit := p), SlowCheck(d));
    assert Finish(q0, ShrinkReread(d, d + 1, p)) == Finish(q0, ShrinkSet(d, p));
    assert Finish(q, ShrinkStore(d, q.tail, d + 1)) == Finish(q0, ShrinkReread(d, d + 1, p));
  }

  lemma SlowParts(q: Deque, d: nat, b: nat)
    requires DequeInv(q, SyncSlow(d), b) && !q.pallstolen
    ensures q.tail <= q.split == q.psplit <= d + 1 && d < |q.slots| < SIZE_LIMIT
  {
  }

  lemma SlowStarts(q: Deque, d: nat)
    requires !q.pallstolen
    ensures Finish(q, SyncSlow(d)) == Finish(q, if q.psplit > d then ShrinkRead(d) else SlowCheck(d))
  {
  }

  lemma SyncOwnFrom(q: Deque, d: nat)
    requires q.tail <= q.split == q.psplit <= d + 1 < SIZE_LIMIT && !q.pallstolen && (q.psplit > d ==> q.tail != q.split)
    ensures Shrunk(q, d) <= d && Finish(q, SyncSlow(d)).1 == SyncPop(d)
    ensures var p := if q.movesplit then Grown(Shrunk(q, d), d) else Shrunk(q, d);
            Finish(q, SyncSlow(d)).0 == q.(psplit := p, split := p, movesplit := false)
  {
    hide Finish;
    SlowStarts(q, d);
    var p := Shrunk(q, d);
    if q.psplit > d {
      ShrinkAlone(q, d);
    }
    SlowAlone(q.(split := p, psplit := p), d);
  }

  /** SYNC_SLOW alone, when the task is not stolen: half of the shared part is taken back if the
      task is in it, and half of the private part is shared if more work was asked for. */
  lemma SyncOwnAlone(q: Deque, d: nat, b: nat)
    requires DequeInv(q, SyncSlow(d), b) && !q.pallstolen && (q.psplit > d ==> q.tail != q.split)
    ensures Shrunk(q, d) <= d && Finish(q, SyncSlow(d)).1 == SyncPop(d)
    ensures var p := if q.movesplit then Grown(Shrunk(q, d), d) else Shrunk(q, d);
            Finish(q, SyncSlow(d)).0 == q.(psplit := p, split := p, movesplit := false)
  {
    hide Finish, SlotsOk, ClaimsOk, Shape;
    SlowParts(q, d, b);
    SyncOwnFrom(q, d);
  }

  // ---------------------------------------------------------------- with thieves

  /** What thieves can do to a deque between two steps of its owner. */
  predicate Raced(q: Deque, q': Deque) {
    && q'.split == q.split && q'.psplit == q.psplit
    && q'.allstolen == q.allstolen && q'.pallstolen == q.pallstolen
    && (q.movesplit ==> q'.movesplit)
    && q.tail <= q'.tail && (q'.tail == q.tail || q'.tail <= q.split)
  }

  lemma StealRaces(q: Deque, w: nat, stack: seq<Frame>, spurious: bool)
    requires stack != [] && Last(stack).StealF? && SpcEnabled(Last(stack).spc, |q.slots|) && |q.slots| < SIZE_LIMIT
    requires Last(stack).spc.Swapping? ==> Last(stack).spc.tail < Last(stack).spc.split
    ensures Raced(q, StealNext(q, w, stack, spurious).0)
  {
  }

  /** While a worker is inside an operation, a step of the system either takes the operation one
      step further or leaves the worker where it is, its deque raced by a thief. */
  lemma StepOrRace(body: Body, s: System, s': System, w: nat)
    requires Inv(body, s) && Next(body, s, s') && w < |s.workers| && Stepping(s.workers[w].pc)
    ensures |s'.workers| == |s.workers|
    ensures var me, me' := s.workers[w], s'.workers[w];
            (me'.dq, me'.pc) == Advance(me.dq, me.pc) || (me'.pc == me.pc && Raced(me.dq, me'.dq))
  {
    hide Advance, StealNext, Local, BodyNext;
    var u: nat, a :| Enabled(body, s, u, a) && s' == Perform(body, s, u, a);
    if a.StealStep? {
      var f, m := Last(s.workers[u].stack), |s.workers[u].stack| - 1;
      assert Holds(s, u) && FrameHolds(s, u, m, f);
      SizeOf(body, s, f.victim);
      StealRaces(s.workers[f.victim].dq, u, s.workers[u].stack, a.spurious);
    }
  }

  lemma SizeOf(body: Body, s: System, w: nat)
    requires Inv(body, s) && w < |s.workers|
    ensures |s.workers[w].dq.slots| < SIZE_LIMIT && DequeInv(s.workers[w].dq, s.workers[w].pc, 0)
  {
    assert Local(body, s.workers[w]);
  }

  /** Between states j and k of a run worker w is inside one operation. */
  ghost predicate Inside(body: Body, n: nat, size: nat, run: seq<System>, j: nat, k: nat, w: nat) {
    && size < SIZE_LIMIT && Run(body, n, size, run) && j <= k < |run| && w < n
    && (forall i :: 0 <= i < |run| ==> w < |run[i].workers|)
    && forall i :: j <= i < k ==> Stepping(run[i].workers[w].pc)
  }

  lemma InsideStep(body: Body, n: nat, size: nat, run: seq<System>, j: nat, k: nat, w: nat)
    requires Inside(body, n, size, run, j, k, w) && j < k
    ensures var me, me' := run[k - 1].workers[w], run[k].workers[w];
            && DequeInv(me.dq, me.pc, 0) && Stepping(me.pc)
            && ((me'.dq, me'.pc) == Advance(me.dq, me.pc) || (me'.pc == me.pc && Raced(me.dq, me'.dq)))
  {
    hide Inv, Next, DequeInv, Advance;
    RunInv(body, n, size, run, k - 1);
    assert Next(body, run[k - 1], run[k - 1 + 1]);
    StepOrRace(body, run[k - 1], run[k], w);
    SizeOf(body, run[k - 1], w);
  }

  /** The own steps of worker w between states j and k. */
  ghost function OwnSteps(run: seq<System>, j: nat, k: nat, w: nat): nat
    requires j <= k < |run| && forall i :: 0 <= i < |run| ==> w < |run[i].workers|
  {
    if j == k then 0
    else OwnSteps(run, j, k - 1, w) + if run[k].workers[w].pc != run[k - 1].workers[w].pc then 1 else 0
  }

  /** No operation takes more than nine steps of its worker, whatever thieves do meanwhile. */
  lemma {:induction false} OperationEnds(body: Body, n: nat, size: nat, run: seq<System>, j: nat, k: nat, w: nat)
    requires Inside(body, n, size, run, j, k, w)
    ensures OwnSteps(run, j, k, w) + Rank(run[k].workers[w].pc) <= Rank(run[j].workers[w].pc) <= 9
    decreases k - j
  {
    hide Next, DequeInv, Advance;
    if j < k {
      OperationEnds(body, n, size, run, j, k - 1, w);
      InsideStep(body, n, size, run, j, k, w);
      RankFalls(run[k - 1].workers[w].dq, run[k - 1].workers[w].pc);
    }
  }

  // ---------------------------------------------------------------- SPAWN with thieves

  /** Where a SPAWN at head h is that made its check on deque q0, and what has become of it. */
  predicate SpawnTrack(q0: Deque, h: nat, q: Deque, pc: Pc) {
    match pc
    case SpawnClear(i, seen) => i == h && q0.pallstolen && seen == q0.movesplit
    case SpawnPublish(i) => i == h && q0.pallstolen
    case SpawnUnflag(i) => i == h && q0.pallstolen && q.split == h + 1
    case SpawnPrivate(i) => i == h && q0.pallstolen && q.split == h + 1
    case SpawnGrow(i) => i == h && !q0.pallstolen && q0.movesplit && q.split == q.psplit == q0.split
    case SpawnGrown(i, p) => i == h && !q0.pallstolen && q0.movesplit && q.split == p == (q0.split + h + 2) / 2
    case Idle(i) => i == h + 1 && Spawned(q0, h, q)
    case _ => false
  }

  /** What SPAWN leaves: a new shared part with the one task after all was stolen, a shared part
      that reaches half the way to the head when more work was asked for, or the old one. */
  predicate Spawned(q0: Deque, h: nat, q: Deque) {
    && q.psplit == q.split && !q.pallstolen
    && q.split == (if q0.pallstolen then h + 1 else if q0.movesplit then (q0.split + h + 2) / 2 else q0.split)
    && (!q0.pallstolen && q0.movesplit ==> !q.movesplit)
  }

  lemma SpawnTrackStep(q0: Deque, h: nat, q: Deque, pc: Pc, q': Deque, pc': Pc)
    requires DequeInv(q, pc, 0) && Stepping(pc) && (SpawnTrack(q0, h, q, pc) || (q == q0 && pc == SpawnCheck(h)))
    requires (q', pc') == Advance(q, pc) || (pc' == pc && Raced(q, q') && pc != SpawnCheck(h))
    ensures SpawnTrack(q0, h, q', pc')
  {
    hide SlotsOk, ClaimsOk, ClaimedToTail, AllClaimed;
  }

  lemma {:induction false} SpawnTracked(body: Body, n: nat, size: nat, run: seq<System>, j: nat, k: nat, w: nat, h: nat)
    requires Inside(body, n, size, run, j, k, w) && j < k
    requires run[j].workers[w].pc == SpawnCheck(h) != run[j + 1].workers[w].pc
    ensures SpawnTrack(run[j].workers[w].dq, h, run[k].workers[w].dq, run[k].workers[w].pc)
    decreases k
  {
    hide Next, DequeInv, SpawnTrack, Advance, Raced;
    InsideStep(body, n, size, run, j, k, w);
    if j + 1 < k {
      SpawnTracked(body, n, size, run, j, k - 1, w, h);
      NotAgain(run[j].workers[w].dq, h, run[k - 1].workers[w].dq, run[k - 1].workers[w].pc);
    }
    SpawnTrackStep(run[j].workers[w].dq, h, run[k - 1].workers[w].dq, run[k - 1].workers[w].pc,
                   run[k].workers[w].dq, run[k].workers[w].pc);
  }

  lemma NotAgain(q0: Deque, h: nat, q: Deque, pc: Pc)
    requires SpawnTrack(q0, h, q, pc)
    ensures pc != SpawnCheck(h)
  {
  }

  /** Every SPAWN of every run: it ends with the head raised by one and with the split that
      `Spawned` says, by what it found when it looked. */
  lemma SpawnOutcome(body: Body, n: nat, size: nat, run: seq<System>, j: nat, k: nat, w: nat, h: nat)
    requires Inside(body, n, size, run, j, k, w) && j < k && !Stepping(run[k].workers[w].pc)
    requires run[j].workers[w].pc == SpawnCheck(h) != run[j + 1].workers[w].pc
    ensures run[k].workers[w].pc == Idle(h + 1) && Spawned(run[j].workers[w].dq, h, run[k].workers[w].dq)
  {
    hide Next;
    SpawnTracked(body, n, size, run, j, k, w, h);
  }

  // ---------------------------------------------------------------- SYNC with thieves

  function Half(t: nat, d: nat): nat {
    (t + d + 1) / 2
  }

  /** p is half the way from a tail that there was since q0 to the head. */
  ghost predicate Halved(q0: Deque, d: nat, q: Deque, p: nat) {
    exists t: nat :: q0.tail <= t <= q.tail && p == Half(t, d)
  }

  /** The split before SYNC_SLOW grows it. */
  ghost predicate Settled(q0: Deque, d: nat, q: Deque, p: nat) {
    && p <= d && !q0.pallstolen
    && (if q0.psplit > d then Halved(q0, d, q, p) else p == q0.psplit)
  }

  ghost predicate SyncTrack(q0: Deque, d: nat, q: Deque, pc: Pc) {
    && q0.tail <= q.tail
    && match pc
       case ShrinkRead(i) => i == d && !q0.pallstolen && q0.psplit > d && (q0.movesplit ==> q.movesplit)
       case ShrinkStore(i, t, s) => i == d && !q0.pallstolen && q0.psplit > d && q0.tail <= t <= q.tail && s == d + 1
                                    && (q0.movesplit ==> q.movesplit)
       case ShrinkReread(i, s, p) => i == d && !q0.pallstolen && q0.psplit > d && s == d + 1 && Halved(q0, d, q, p)
                                     && (q0.movesplit ==> q.movesplit)
       case ShrinkRestore(i, t, s) => i == d && !q0.pallstolen && q0.psplit > d && q0.tail <= t <= q.tail && s == d + 1
                                      && (q0.movesplit ==> q.movesplit)
       case ShrinkSet(i, p) => i == d && Settled(q0, d, q, p) && q0.psplit > d && (q0.movesplit ==> q.movesplit)
       case SlowCheck(i) => i == d && Settled(q0, d, q, q.psplit) && (q0.movesplit ==> q.movesplit)
       case SlowGrow(i) => i == d && Settled(q0, d, q, q.psplit)
       case SlowGrown(i) => i == d && SplitGrown(q0, d, q)
       case SyncPop(i) => i == d && (Settled(q0, d, q, q.psplit) || SplitGrown(q0, d, q))
                          && (q0.movesplit ==> SplitGrown(q0, d, q) && !q.movesplit)
       case ShrinkLost(i) => i == d && !q0.pallstolen && q0.psplit > d
       case ShrinkLostPrivate(i) => i == d && !q0.pallstolen && q0.psplit > d
       case LeapRead(i) => i == d && q.pallstolen && (!q0.pallstolen ==> q0.psplit > d)
       case _ => false
  }

  /** The split was grown half the way to the task that is popped. */
  ghost predicate SplitGrown(q0: Deque, d: nat, q: Deque) {
    exists p: nat :: Settled(q0, d, q, p) && q.psplit == Grown(p, d)
  }

  lemma SettledRaced(q0: Deque, d: nat, q: Deque, q': Deque, p: nat)
    requires q.tail <= q'.tail
    ensures Halved(q0, d, q, p) ==> Halved(q0, d, q', p)
    ensures Settled(q0, d, q, p) ==> Settled(q0, d, q', p)
  {
    if Halved(q0, d, q, p) {
      var t: nat :| q0.tail <= t <= q.tail && p == Half(t, d);
      assert q0.tail <= t <= q'.tail && p == Half(t, d);
    }
  }

  lemma SyncTrackRaced(q0: Deque, d: nat, q: Deque, pc: Pc, q': Deque)
    requires SyncTrack(q0, d, q, pc) && Raced(q, q') && Stepping(pc)
    ensures SyncTrack(q0, d, q', pc)
  {
    hide Halved, Settled;
    forall p: nat ensures Halved(q0, d, q, p) ==> Halved(q0, d, q', p) {
      SettledRaced(q0, d, q, q', p);
    }
    forall p: nat ensures Settled(q0, d, q, p) ==> Settled(q0, d, q', p) {
      SettledRaced(q0, d, q, q', p);
    }
  }

  lemma HalvedAt(q0: Deque, d: nat, q: Deque, t: nat)
    requires q0.tail <= t <= q.tail
    ensures Halved(q0, d, q, Half(t, d))
  {
  }

  lemma SyncTrackStart(q: Deque, d: nat)
    requires DequeInv(q, SyncSlow(d), 0)
    ensures SyncTrack(q, d, Advance(q, SyncSlow(d)).0, Advance(q, SyncSlow(d)).1)
  {
    hide SlotsOk, ClaimsOk, ClaimedToTail, AllClaimed;
  }

  lemma ShrinkTrackStep(q0: Deque, d: nat, q: Deque, pc: Pc)
    requires DequeInv(q, pc, 0) && SyncTrack(q0, d, q, pc)
    requires pc.ShrinkRead? || pc.ShrinkStore? || pc.ShrinkReread? || pc.ShrinkRestore? || pc.ShrinkSet?
    ensures SyncTrack(q0, d, Advance(q, pc).0, Advance(q, pc).1)
  {
    hide SlotsOk, ClaimsOk, ClaimedToTail, AllClaimed, Halved;
    if pc.ShrinkStore? || pc.ShrinkRestore? {
      HalvedAt(q0, d, q, pc.tail);
    }
    forall p: nat ensures Halved(q0, d, q, p) ==> Halved(q0, d, Advance(q, pc).0, p) {
      SettledRaced(q0, d, q, Advance(q, pc).0, p);
    }
  }

  lemma SlowTrackStep(q0: Deque, d: nat, q: Deque, pc: Pc)
    requires DequeInv(q, pc, 0) && SyncTrack(q0, d, q, pc) && Stepping(pc)
    requires pc.SlowCheck? || pc.SlowGrow? || pc.SlowGrown? || pc.ShrinkLost? || pc.ShrinkLostPrivate?
    ensures SyncTrack(q0, d, Advance(q, pc).0, Advance(q, pc).1)
  {
    hide SlotsOk, ClaimsOk, ClaimedToTail, AllClaimed, Settled;
    forall p: nat ensures Settled(q0, d, q, p) ==> Settled(q0, d, Advance(q, pc).0, p) {
      SettledRaced(q0, d, q, Advance(q, pc).0, p);
    }
    assert pc.SlowGrow? ==> Advance(q, pc).0.psplit == Grown(q.psplit, d);
  }

  lemma {:induction false} SyncTracked(body: Body, n: nat, size: nat, run: seq<System>, j: nat, k: nat, w: nat, d: nat)
    requires Inside(body, n, size, run, j, k, w) && j < k
    requires run[j].workers[w].pc == SyncSlow(d) != run[j + 1].workers[w].pc
    ensures SyncTrack(run[j].workers[w].dq, d, run[k].workers[w].dq, run[k].workers[w].pc)
    decreases k
  {
    hide Next, DequeInv, SyncTrack, Advance, Raced;
    InsideStep(body, n, size, run, j, k, w);
    var q0, q, pc := run[j].workers[w].dq, run[k - 1].workers[w].dq, run[k - 1].workers[w].pc;
    if j + 1 == k {
      SyncTrackStart(q0, d);
    } else {
      SyncTracked(body, n, size, run, j, k - 1, w, d);
      if run[k].workers[w].pc == pc && Raced(q, run[k].workers[w].dq) {
        SyncTrackRaced(q0, d, q, pc, run[k].workers[w].dq);
      } else {
        TrackKinds(q0, d, q, pc);
        if pc.ShrinkRead? || pc.ShrinkStore? || pc.ShrinkReread? || pc.ShrinkRestore? || pc.ShrinkSet? {
          ShrinkTrackStep(q0, d, q, pc);
        } else {
          SlowTrackStep(q0, d, q, pc);
        }
      }
    }
  }

  lemma TrackKinds(q0: Deque, d: nat, q: Deque, pc: Pc)
    requires SyncTrack(q0, d, q, pc) && Stepping(pc)
    ensures pc.ShrinkRead? || pc.ShrinkStore? || pc.ShrinkReread? || pc.ShrinkRestore? || pc.ShrinkSet?
            || pc.SlowCheck? || pc.SlowGrow? || pc.SlowGrown? || pc.ShrinkLost? || pc.ShrinkLostPrivate?
  {
  }

  /** Every SYNC_SLOW of every run. If the worker saw its deque allstolen, or its task in the
      shared part and all of that stolen, it leapfrogs; else it pops the task, after it has taken
      back half of the shared part if the task was in it, and after it has shared half of the
      private part if more work was asked for. */
  lemma SyncOutcome(body: Body, n: nat, size: nat, run: seq<System>, j: nat, k: nat, w: nat, d: nat)
    requires Inside(body, n, size, run, j, k, w) && j < k && !Stepping(run[k].workers[w].pc)
    requires run[j].workers[w].pc == SyncSlow(d) != run[j + 1].workers[w].pc
    ensures var q0, q, pc := run[j].workers[w].dq, run[k].workers[w].dq, run[k].workers[w].pc;
            && (pc == LeapRead(d) || pc == SyncPop(d))
            && (q0.pallstolen ==> pc == LeapRead(d))
            && (pc == LeapRead(d) ==> q.pallstolen && (!q0.pallstolen ==> q0.psplit > d))
            && (pc == SyncPop(d) ==>
                  && (Settled(q0, d, q, q.psplit) || SplitGrown(q0, d, q))
                  && (q0.movesplit ==> SplitGrown(q0, d, q) && !q.movesplit))
  {
    hide Next, Settled, SplitGrown;
    SyncTracked(body, n, size, run, j, k, w, d);
    SettledOpen(run[j].workers[w].dq, d, run[k].workers[w].dq);
  }

  lemma SettledOpen(q0: Deque, d: nat, q: Deque)
    ensures Settled(q0, d, q, q.psplit) || SplitGrown(q0, d, q) ==> !q0.pallstolen
  {
  }
}
