/**
 A run of one worker and its thieves in which a frame loses the private split:
 lace_shrink_shared loses its race, the leapfrogged task is popped, and the worker enters
 and leaves a frame while the public split is below its head (src/lace.c:1153 and
 src/lace.c:1181 with src/lace.h:625-642). The SYNC after that runs a stolen task again.
 */
module FrameCounterexample {
  import opened SplitDeque
  import opened Frames
  import opened NestedFrames

  datatype Point = Point(q: Deque, pc: Pc)

  ghost predicate Moves(p: Point, p': Point) {
    || (exists a :: OwnerCan(p.q, p.pc, 0, a) && (p'.q, p'.pc) == OwnerDo(p.q, p.pc, 0, a))
    || (p'.pc == p.pc && exists r :: ThiefCan(p.q, LiveHead(p.pc), r) && p'.q == ThiefDo(p.q, LiveHead(p.pc), r))
  }

  /** The worker can get there from its initial deque. */
  ghost predicate Reachable(size: nat, q: Deque, pc: Pc) {
    exists run: seq<Point> :: Path(size, run) && run[|run| - 1] == Point(q, pc)
  }

  ghost predicate Path(size: nat, run: seq<Point>) {
    && run != [] && run[0] == Point(EmptyDeque(size), Idle(0))
    && forall k :: 0 <= k < |run| - 1 ==> Moves(run[k], run[k + 1])
  }

  lemma Extend(size: nat, q: Deque, pc: Pc, p: Point)
    requires Reachable(size, q, pc) && Moves(Point(q, pc), p)
    ensures Reachable(size, p.q, p.pc)
  {
    var run: seq<Point> :| Path(size, run) && run[|run| - 1] == Point(q, pc);
    var run' := run + [p];
    assert Path(size, run') && run'[|run'| - 1] == Point(p.q, p.pc);
  }

  lemma OwnerGo(size: nat, q: Deque, pc: Pc, a: OwnerAct)
    requires Reachable(size, q, pc) && OwnerCan(q, pc, 0, a)
    ensures Reachable(size, OwnerDo(q, pc, 0, a).0, OwnerDo(q, pc, 0, a).1)
  {
    var (q', pc') := OwnerDo(q, pc, 0, a);
    Extend(size, q, pc, Point(q', pc'));
  }

  lemma ThiefGo(size: nat, q: Deque, pc: Pc, r: ThiefAct)
    requires Reachable(size, q, pc) && ThiefCan(q, LiveHead(pc), r)
    ensures Reachable(size, ThiefDo(q, LiveHead(pc), r), pc)
  {
    Extend(size, q, pc, Point(ThiefDo(q, LiveHead(pc), r), pc));
  }

  /** SPAWN on a deque that is not allstolen, with no request pending. */
  lemma SpawnOne(size: nat, q: Deque, h: nat) returns (q': Deque)
    requires Reachable(size, q, Idle(h)) && h < |q.slots|
    requires !q.pallstolen && !q.movesplit
    ensures q' == q.(slots := q.slots[h := Slot(q.next, 0, Task, Args(0), Unclaimed)], next := q.next + 1)
    ensures Reachable(size, q', Idle(h + 1))
  {
    OwnerGo(size, q, Idle(h), Spawn(0));
    q' := SpawnWrite(q, h, 0).0;
    OwnerGo(size, q', SpawnCheck(h), Step);
  }

  /** Three tasks, all of them shared by LACE_MAKE_ALL_SHARED. */
  lemma ThreeShared() returns (q: Deque)
    ensures Reachable(3, q, Idle(3)) && |q.slots| == 3
    ensures q.tail == 0 && q.split == q.psplit == 3 && !q.allstolen && !q.pallstolen && !q.movesplit
    ensures forall i :: 0 <= i < 3 ==> q.slots[i].thief == Task && q.slots[i].claim.Unclaimed?
  {
    var e := EmptyDeque(3);
    assert Path(3, [Point(e, Idle(0))]);
    assert [Point(e, Idle(0))][|[Point(e, Idle(0))]| - 1] == Point(e, Idle(0));
    var q1 := SpawnOne(3, e, 0);
    var q2 := SpawnOne(3, q1, 1);
    var q3 := SpawnOne(3, q2, 2);
    OwnerGo(3, q3, Idle(3), Share);
    q := ShareAll(q3, 3);
  }

  /** Three thieves take all three tasks while the owner stands before its first store. */
  lemma TakeAll(q: Deque, pc: Pc) returns (q': Deque)
    requires Reachable(3, q, pc) && |q.slots| == 3 && q.tail == 0 && q.split == 3
    requires forall i :: 0 <= i < 3 ==> q.slots[i].thief == Task && q.slots[i].claim.Unclaimed?
    ensures Reachable(3, q', pc) && |q'.slots| == 3
    ensures q' == q.(tail := 3, slots := q'.slots, claims := q'.claims)
    ensures forall i :: 0 <= i < 3 ==> q'.slots[i].thief == Task && q'.slots[i].claim.Stolen?
  {
    hide Reachable;
    ThiefGo(3, q, pc, Win(1, 0));
    var q1 := Take(q, 1, 0);
    ThiefGo(3, q1, pc, Win(2, 0));
    var q2 := Take(q1, 2, 0);
    ThiefGo(3, q2, pc, Win(3, 0));
    q' := Take(q2, 3, 0);
  }

  /** SYNC starts to shrink, and thieves take all three tasks before its first store. */
  lemma ShrinkLoses(q: Deque) returns (q': Deque)
    requires Reachable(3, q, Idle(3)) && |q.slots| == 3
    requires q.tail == 0 && q.split == q.psplit == 3 && !q.allstolen && !q.pallstolen && !q.movesplit
    requires forall i :: 0 <= i < 3 ==> q.slots[i].thief == Task && q.slots[i].claim.Unclaimed?
    ensures Reachable(3, q', ShrinkReread(2, 3, 1)) && |q'.slots| == 3
    ensures q'.tail == 3 && q'.split == 1 && q'.psplit == 3 && !q'.allstolen && !q'.pallstolen && !q'.movesplit
    ensures forall i :: 0 <= i < 3 ==> q'.slots[i].thief == Task && q'.slots[i].claim.Stolen?
  {
    hide Reachable;
    OwnerGo(3, q, Idle(3), Sync);
    OwnerGo(3, q, SyncSlow(2), Step);
    OwnerGo(3, q, ShrinkRead(2), Step);
    var pc := ShrinkStore(2, 0, 3);
    var q1 := TakeAll(q, pc);
    OwnerGo(3, q1, pc, Step);
    q' := Advance(q1, pc).0;
  }

  /** The owner gives up, leapfrogs, and pops the top task once its thief has finished. */
  lemma LeapAndPop(q: Deque) returns (q': Deque)
    requires Reachable(3, q, ShrinkReread(2, 3, 1)) && |q.slots| == 3
    requires q.tail == 3 && q.split == 1 && q.psplit == 3 && !q.allstolen && !q.pallstolen && !q.movesplit
    requires forall i :: 0 <= i < 3 ==> q.slots[i].thief == Task && q.slots[i].claim.Stolen?
    ensures Reachable(3, q', Idle(2)) && |q'.slots| == 3
    ensures q'.split == 1 && q'.allstolen && !q'.movesplit && q'.slots[1].claim.Stolen?
  {
    OwnerGo(3, q, ShrinkReread(2, 3, 1), Step);
    OwnerGo(3, q, ShrinkLost(2), Step);
    var q1 := q.(allstolen := true);
    OwnerGo(3, q1, ShrinkLostPrivate(2), Step);
    var q2 := q1.(pallstolen := true);
    ThiefGo(3, q2, LeapRead(2), Mark(2, By(3)));
    var q3 := SetThief(q2, 2, By(3));
    ThiefGo(3, q3, LeapRead(2), Put(2, 0));
    var q4 := SetResult(q3, 2, 0);
    ThiefGo(3, q4, LeapRead(2), Mark(2, Completed));
    var q5 := SetThief(q4, 2, Completed);
    OwnerGo(3, q5, LeapRead(2), LeapEnter);
    OwnerGo(3, q5, LeapEnd(2), LeapPop);
    q' := Release(q5, 2);
  }

  lemma MovesKeep(p: Point, p': Point)
    requires DequeInv(p.q, p.pc, 0) && Moves(p, p')
    ensures DequeInv(p'.q, p'.pc, 0)
  {
    hide DequeInv;
    if a :| OwnerCan(p.q, p.pc, 0, a) && (p'.q, p'.pc) == OwnerDo(p.q, p.pc, 0, a) {
      OwnerKeeps(p.q, p.pc, 0, a);
    } else {
      var r :| ThiefCan(p.q, LiveHead(p.pc), r) && p'.q == ThiefDo(p.q, LiveHead(p.pc), r);
      ThiefKeeps(p.q, p.pc, 0, r);
    }
  }

  lemma EmptyInv(size: nat)
    requires size < SIZE_LIMIT
    ensures DequeInv(EmptyDeque(size), Idle(0), 0)
  {
  }

  /** Whatever the worker reaches without frames has the invariant of its deque. */
  lemma {:induction false} PathInv(size: nat, run: seq<Point>)
    requires size < SIZE_LIMIT && Path(size, run)
    ensures DequeInv(run[|run| - 1].q, run[|run| - 1].pc, 0)
  {
    hide DequeInv, Moves;
    var m := |run| - 1;
    if m == 0 {
      EmptyInv(size);
    } else {
      PathInv(size, run[..m]);
      assert Moves(run[m - 1], run[m - 1 + 1]);
      MovesKeep(run[m - 1], run[m]);
    }
  }

  /** A reachable body point, a run of lace_exec_in_new_frame from there, and the SYNC after
      it: its fast path pops a stolen task, which is claimed a second time. */
  lemma FrameLosesSplit() returns (e: Deque, run: seq<seq<FrameState>>)
    ensures Reachable(3, e, Idle(2)) && FrameRun(e, 2, run)
    ensures |run| == 12 && |run[11]| == 1
    ensures var st := run[11][0]; var q := st.q;
            && st.f == Left(2) && |q.slots| == 3 && q.slots[1].claim.Stolen?
            && SyncBegin(q, 2) == SyncPop(1) && SplitDeque.Pop(q, 1).claims[q.slots[1].id] == 2
  {
    var q1 := ThreeShared();
    var q2 := ShrinkLoses(q1);
    e := LeapAndPop(q2);
    OnceSoFar(e);
    run := QuietFrame(e, 2);
  }

  lemma OnceSoFar(q: Deque)
    requires Reachable(3, q, Idle(2)) && |q.slots| == 3 && q.slots[1].claim.Stolen?
    ensures q.claims[q.slots[1].id] == 1
  {
    var run: seq<Point> :| Path(3, run) && run[|run| - 1] == Point(q, Idle(2));
    PathInv(3, run);
  }
}
