/**
 What stealing achieves in the work-stealing system (src/lace.h): in every reachable state in
 which a worker tries to steal from a victim with shared work, it can take the task, run it and
 hand its value back to the owner. Each lemma continues a given run by steps of the named
 workers only.
 */
module StealRuns {
  import opened Helpers
  import opened SplitDeque
  import opened Sequential
  import opened ForkJoin
  import opened ForkJoinProof

  lemma Extend(body: Body, n: nat, size: nat, run: seq<System>, w: nat, a: Action) returns (run': seq<System>)
    requires Run(body, n, size, run) && Enabled(body, Last(run), w, a)
    ensures run' == run + [Perform(body, Last(run), w, a)] && Run(body, n, size, run')
  {
    var s' := Perform(body, Last(run), w, a);
    assert Next(body, Last(run), s');
    hide Next;
    run' := run + [s'];
    forall k | 0 <= k < |run'| - 1 ensures Next(body, run'[k], run'[k + 1]) {
      assert k < |run| - 1 ==> Next(body, run[k], run[k + 1]);
    }
  }

  /** Worker w is in a call of lace_steal on victim v. */
  predicate Stealing(s: System, w: nat, v: nat, spc: StealPc) {
    && w < |s.workers| && v < |s.workers| && s.workers[w].stack != []
    && Last(s.workers[w].stack).StealF? && Last(s.workers[w].stack).victim == v && Last(s.workers[w].stack).spc == spc
  }

  /** The same system but for the deque of v and the call stack of w. */
  function Changed(s: System, v: nat, q: Deque, w: nat, stack: seq<Frame>): System
    requires v < |s.workers| && w < |s.workers|
  {
    SetStack(SetDeque(s, v, q), w, stack)
  }

  lemma ThiefStep(body: Body, n: nat, size: nat, run: seq<System>, w: nat, v: nat, spc: StealPc) returns (run': seq<System>)
    requires Run(body, n, size, run) && Stealing(Last(run), w, v, spc)
    requires SpcEnabled(spc, |Last(run).workers[v].dq.slots|)
    ensures Run(body, n, size, run') && run <= run' && |run'| == |run| + 1
    ensures var (q, stack) := StealNext(Last(run).workers[v].dq, w, Last(run).workers[w].stack, false);
            Last(run') == Changed(Last(run), v, q, w, stack)
  {
    hide StealNext;
    run' := Extend(body, n, size, run, w, StealStep(false));
  }

  lemma ChangedTwice(s: System, v: nat, q: Deque, w: nat, stack: seq<Frame>, q': Deque, stack': seq<Frame>)
    requires v < |s.workers| && w < |s.workers|
    ensures Changed(s, v, s.workers[v].dq, w, s.workers[w].stack) == s
    ensures Changed(Changed(s, v, q, w, stack), v, q', w, stack') == Changed(s, v, q', w, stack')
    ensures |Changed(s, v, q, w, stack).workers| == |s.workers|
    ensures Changed(s, v, q, w, stack).workers[v].dq == q && Changed(s, v, q, w, stack).workers[w].stack == stack
  {
    assert Changed(s, v, s.workers[v].dq, w, s.workers[w].stack).workers == s.workers;
    assert Changed(Changed(s, v, q, w, stack), v, q', w, stack').workers == Changed(s, v, q', w, stack').workers;
  }

  /** A worker that has nothing to do, or that waits for a stolen task, can try to steal from
      any worker. */
  lemma StealBegins(body: Body, n: nat, size: nat, run: seq<System>, w: nat, v: nat) returns (run': seq<System>)
    requires Run(body, n, size, run) && w < |Last(run).workers| && v < |Last(run).workers|
    requires Last(run).workers[w].pc.Idle? && AtLoop(Last(run).workers[w].stack)
    ensures Run(body, n, size, run') && run <= run' && |run'| == |run| + 1 && Stealing(Last(run'), w, v, Looking)
    ensures Front(Last(run').workers[w].stack) == Last(run).workers[w].stack
    ensures |Last(run').workers| == |Last(run).workers| && Last(run').workers[v].dq == Last(run).workers[v].dq
  {
    hide Next, BodyNext, Advance, StealNext, BodyEnabled, Returning;
    run' := Extend(body, n, size, run, w, StealBegin(v));
  }

  /** The deque of a victim after the slot at its tail was taken: only the tail, that slot's
      claim and the count of claims have changed. */
  predicate Taken(q: Deque, w: nat, depth: nat, q': Deque) {
    && q.tail < |q.slots| == |q'.slots|
    && q' == q.(tail := q.tail + 1, slots := q'.slots, claims := q.claims + multiset{q.slots[q.tail].id})
    && q'.slots[q.tail] == q.slots[q.tail].(claim := Stolen(w, depth))
    && forall i :: 0 <= i < |q.slots| && i != q.tail ==> q'.slots[i] == q.slots[i]
  }

  lemma TopSet(stack: seq<Frame>, f: Frame)
    requires stack != []
    ensures SetTop(stack, f) != [] && Last(SetTop(stack, f)) == f && Front(SetTop(stack, f)) == Front(stack)
    ensures |SetTop(stack, f)| == |stack|
  {
  }

  lemma Shared(body: Body, n: nat, size: nat, run: seq<System>, v: nat)
    requires size < SIZE_LIMIT && Run(body, n, size, run) && v < |Last(run).workers|
    requires var q := Last(run).workers[v].dq; q.tail < q.split
    ensures var q := Last(run).workers[v].dq; q.tail < |q.slots| < SIZE_LIMIT
  {
    hide Next;
    RunInv(body, n, size, run, |run| - 1);
    assert Local(body, Last(run).workers[v]);
    StealableSlot(Last(run).workers[v].dq, Last(run).workers[v].pc, 0);
  }

  /** A thief that finds shared work, undisturbed, takes the oldest task of its victim. */
  lemma StealSucceeds(body: Body, n: nat, size: nat, run: seq<System>, w: nat, v: nat) returns (run': seq<System>)
    requires size < SIZE_LIMIT && Run(body, n, size, run) && Stealing(Last(run), w, v, Looking)
    requires var q := Last(run).workers[v].dq; !q.allstolen && q.tail < q.split
    ensures Run(body, n, size, run') && run <= run' && |run'| == |run| + 3
    ensures var s := Last(run);
            && |Last(run').workers| == |s.workers|
            && Taken(s.workers[v].dq, w, |s.workers[w].stack| - 1, Last(run').workers[v].dq)
            && Stealing(Last(run'), w, v, Won(s.workers[v].dq.tail))
            && Last(run') == Changed(s, v, Last(run').workers[v].dq, w, Last(run').workers[w].stack)
            && Front(Last(run').workers[w].stack) == Front(s.workers[w].stack)
  {
    hide Next;
    var s := Last(run);
    var q, stack := s.workers[v].dq, s.workers[w].stack;
    var f := Last(stack);
    Shared(body, n, size, run, v);
    var st1 := SetTop(stack, f.(spc := Loading));
    var st2 := SetTop(stack, f.(spc := Swapping(q.tail, q.split)));
    var st3 := SetTop(stack, f.(spc := Won(q.tail)));
    var q3 := StealNext(q, w, st2, false).0;
    TopSet(stack, f.(spc := Loading));
    TopSet(stack, f.(spc := Swapping(q.tail, q.split)));
    TopSet(stack, f.(spc := Won(q.tail)));
    ChangedTwice(s, v, q, w, st1, q, st2);
    ChangedTwice(s, v, q, w, st2, q3, st3);
    run' := ThiefStep(body, n, size, run, w, v, Looking);
    assert Last(run') == Changed(s, v, q, w, st1);
    run' := ThiefStep(body, n, size, run', w, v, Loading);
    assert Last(run') == Changed(s, v, q, w, st2);
    run' := ThiefStep(body, n, size, run', w, v, Swapping(q.tail, q.split));
    assert Last(run') == Changed(s, v, q3, w, st3);
    ChangedTwice(s, v, q3, w, st3, q3, st3);
  }

  /** The slot of a thief that has won it. */
  lemma HeldSlot(body: Body, n: nat, size: nat, run: seq<System>, w: nat, v: nat, spc: StealPc, i: nat)
    requires size < SIZE_LIMIT && Run(body, n, size, run) && Stealing(Last(run), w, v, spc)
    requires spc == Won(i) || (spc.Storing? && spc.i == i)
    ensures i < |Last(run).workers[v].dq.slots|
    ensures spc == Won(i) ==> Last(run).workers[v].dq.slots[i].data == Args(Last(run).workers[v].dq.slots[i].task)
  {
    hide Next, Local;
    var s := Last(run);
    RunInv(body, n, size, run, |run| - 1);
    assert Holds(s, w) && FrameHolds(s, w, |s.workers[w].stack| - 1, Last(s.workers[w].stack));
  }

  /** The thief then begins the body of the task that was spawned into the slot. */
  lemma StolenTaskRuns(body: Body, n: nat, size: nat, run: seq<System>, w: nat, v: nat, i: nat) returns (run': seq<System>)
    requires size < SIZE_LIMIT && Run(body, n, size, run) && Stealing(Last(run), w, v, Won(i)) && v != w
    ensures Run(body, n, size, run') && run <= run' && |run'| == |run| + 2 && i < |Last(run).workers[v].dq.slots|
    ensures var s := Last(run); var q, stack := s.workers[v].dq, s.workers[w].stack; var t := q.slots[i].task;
            Last(run') == Changed(s, v, q.(slots := q.slots[i := q.slots[i].(thief := By(w))]), w,
                                  SetTop(stack, Last(stack).(spc := Running(i, t))) + [BodyF(Last(stack).base, t, [], [])])
  {
    hide Next;
    var s := Last(run);
    var q, stack := s.workers[v].dq, s.workers[w].stack;
    var f := Last(stack);
    HeldSlot(body, n, size, run, w, v, f.spc, i);
    var t := q.slots[i].task;
    var q1 := q.(slots := q.slots[i := q.slots[i].(thief := By(w))]);
    var st1 := SetTop(stack, f.(spc := Reading(i)));
    var st2 := SetTop(stack, f.(spc := Running(i, t))) + [BodyF(f.base, t, [], [])];
    TopSet(stack, f.(spc := Reading(i)));
    ChangedTwice(s, v, q1, w, st1, q1, st2);
    run' := ThiefStep(body, n, size, run, w, v, Won(i));
    assert Last(run') == Changed(s, v, q1, w, st1);
    run' := ThiefStep(body, n, size, run', w, v, Reading(i));
  }

  /** When the body has returned, the thief stores the value and reports the task as done. */
  lemma StolenValueStored(body: Body, n: nat, size: nat, run: seq<System>, w: nat, v: nat, i: nat, t: int, x: int)
    returns (run': seq<System>)
    requires size < SIZE_LIMIT && Run(body, n, size, run) && Stealing(Last(run), w, v, Storing(i, t, x)) && v != w
    ensures Run(body, n, size, run') && run <= run' && |run'| == |run| + 2 && i < |Last(run).workers[v].dq.slots|
    ensures var s := Last(run); var q := s.workers[v].dq;
            Last(run') == Changed(s, v, q.(slots := q.slots[i := q.slots[i].(thief := Completed, data := Res(x))]), w,
                                  Front(s.workers[w].stack))
  {
    hide Next;
    var s := Last(run);
    var q, stack := s.workers[v].dq, s.workers[w].stack;
    var f := Last(stack);
    HeldSlot(body, n, size, run, w, v, f.spc, i);
    var q1 := q.(slots := q.slots[i := q.slots[i].(data := Res(x))]);
    var q2 := q.(slots := q.slots[i := q.slots[i].(thief := Completed, data := Res(x))]);
    var st1 := SetTop(stack, f.(spc := Finishing(i, t, x)));
    TopSet(stack, f.(spc := Finishing(i, t, x)));
    ChangedTwice(s, v, q1, w, st1, q2, Front(stack));
    assert SetThief(q1, i, Completed).slots == q2.slots;
    run' := ThiefStep(body, n, size, run, w, v, Storing(i, t, x));
    assert Last(run') == Changed(s, v, q1, w, st1);
    run' := ThiefStep(body, n, size, run', w, v, Finishing(i, t, x));
  }

  /** A thief that finds no shared work asks for some, and gives up. */
  lemma AsksForWork(body: Body, n: nat, size: nat, run: seq<System>, w: nat, v: nat) returns (run': seq<System>)
    requires Run(body, n, size, run) && Stealing(Last(run), w, v, Looking) && v != w
    requires var q := Last(run).workers[v].dq; !q.allstolen && q.split <= q.tail && !q.movesplit
    ensures Run(body, n, size, run') && run <= run' && |run'| == |run| + 4
    ensures var s := Last(run);
            Last(run') == Changed(s, v, s.workers[v].dq.(movesplit := true), w, Front(s.workers[w].stack))
  {
    hide Next;
    var s := Last(run);
    var q, stack := s.workers[v].dq, s.workers[w].stack;
    var f := Last(stack);
    var st1, st2 := SetTop(stack, f.(spc := Loading)), SetTop(stack, f.(spc := Asking));
    var st3 := SetTop(stack, f.(spc := Requesting));
    TopSet(stack, f.(spc := Loading));
    TopSet(stack, f.(spc := Asking));
    TopSet(stack, f.(spc := Requesting));
    ChangedTwice(s, v, q, w, st1, q, st2);
    ChangedTwice(s, v, q, w, st2, q, st3);
    ChangedTwice(s, v, q, w, st3, q.(movesplit := true), Front(stack));
    assert StealNext(q, w, stack, false) == (q, st1) && StealNext(q, w, st1, false) == (q, st2);
    assert StealNext(q, w, st2, false) == (q, st3) && StealNext(q, w, st3, false) == (q.(movesplit := true), Front(stack));
    hide StealNext, Changed, SetTop;
    run' := ThiefStep(body, n, size, run, w, v, Looking);
    assert Last(run') == Changed(s, v, q, w, st1);
    run' := ThiefStep(body, n, size, run', w, v, Loading);
    assert Last(run') == Changed(s, v, q, w, st2);
    run' := ThiefStep(body, n, size, run', w, v, Asking);
    assert Last(run') == Changed(s, v, q, w, st3);
    run' := ThiefStep(body, n, size, run', w, v, Requesting);
  }

  // ---------------------------------------------------------------- the owner

  /** lace_make_all_shared: afterwards every task of the worker can be stolen, unless its deque
      is allstolen. */
  lemma AllShared(body: Body, n: nat, size: nat, run: seq<System>, w: nat) returns (run': seq<System>)
    requires size < SIZE_LIMIT && Run(body, n, size, run) && w < |Last(run).workers| && AtBody(Last(run).workers[w])
    ensures Run(body, n, size, run') && run <= run' && |Last(run').workers| == |Last(run).workers|
    ensures var me, me' := Last(run).workers[w], Last(run').workers[w];
            && me'.pc == me.pc && me'.stack == me.stack && me'.dq.slots == me.dq.slots && me'.dq.tail == me.dq.tail
            && me'.dq.psplit == me.pc.h && (!me.dq.pallstolen ==> me'.dq.split == me.pc.h)
  {
    hide Next;
    RunInv(body, n, size, run, |run| - 1);
    assert Local(body, Last(run).workers[w]);
    ShareAllKeeps(Last(run).workers[w].dq, Last(run).workers[w].pc.h, 0);
    hide Inv, DequeInv, BodyNext, Advance, StealNext;
    run' := Extend(body, n, size, run, w, ShareStep);
  }

  /** Worker w leapfrogs on slot d. */
  predicate Leaping(s: System, w: nat, d: nat) {
    && w < |s.workers| && s.workers[w].pc == Idle(d + 1)
    && s.workers[w].stack != [] && Last(s.workers[w].stack) == LeapF(d)
  }

  function SetMe(s: System, w: nat, me: Worker): System
    requires w < |s.workers|
  {
    s.(workers := s.workers[w := me])
  }

  lemma OwnerStep(body: Body, n: nat, size: nat, run: seq<System>, w: nat, a: Action) returns (run': seq<System>)
    requires Run(body, n, size, run) && w < |Last(run).workers| && OwnEnabled(body, Last(run).workers[w], a)
    requires a == OwnStep || a == LeapCheck || a == LeapFinish || a == LeapStart
    ensures Run(body, n, size, run') && run <= run' && |run'| == |run| + 1
    ensures Last(run') == SetMe(Last(run), w, OwnNext(body, Last(run).workers[w], a))
  {
    hide OwnNext, OwnEnabled;
    run' := Extend(body, n, size, run, w, a);
  }

  /** A SYNC whose task a thief is running begins to leapfrog. */
  lemma LeapBegins(body: Body, n: nat, size: nat, run: seq<System>, w: nat, d: nat) returns (run': seq<System>)
    requires size < SIZE_LIMIT && Run(body, n, size, run) && w < |Last(run).workers| && Last(run).workers[w].pc == LeapRead(d)
    requires d < |Last(run).workers[w].dq.slots| && Last(run).workers[w].dq.slots[d].thief.By?
    ensures Run(body, n, size, run') && run <= run' && Leaping(Last(run'), w, d)
    ensures Last(run').workers[w].dq == Last(run).workers[w].dq && Front(Last(run').workers[w].stack) == Last(run).workers[w].stack
  {
    hide Next;
    RunInv(body, n, size, run, |run| - 1);
    assert Local(body, Last(run).workers[w]);
    run' := OwnerStep(body, n, size, run, w, LeapStart);
  }

  /** What is below a leapfrogging activation: the body whose SYNC it serves. */
  lemma BelowLeap(body: Body, n: nat, size: nat, run: seq<System>, w: nat, d: nat)
    requires size < SIZE_LIMIT && Run(body, n, size, run) && Leaping(Last(run), w, d)
    ensures var me := Last(run).workers[w];
            && d < |me.dq.slots| && |me.stack| > 1
            && Last(Front(me.stack)).BodyF? && Last(Front(me.stack)).pend != []
  {
    hide Next;
    RunInv(body, n, size, run, |run| - 1);
    var me := Last(run).workers[w];
    assert Local(body, me);
    var m := |me.stack| - 1;
    assert m > 0;
    assert Link(body, me.stack[m - 1], me.stack[m]);
  }

  /** The end of lace_leapfrog, up to the point where the result is read. */
  lemma LeapEnds(body: Body, n: nat, size: nat, run: seq<System>, w: nat, d: nat) returns (run': seq<System>)
    requires Run(body, n, size, run) && w < |Last(run).workers| && Last(run).workers[w].pc == LeapPost(d)
    ensures Run(body, n, size, run') && run <= run'
    ensures var me := Last(run).workers[w];
            Last(run') == SetMe(Last(run), w, me.(pc := LeapEnd(d), dq := if me.dq.pallstolen then me.dq
                                                                          else me.dq.(allstolen := true, pallstolen := true)))
  {
    hide Next;
    var s := Last(run);
    run' := OwnerStep(body, n, size, run, w, OwnStep);
    if !s.workers[w].dq.pallstolen {
      run' := OwnerStep(body, n, size, run', w, OwnStep);
      run' := OwnerStep(body, n, size, run', w, OwnStep);
    }
  }

  /** A SYNC whose stolen task is reported as done gets the value that is in the slot, and its
      body goes on with it. */
  lemma LeapReceives(body: Body, n: nat, size: nat, run: seq<System>, w: nat, d: nat, x: int) returns (run': seq<System>)
    requires size < SIZE_LIMIT && Run(body, n, size, run) && Leaping(Last(run), w, d) && d < |Last(run).workers[w].dq.slots|
    requires Last(run).workers[w].dq.slots[d].thief == Completed && Last(run).workers[w].dq.slots[d].data == Res(x)
    ensures Run(body, n, size, run') && run <= run' && |Last(run').workers| == |Last(run).workers|
    ensures |Last(run).workers[w].stack| > 1 && Last(Front(Last(run).workers[w].stack)).BodyF?
    ensures var me, me' := Last(run).workers[w], Last(run').workers[w]; var f := Last(Front(me.stack));
            && me'.pc == Idle(d) && |me'.dq.slots| == |me.dq.slots| && me'.dq.slots[d].thief == Empty
            && me'.stack == SetTop(Front(me.stack), f.(hist := f.hist + [x], pend := Front(f.pend)))
  {
    hide Next;
    BelowLeap(body, n, size, run, w, d);
    var s := Last(run);
    var stack := s.workers[w].stack;
    run' := OwnerStep(body, n, size, run, w, LeapCheck);
    assert Last(run').workers[w].pc == LeapPost(d) && Last(run').workers[w].stack == Front(stack);
    run' := LeapEnds(body, n, size, run', w, d);
    run' := OwnerStep(body, n, size, run', w, LeapFinish);
  }

  /** A stolen task's value gets from the thief, which has it, to the body that spawned it. */
  lemma StolenValueArrives(body: Body, n: nat, size: nat, run: seq<System>, w: nat, v: nat, d: nat, t: int, x: int)
    returns (run': seq<System>)
    requires size < SIZE_LIMIT && Run(body, n, size, run) && Stealing(Last(run), w, v, Storing(d, t, x)) && v != w
    requires Leaping(Last(run), v, d)
    ensures Run(body, n, size, run') && run <= run' && |Last(run').workers| == |Last(run).workers|
    ensures |Last(run).workers[v].stack| > 1 && Last(Front(Last(run).workers[v].stack)).BodyF?
    ensures var me, me' := Last(run).workers[v], Last(run').workers[v]; var f := Last(Front(me.stack));
            me'.pc == Idle(d) && me'.stack == SetTop(Front(me.stack), f.(hist := f.hist + [x], pend := Front(f.pend)))
  {
    hide Next;
    run' := StolenValueStored(body, n, size, run, w, v, d, t, x);
    run' := LeapReceives(body, n, size, run', v, d, x);
  }
}
