/**
 The converse of the fork-join meaning (src/lace.h): whenever the sequential recursion of a task
 has a value, the system has a run in which the task returns that value. One worker does it
 alone, on the fast paths of SPAWN and SYNC.
 */
module FastPath {
  import opened Helpers
  import opened SplitDeque
  import opened Sequential
  import opened ForkJoin
  import opened StealRuns

  /** Nothing of the deque is shared and nobody has asked for work. */
  predicate Private(q: Deque) {
    !q.movesplit && !q.pallstolen && q.psplit == 0
  }

  /** The slots from base on hold the arguments of the pending tasks. */
  predicate Pending(q: Deque, base: nat, pend: seq<int>) {
    && base + |pend| <= |q.slots|
    && forall j :: 0 <= j < |pend| ==> q.slots[base + j].data == Args(pend[j])
  }

  /** Slots below h are the same. */
  predicate Below(q: Deque, q': Deque, h: nat) {
    h <= |q.slots| == |q'.slots| && forall i :: 0 <= i < h ==> q'.slots[i] == q.slots[i]
  }

  /** Worker 0 is about to go on with a body; `under` is the rest of its call stack. */
  predicate AtBodyOf(s: System, under: seq<Frame>, base: nat, task: int, hist: seq<int>, pend: seq<int>, room: nat) {
    && s.workers != [] && under != []
    && var me := s.workers[0];
       && me.stack == under + [BodyF(base, task, hist, pend)] && me.pc == Idle(base + |pend|)
       && Private(me.dq) && Pending(me.dq, base, pend) && base + |pend| + room <= |me.dq.slots|
  }

  /** The body has returned v. */
  predicate HasReturned(s: System, s': System, under: seq<Frame>, base: nat, task: int, v: int)
    requires s.workers != [] && under != []
  {
    && |s'.workers| == |s.workers|
    && s'.workers[0].stack == Deliver(under, v) && s'.workers[0].pc == Idle(base)
    && Private(s'.workers[0].dq) && Below(s.workers[0].dq, s'.workers[0].dq, base)
    && s'.results == s.results + if Last(under).ExtF? then [Done(task, v)] else []
  }

  /** A step of worker 0 that changes nothing but itself. */
  lemma Mine(body: Body, n: nat, size: nat, run: seq<System>, a: Action) returns (run': seq<System>)
    requires Run(body, n, size, run) && Last(run).workers != [] && OwnEnabled(body, Last(run).workers[0], a)
    requires !a.StealBegin? && !Returning(body, Last(run).workers[0], a)
    ensures Run(body, n, size, run') && run <= run'
    ensures Last(run') == SetMe(Last(run), 0, OwnNext(body, Last(run).workers[0], a))
  {
    hide OwnNext, Next, Returning, BodyEnabled;
    run' := Extend(body, n, size, run, 0, a);
  }

  lemma SpawnFast(body: Body, n: nat, size: nat, run: seq<System>,
                  under: seq<Frame>, base: nat, task: int, hist: seq<int>, pend: seq<int>, room: nat)
    returns (run': seq<System>)
    requires Run(body, n, size, run) && AtBodyOf(Last(run), under, base, task, hist, pend, room)
    requires room > 0 && body(task, hist).Spawn?
    ensures Run(body, n, size, run') && run <= run' && Last(run').results == Last(run).results
    ensures AtBodyOf(Last(run'), under, base, task, hist + [0], pend + [body(task, hist).task], room - 1)
    ensures |Last(run').workers| == |Last(run).workers| && Below(Last(run).workers[0].dq, Last(run').workers[0].dq, base)
  {
    hide Next;
    var f := BodyF(base, task, hist, pend);
    assert Last(under + [f]) == f && Front(under + [f]) == under;
    run' := Mine(body, n, size, run, BodyStep);
    var mid := Last(run').workers[0];
    assert mid.pc == SpawnCheck(base + |pend|) && Private(mid.dq);
    run' := Mine(body, n, size, run', OwnStep);
  }

  lemma CallFast(body: Body, n: nat, size: nat, run: seq<System>,
                 under: seq<Frame>, base: nat, task: int, hist: seq<int>, pend: seq<int>, room: nat)
    returns (run': seq<System>)
    requires Run(body, n, size, run) && AtBodyOf(Last(run), under, base, task, hist, pend, room)
    requires room > 0 && body(task, hist).Call?
    ensures Run(body, n, size, run') && run <= run' && Last(run').results == Last(run).results
    ensures AtBodyOf(Last(run'), under + [BodyF(base, task, hist, pend)], base + |pend|, body(task, hist).task, [], [], room - 1)
    ensures |Last(run').workers| == |Last(run).workers| && Below(Last(run).workers[0].dq, Last(run').workers[0].dq, base)
    ensures Pending(Last(run').workers[0].dq, base, pend)
  {
    hide Next;
    var f := BodyF(base, task, hist, pend);
    assert Last(under + [f]) == f && Front(under + [f]) == under;
    run' := Mine(body, n, size, run, BodyStep);
  }

  lemma SyncFast(body: Body, n: nat, size: nat, run: seq<System>,
                 under: seq<Frame>, base: nat, task: int, hist: seq<int>, pend: seq<int>, room: nat)
    returns (run': seq<System>)
    requires Run(body, n, size, run) && AtBodyOf(Last(run), under, base, task, hist, pend, room)
    requires room > 0 && body(task, hist).Sync? && pend != []
    ensures Run(body, n, size, run') && run <= run' && Last(run').results == Last(run).results
    ensures AtBodyOf(Last(run'), under + [BodyF(base, task, hist, Front(pend))], base + |pend| - 1, Last(pend), [], [], room - 1)
    ensures |Last(run').workers| == |Last(run).workers| && Below(Last(run).workers[0].dq, Last(run').workers[0].dq, base)
    ensures Pending(Last(run').workers[0].dq, base, Front(pend))
  {
    hide Next;
    var f := BodyF(base, task, hist, pend);
    assert Last(under + [f]) == f && Front(under + [f]) == under;
    run' := Mine(body, n, size, run, BodyStep);
    assert Last(run').workers[0] == Last(run).workers[0].(pc := SyncPop(base + |pend| - 1));
    run' := Mine(body, n, size, run', PopStep);
  }

  lemma ReturnFast(body: Body, n: nat, size: nat, run: seq<System>,
                   under: seq<Frame>, base: nat, task: int, hist: seq<int>, room: nat)
    returns (run': seq<System>)
    requires Run(body, n, size, run) && AtBodyOf(Last(run), under, base, task, hist, [], room)
    requires body(task, hist).Return?
    ensures Run(body, n, size, run') && run <= run'
    ensures HasReturned(Last(run), Last(run'), under, base, task, body(task, hist).value)
  {
    hide Next;
    var f := BodyF(base, task, hist, []);
    assert Last(under + [f]) == f && Front(under + [f]) == under;
    run' := Extend(body, n, size, run, 0, BodyStep);
  }

  /** A value comes back to the body that called for it. */
  lemma Resumed(s: System, s': System, under: seq<Frame>, base: nat, task: int, hist: seq<int>, pend: seq<int>,
                sub: int, x: int, room: nat)
    requires under != [] && s.workers != []
    requires AtBodyOf(s, under + [BodyF(base, task, hist, pend)], base + |pend|, sub, [], [], room)
    requires Pending(s.workers[0].dq, base, pend)
    requires HasReturned(s, s', under + [BodyF(base, task, hist, pend)], base + |pend|, sub, x)
    ensures AtBodyOf(s', under, base, task, hist + [x], pend, room) && s'.results == s.results
    ensures |s'.workers| == |s.workers| && Below(s.workers[0].dq, s'.workers[0].dq, base)
  {
    var f := BodyF(base, task, hist, pend);
    assert Last(under + [f]) == f && Front(under + [f]) == under;
  }

  /** Nothing below base has changed on the way to a state from which the body returns. */
  lemma Chain(s: System, s1: System, s2: System, under: seq<Frame>, base: nat, task: int, v: int)
    requires under != [] && s.workers != [] && |s1.workers| == |s.workers| && s1.results == s.results
    requires Below(s.workers[0].dq, s1.workers[0].dq, base) && HasReturned(s1, s2, under, base, task, v)
    ensures HasReturned(s, s2, under, base, task, v)
  {
  }

  /** Worker 0 runs a body to its end, with everything the body spawns and calls. */
  lemma {:induction false} Serve(body: Body, n: nat, size: nat, run: seq<System>, under: seq<Frame>, base: nat,
                                 task: int, hist: seq<int>, pend: seq<int>, depth: nat, v: int)
    returns (run': seq<System>)
    requires Run(body, n, size, run) && AtBodyOf(Last(run), under, base, task, hist, pend, depth)
    requires Resume(body, task, hist, pend, depth) == Some(v)
    ensures Run(body, n, size, run') && run <= run'
    ensures HasReturned(Last(run), Last(run'), under, base, task, v)
    decreases depth, 1
  {
    hide Next, HasReturned, Below, Pending;
    match body(task, hist) {
      case Return(_) =>
        run' := ReturnFast(body, n, size, run, under, base, task, hist, depth);
      case Spawn(t) =>
        var run1 := SpawnFast(body, n, size, run, under, base, task, hist, pend, depth);
        run' := Serve(body, n, size, run1, under, base, task, hist + [0], pend + [t], depth - 1, v);
        Chain(Last(run), Last(run1), Last(run'), under, base, task, v);
      case Call(t) =>
        var run1 := CallFast(body, n, size, run, under, base, task, hist, pend, depth);
        run' := After(body, n, size, Last(run), run1, under, base, task, hist, pend, t, depth, v);
      case Sync =>
        var run1 := SyncFast(body, n, size, run, under, base, task, hist, pend, depth);
        run' := After(body, n, size, Last(run), run1, under, base, task, hist, Front(pend), Last(pend), depth, v);
    }
  }

  /** The body waits for a task `sub` that has just begun, and then goes on. */
  lemma {:induction false} After(body: Body, n: nat, size: nat, s: System, run: seq<System>, under: seq<Frame>, base: nat,
                                 task: int, hist: seq<int>, pend: seq<int>, sub: int, depth: nat, v: int)
    returns (run': seq<System>)
    requires Run(body, n, size, run) && under != [] && s.workers != [] && depth > 0
    requires |Last(run).workers| == |s.workers| && Last(run).results == s.results
    requires Below(s.workers[0].dq, Last(run).workers[0].dq, base) && Pending(Last(run).workers[0].dq, base, pend)
    requires AtBodyOf(Last(run), under + [BodyF(base, task, hist, pend)], base + |pend|, sub, [], [], depth - 1)
    requires Resume(body, sub, [], [], depth - 1).Some?
    requires Resume(body, task, hist + [Resume(body, sub, [], [], depth - 1).value], pend, depth - 1) == Some(v)
    ensures Run(body, n, size, run') && run <= run'
    ensures HasReturned(s, Last(run'), under, base, task, v)
    decreases depth, 0
  {
    hide Next, AtBodyOf, HasReturned, Pending, Resume;
    var x := Resume(body, sub, [], [], depth - 1).value;
    var inner := under + [BodyF(base, task, hist, pend)];
    var run1 := Serve(body, n, size, run, inner, base + |pend|, sub, [], [], depth - 1, x);
    Resumed(Last(run), Last(run1), under, base, task, hist, pend, sub, x, depth - 1);
    run' := Serve(body, n, size, run1, under, base, task, hist + [x], pend, depth - 1, v);
    Chain(s, Last(run1), Last(run'), under, base, task, v);
  }

  /** Whatever value the sequential recursion gives a task, the system can return it, with any
      number of workers and deques at least as large as the recursion is deep. */
  lemma ValueReturned(body: Body, n: nat, size: nat, task: int, depth: nat, v: int) returns (run: seq<System>)
    requires n > 0 && depth <= size && Resume(body, task, [], [], depth) == Some(v)
    ensures Run(body, n, size, run) && Last(run).results == [Done(task, v)]
  {
    hide Next, Resume;
    run := [Start(n, size)];
    run := Extend(body, n, size, run, 0, ExtBegin(task));
    assert Last(run).workers[0].stack == [ExtF(0, task)] + [BodyF(0, task, [], [])];
    run := Serve(body, n, size, run, [ExtF(0, task)], 0, task, [], [], depth, v);
  }
}
