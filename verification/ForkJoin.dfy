/**
 The work-stealing system: any number of workers, each with its own split deque and
 call stack, interleaved one atomic action at a time (src/lace.h, src/lace.c).

 A worker's call stack holds the activations of task bodies, of lace_leapfrog (inside
 a SYNC on a stolen task), of lace_steal and of lace_steal_external. Memory is
 sequentially consistent. A body that is not LIFO gets stuck, as does SPAWN on a full
 deque, which aborts the program.
 */
module ForkJoin {
  import opened Helpers
  import opened SplitDeque
  import opened Sequential

  /** Where a call of lace_steal is. */
  datatype StealPc =
    | Looking
    | Loading
    | Swapping(tail: nat, split: nat)
    | Asking
    | Requesting
    | Won(i: nat)
    | Reading(i: nat)
    | Running(i: nat, task: int)
    | Storing(i: nat, task: int, v: int)
    | Finishing(i: nat, task: int, v: int)

  /** `base` is the deque head with which the activation was entered. */
  datatype Frame =
    | BodyF(base: nat, task: int, hist: seq<int>, pend: seq<int>)
    | LeapF(d: nat)
    | StealF(base: nat, victim: nat, spc: StealPc)
    | ExtF(base: nat, task: int)

  datatype Worker = Worker(dq: Deque, pc: Pc, stack: seq<Frame>)

  datatype Done = Done(task: int, value: int)

  /** `results` lists the external tasks that have finished and what they returned. */
  datatype System = System(workers: seq<Worker>, results: seq<Done>)

  datatype Action =
    | OwnStep
    | BodyStep
    | ShareStep
    | PopStep
    | LeapStart
    | LeapCheck
    | LeapFinish
    | StealBegin(victim: nat)
    | ExtBegin(task: int)
    | StealStep(spurious: bool)

  /** lace_start: empty deques, workers in lace_steal_loop. */
  function Start(n: nat, size: nat): System {
    System(seq(n, _ => Worker(EmptyDeque(size), Idle(0), [])), [])
  }

  /** The word in the union, whichever member is read. */
  function Bits(d: Data): int {
    match d
    case Args(a) => a
    case Res(r) => r
  }

  function SetTop(stack: seq<Frame>, f: Frame): seq<Frame>
    requires stack != []
  {
    Front(stack) + [f]
  }

  function HeadOf(f: Frame): nat {
    match f
    case BodyF(base, _, _, pend) => base + |pend|
    case LeapF(d) => d + 1
    case StealF(base, _, _) => base
    case ExtF(base, _) => base
  }

  /** The head with which the next activation on the stack is entered. */
  function StackHead(stack: seq<Frame>): nat {
    if stack == [] then 0 else HeadOf(Last(stack))
  }

  // ------------------------------------------------------------------ the steps

  /** A body returns `v` to the activation that called it. */
  function Deliver(stack: seq<Frame>, v: int): seq<Frame>
    requires stack != []
  {
    match Last(stack)
    case BodyF(base, task, hist, pend) => SetTop(stack, BodyF(base, task, hist + [v], pend))
    case StealF(base, victim, Running(i, task)) => SetTop(stack, StealF(base, victim, Storing(i, task, v)))
    case _ => Front(stack)
  }

  predicate AtLoop(stack: seq<Frame>) {
    stack == [] || Last(stack).LeapF?
  }

  predicate AtBody(w: Worker) {
    w.pc.Idle? && w.stack != [] && Last(w.stack).BodyF?
  }

  predicate BodyEnabled(body: Body, w: Worker) {
    && AtBody(w)
    && var f := Last(w.stack);
       match body(f.task, f.hist)
       case Spawn(_) => w.pc.h < |w.dq.slots|
       case Sync => f.pend != [] && w.pc.h > 0
       case Call(_) => true
       case Return(_) => f.pend == [] && |w.stack| > 1
  }

  /** Actions of a worker on its own deque and stack. */
  predicate OwnEnabled(body: Body, w: Worker, a: Action) {
    match a
    case OwnStep => Stepping(w.pc)
    case BodyStep => BodyEnabled(body, w)
    case ShareStep => AtBody(w)
    case PopStep => w.pc.SyncPop? && Syncing(w)
    case LeapStart => w.pc.LeapRead? && Syncing(w)
    case LeapCheck => w.pc.Idle? && w.stack != [] && Last(w.stack).LeapF? && Last(w.stack).d < |w.dq.slots|
    case LeapFinish => w.pc.LeapEnd? && Syncing(w)
    case StealBegin(_) => w.pc.Idle? && AtLoop(w.stack)
    case ExtBegin(_) => w.pc.Idle? && AtLoop(w.stack)
    case StealStep(_) => false
  }

  predicate Syncing(w: Worker)
    requires w.pc.SyncPop? || w.pc.LeapRead? || w.pc.LeapEnd?
  {
    w.pc.d < |w.dq.slots| && w.stack != [] && Last(w.stack).BodyF? && Last(w.stack).pend != []
  }

  predicate Enabled(body: Body, s: System, w: nat, a: Action) {
    && w < |s.workers|
    && var me := s.workers[w];
       match a
       case StealBegin(v) => OwnEnabled(body, me, a) && v < |s.workers|
       case StealStep(_) => me.stack != [] && Last(me.stack).StealF? && StealEnabled(s, Last(me.stack))
       case _ => OwnEnabled(body, me, a)
  }

  predicate StealEnabled(s: System, f: Frame)
    requires f.StealF?
  {
    f.victim < |s.workers| && SpcEnabled(f.spc, |s.workers[f.victim].dq.slots|)
  }

  predicate SpcEnabled(spc: StealPc, size: nat) {
    match spc
    case Swapping(tail, _) => tail < size
    case Won(i) => i < size
    case Reading(i) => i < size
    case Running(_, _) => false
    case Storing(i, _, _) => i < size
    case Finishing(i, _, _) => i < size
    case _ => true
  }

  /** The next operation of a task body, up to its first atomic action. */
  function BodyNext(body: Body, w: Worker): Worker
    requires BodyEnabled(body, w)
  {
    var f := Last(w.stack);
    match body(f.task, f.hist)
    case Spawn(t) =>
      var (q, pc) := SpawnWrite(w.dq, w.pc.h, t);
      Worker(q, pc, SetTop(w.stack, BodyF(f.base, f.task, f.hist + [0], f.pend + [t])))
    case Sync => w.(pc := SyncBegin(w.dq, w.pc.h))
    case Call(t) => w.(stack := w.stack + [BodyF(w.pc.h, t, [], [])])
    case Return(v) => w.(stack := Deliver(Front(w.stack), v))
  }

  function OwnNext(body: Body, w: Worker, a: Action): Worker
    requires OwnEnabled(body, w, a)
  {
    match a
    case OwnStep =>
      var (q, pc) := Advance(w.dq, w.pc);
      w.(dq := q, pc := pc)
    case BodyStep => BodyNext(body, w)
    case ShareStep => w.(dq := ShareAll(w.dq, w.pc.h))
    case PopStep =>
      var f := Last(w.stack);
      var arg := Bits(w.dq.slots[w.pc.d].data);
      Worker(Pop(w.dq, w.pc.d), Idle(w.pc.d), SetTop(w.stack, f.(pend := Front(f.pend))) + [BodyF(w.pc.d, arg, [], [])])
    case LeapStart =>
      (match w.dq.slots[w.pc.d].thief
       case Completed => w.(pc := LeapEnd(w.pc.d))
       case By(_) => w.(pc := Idle(w.pc.d + 1), stack := w.stack + [LeapF(w.pc.d)])
       case _ => w)
    case LeapCheck =>
      var d := Last(w.stack).d;
      if w.dq.slots[d].thief == Completed then w.(pc := LeapPost(d), stack := Front(w.stack)) else w
    case LeapFinish =>
      var f := Last(w.stack);
      var v := Bits(w.dq.slots[w.pc.d].data);
      Worker(Release(w.dq, w.pc.d), Idle(w.pc.d), SetTop(w.stack, f.(hist := f.hist + [v], pend := Front(f.pend))))
    case StealBegin(v) => w.(stack := w.stack + [StealF(StackHead(w.stack), v, Looking)])
    case ExtBegin(t) => w.(stack := w.stack + [ExtF(StackHead(w.stack), t), BodyF(StackHead(w.stack), t, [], [])])
  }

  /** One atomic action of lace_steal: the victim's new deque and the thief's new stack. */
  function StealNext(q: Deque, w: nat, stack: seq<Frame>, spurious: bool): (Deque, seq<Frame>)
    requires stack != [] && Last(stack).StealF?
    requires SpcEnabled(Last(stack).spc, |q.slots|)
  {
    var f := Last(stack);
    match f.spc
    case Looking => (q, if q.allstolen then Front(stack) else SetTop(stack, f.(spc := Loading)))
    case Loading =>
      (q, if q.tail < q.split then SetTop(stack, f.(spc := Swapping(q.tail, q.split)))
          else SetTop(stack, f.(spc := Asking)))
    case Swapping(tail, split) =>
      if !spurious && q.tail == tail && q.split == split
      then (Take(q, w, |stack| - 1), SetTop(stack, f.(spc := Won(tail))))
      else (q, Front(stack))
    case Asking => (q, if q.movesplit then Front(stack) else SetTop(stack, f.(spc := Requesting)))
    case Requesting => (RequestSplit(q), Front(stack))
    case Won(i) => (SetThief(q, i, By(w)), SetTop(stack, f.(spc := Reading(i))))
    case Reading(i) =>
      var arg := Bits(q.slots[i].data);
      (q, SetTop(stack, f.(spc := Running(i, arg))) + [BodyF(f.base, arg, [], [])])
    case Storing(i, task, v) => (SetResult(q, i, v), SetTop(stack, f.(spc := Finishing(i, task, v))))
    case Finishing(i, task, v) => (SetThief(q, i, Completed), Front(stack))
  }

  function SetDeque(s: System, v: nat, q: Deque): System
    requires v < |s.workers|
  {
    s.(workers := s.workers[v := s.workers[v].(dq := q)])
  }

  function SetStack(s: System, w: nat, stack: seq<Frame>): System
    requires w < |s.workers|
  {
    s.(workers := s.workers[w := s.workers[w].(stack := stack)])
  }

  /** An external task's body is about to return. */
  predicate Returning(body: Body, w: Worker, a: Action) {
    && a.BodyStep? && BodyEnabled(body, w)
    && body(Last(w.stack).task, Last(w.stack).hist).Return?
    && w.stack[|w.stack| - 2].ExtF?
  }

  function Perform(body: Body, s: System, w: nat, a: Action): System
    requires Enabled(body, s, w, a)
  {
    var me := s.workers[w];
    if a.StealStep? then
      var v := Last(me.stack).victim;
      var (q, stack) := StealNext(s.workers[v].dq, w, me.stack, a.spurious);
      SetStack(SetDeque(s, v, q), w, stack)
    else
      System(s.workers[w := OwnNext(body, me, a)],
             if Returning(body, me, a)
             then s.results + [Done(Last(me.stack).task, body(Last(me.stack).task, Last(me.stack).hist).value)]
             else s.results)
  }

  ghost predicate Next(body: Body, s: System, s': System) {
    exists w, a :: Enabled(body, s, w, a) && s' == Perform(body, s, w, a)
  }

  /** A run of n workers with deques of the given size, in any interleaving. */
  ghost predicate Run(body: Body, n: nat, size: nat, run: seq<System>) {
    && run != [] && run[0] == Start(n, size)
    && forall k :: 0 <= k < |run| - 1 ==> Next(body, run[k], run[k + 1])
  }
}
