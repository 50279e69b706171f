/**
 The invariant of the work-stealing system and its consequences.
 */
module ForkJoinProof {
  import opened Helpers
  import opened SplitDeque
  import opened Sequential
  import opened ForkJoin

  // ------------------------------------------------------------------ invariant

  /** A claimed slot belongs to exactly one activation of lace_steal. */
  ghost predicate HeldBy(q: Deque, H: nat, w: nat, k: nat, i: nat) {
    Held(q, H, i) && q.slots[i].claim == Stolen(w, k)
  }

  ghost predicate Holding(q: Deque, H: nat, w: nat, k: nat, spc: StealPc) {
    match spc
    case Won(i) => HeldBy(q, H, w, k, i) && q.slots[i].data == Args(q.slots[i].task)
    case Reading(i) => HeldBy(q, H, w, k, i) && q.slots[i].data == Args(q.slots[i].task)
    case Running(i, t) => HeldBy(q, H, w, k, i) && q.slots[i].task == t
    case Storing(i, t, _) => HeldBy(q, H, w, k, i) && q.slots[i].task == t
    case Finishing(i, t, v) => HeldBy(q, H, w, k, i) && q.slots[i].task == t && q.slots[i].data == Res(v)
    case Swapping(tail, split) => tail < split && tail < |q.slots|
    case _ => true
  }

  /** A finished task holds the value of the sequential recursion. */
  ghost predicate ResultsOk(body: Body, q: Deque, H: nat)
    requires H <= |q.slots|
  {
    forall i :: 0 <= i < H && q.slots[i].thief == Completed ==>
      q.slots[i].data.Res? && Value(body, q.slots[i].task, q.slots[i].data.res)
  }

  function BaseOf(f: Frame): nat {
    if f.LeapF? then f.d + 1 else f.base
  }

  /** `g` is the activation entered by `f`. */
  ghost predicate Link(body: Body, f: Frame, g: Frame) {
    && BaseOf(g) == HeadOf(f)
    && match f
       case BodyF(_, t, hist, pend) =>
         || (g.BodyF? && forall x :: Value(body, g.task, x) ==> Sound(body, t, hist + [x], pend))
         || (g.LeapF? && pend != [] && body(t, hist).Sync? && Sound(body, t, hist, pend))
       case LeapF(_) => g.StealF? || g.ExtF?
       case StealF(_, _, spc) => spc.Running? && g.BodyF? && g.task == spc.task
       case ExtF(_, t) => g.BodyF? && g.task == t
  }

  predicate InSync(pc: Pc) {
    !pc.Idle? && !InSpawn(pc)
  }

  ghost predicate TopOk(body: Body, f: Frame, pc: Pc) {
    && HeadOf(f) == LiveHead(pc)
    && match f
       case BodyF(_, t, hist, pend) =>
         && Sound(body, t, hist, pend)
         && (InSync(pc) ==> pend != [] && body(t, hist).Sync?)
       case LeapF(_) => pc.Idle?
       case StealF(_, _, spc) =>
         && pc.Idle? && !spc.Running?
         && (spc.Storing? || spc.Finishing? ==> Value(body, spc.task, spc.v))
       case ExtF(_, _) => false
  }

  ghost predicate Linked(body: Body, stack: seq<Frame>) {
    forall k :: 0 <= k < |stack| - 1 ==> Link(body, stack[k], stack[k + 1])
  }

  ghost predicate StackOk(body: Body, stack: seq<Frame>, pc: Pc) {
    if stack == [] then pc == Idle(0)
    else
      && (stack[0].StealF? || stack[0].ExtF?) && stack[0].base == 0
      && Linked(body, stack)
      && TopOk(body, Last(stack), pc)
  }

  /** The slots of a body's spawned tasks hold exactly those tasks. */
  ghost predicate FramePend(q: Deque, f: Frame) {
    f.BodyF? ==>
      && f.base + |f.pend| <= |q.slots|
      && forall j :: 0 <= j < |f.pend| ==> q.slots[f.base + j].task == f.pend[j]
  }

  ghost predicate PendOk(q: Deque, stack: seq<Frame>) {
    forall k :: 0 <= k < |stack| ==> FramePend(q, stack[k])
  }

  ghost predicate Local(body: Body, w: Worker) {
    && DequeInv(w.dq, w.pc, 0)
    && ResultsOk(body, w.dq, LiveHead(w.pc))
    && StackOk(body, w.stack, w.pc)
    && PendOk(w.dq, w.stack)
  }

  ghost predicate FrameHolds(s: System, w: nat, k: nat, f: Frame) {
    f.StealF? ==>
      && f.victim < |s.workers|
      && Holding(s.workers[f.victim].dq, LiveHead(s.workers[f.victim].pc), w, k, f.spc)
  }

  ghost predicate Holds(s: System, w: nat)
    requires w < |s.workers|
  {
    forall k :: 0 <= k < |s.workers[w].stack| ==> FrameHolds(s, w, k, s.workers[w].stack[k])
  }

  ghost predicate Inv(body: Body, s: System) {
    && (forall w :: 0 <= w < |s.workers| ==> Local(body, s.workers[w]))
    && (forall w :: 0 <= w < |s.workers| ==> Holds(s, w))
    && (forall r :: 0 <= r < |s.results| ==> Value(body, s.results[r].task, s.results[r].value))
  }

  // -------------------------------------------------------------- stack lemmas

  lemma PushLinked(body: Body, stack: seq<Frame>, f: Frame)
    requires Linked(body, stack)
    requires stack != [] ==> Link(body, Last(stack), f)
    ensures Linked(body, stack + [f])
  {
  }

  lemma {:induction false} HeadsBelow(body: Body, stack: seq<Frame>, k: nat)
    requires Linked(body, stack) && k < |stack|
    ensures HeadOf(stack[k]) <= HeadOf(Last(stack))
    decreases |stack| - k
  {
    if k < |stack| - 1 {
      assert Link(body, stack[k], stack[k + 1]);
      HeadsBelow(body, stack, k + 1);
    }
  }

  /** Owner actions leave every slot that a thief still works on alone. */
  ghost predicate KeepsHeld(q: Deque, H: nat, q': Deque, H': nat) {
    && |q'.slots| == |q.slots|
    && forall i: nat :: Held(q, H, i) ==> i < H' && q'.slots[i] == q.slots[i]
  }

  /** Steal activations on the stack are as before, except that a body has returned to one. */
  ghost predicate SameSteals(stack: seq<Frame>, stack': seq<Frame>, n: nat) {
    forall k :: 0 <= k < |stack'| && stack'[k].StealF? ==>
      || (stack'[k].spc.Looking? && stack'[k].victim < n)
      || (k < |stack| && (stack'[k] == stack[k] || ReturnedTo(stack[k], stack'[k])))
  }

  predicate ReturnedTo(f: Frame, f': Frame) {
    && f.StealF? && f'.StealF? && f.victim == f'.victim
    && f.spc.Running? && f'.spc.Storing? && f.spc.i == f'.spc.i && f.spc.task == f'.spc.task
  }

  // ------------------------------------------------------- actions on own state

  ghost predicate OwnOk(body: Body, w: Worker, a: Action, n: nat)
    requires OwnEnabled(body, w, a)
  {
    StepOk(body, w, OwnNext(body, w, a), n)
  }

  ghost predicate StepOk(body: Body, w: Worker, w': Worker, n: nat) {
    && Local(body, w')
    && KeepsHeld(w.dq, LiveHead(w.pc), w'.dq, LiveHead(w'.pc))
    && SameSteals(w.stack, w'.stack, n)
  }

  lemma SamePend(q: Deque, q': Deque, stack: seq<Frame>)
    requires PendOk(q, stack) && |q.slots| == |q'.slots|
    requires forall i :: 0 <= i < |q.slots| ==> q'.slots[i].task == q.slots[i].task
    ensures PendOk(q', stack)
  {
    forall k | 0 <= k < |stack| ensures FramePend(q', stack[k]) {
      assert FramePend(q, stack[k]);
    }
  }

  lemma OwnStepOk(body: Body, w: Worker, n: nat)
    requires Local(body, w) && Stepping(w.pc)
    ensures OwnOk(body, w, OwnStep, n)
  {
    AdvanceKeeps(w.dq, w.pc, 0);
    SamePend(w.dq, Advance(w.dq, w.pc).0, w.stack);
    AdvanceKind(w.dq, w.pc);
  }

  lemma AdvanceKind(q: Deque, pc: Pc)
    requires Stepping(pc)
    ensures InSync(Advance(q, pc).1) <==> InSync(pc)
  {
  }

  /** The activation below only looks at the task, the kind and the base of the top one. */
  lemma SetTopLinked(body: Body, stack: seq<Frame>, f: Frame)
    requires stack != [] && Linked(body, stack)
    requires |stack| > 1 ==> Link(body, stack[|stack| - 2], f)
    ensures Linked(body, SetTop(stack, f))
    ensures |SetTop(stack, f)| == |stack| && Last(SetTop(stack, f)) == f
    ensures forall k :: 0 <= k < |stack| - 1 ==> SetTop(stack, f)[k] == stack[k]
  {
    var t := SetTop(stack, f);
    forall k | 0 <= k < |t| - 1 ensures Link(body, t[k], t[k + 1]) {
      assert Link(body, stack[k], stack[k + 1]);
    }
  }

  lemma SpawnPend(body: Body, q: Deque, h: nat, t: int, stack: seq<Frame>, f: Frame)
    requires stack != [] && Linked(body, stack) && HeadOf(Last(stack)) == h < |q.slots| && PendOk(q, stack)
    requires Last(stack).BodyF? && f.BodyF? && f.base == Last(stack).base && f.pend == Last(stack).pend + [t]
    ensures PendOk(SpawnWrite(q, h, t).0, SetTop(stack, f))
  {
    var q' := SpawnWrite(q, h, t).0;
    var stack' := SetTop(stack, f);
    forall k | 0 <= k < |stack'| ensures FramePend(q', stack'[k]) {
      HeadsBelow(body, stack, k);
      assert FramePend(q, stack[k]);
    }
  }

  lemma SpawnOk(body: Body, w: Worker, n: nat)
    requires Local(body, w) && BodyEnabled(body, w)
    requires body(Last(w.stack).task, Last(w.stack).hist).Spawn?
    ensures OwnOk(body, w, BodyStep, n)
  {
    var f := Last(w.stack);
    var t := body(f.task, f.hist).task;
    var f' := BodyF(f.base, f.task, f.hist + [0], f.pend + [t]);
    if |w.stack| > 1 {
      assert Link(body, w.stack[|w.stack| - 2], w.stack[|w.stack| - 1]);
    }
    SetTopLinked(body, w.stack, f');
    SpawnPend(body, w.dq, w.pc.h, t, w.stack, f');
    SpawnWriteKeeps(w.dq, w.pc.h, t, 0);
    SoundSpawn(body, f.task, f.hist, f.pend);
    var w' := OwnNext(body, w, BodyStep);
    assert StackOk(body, w'.stack, w'.pc);
    assert ResultsOk(body, w'.dq, LiveHead(w'.pc));
  }

  lemma SyncOk(body: Body, w: Worker, n: nat)
    requires Local(body, w) && BodyEnabled(body, w)
    requires body(Last(w.stack).task, Last(w.stack).hist).Sync?
    ensures OwnOk(body, w, BodyStep, n)
  {
    SyncBeginKeeps(w.dq, w.pc.h, 0);
  }

  lemma CallOk(body: Body, w: Worker, n: nat)
    requires Local(body, w) && BodyEnabled(body, w)
    requires body(Last(w.stack).task, Last(w.stack).hist).Call?
    ensures OwnOk(body, w, BodyStep, n)
  {
    var f := Last(w.stack);
    var g := BodyF(w.pc.h, body(f.task, f.hist).task, [], []);
    SoundStart(body, g.task);
    forall x | Value(body, g.task, x) ensures Sound(body, f.task, f.hist + [x], f.pend) {
      SoundCall(body, f.task, f.hist, f.pend, x);
    }
    PushLinked(body, w.stack, g);
  }

  /** A returning body hands the value of its task to the activation below it. */
  lemma ReturnOk(body: Body, w: Worker, n: nat)
    requires Local(body, w) && BodyEnabled(body, w)
    requires body(Last(w.stack).task, Last(w.stack).hist).Return?
    ensures OwnOk(body, w, BodyStep, n)
    ensures Value(body, Last(w.stack).task, body(Last(w.stack).task, Last(w.stack).hist).value)
  {
    var f := Last(w.stack);
    SoundReturn(body, f.task, f.hist);
    DeliverStack(body, w.stack, w.pc, body(f.task, f.hist).value, n);
    DeliverPend(w.dq, Front(w.stack), body(f.task, f.hist).value);
  }

  lemma DeliverStack(body: Body, stack: seq<Frame>, pc: Pc, v: int, n: nat)
    requires StackOk(body, stack, pc) && pc.Idle? && |stack| > 1
    requires Last(stack).BodyF? && Last(stack).pend == [] && Value(body, Last(stack).task, v)
    ensures StackOk(body, Deliver(Front(stack), v), pc)
    ensures SameSteals(stack, Deliver(Front(stack), v), n)
  {
    var below := Front(stack);
    var m := |below| - 1;
    assert Link(body, stack[m], stack[m + 1]);
    assert Linked(body, below);
    if m > 0 {
      assert Link(body, below[m - 1], below[m]);
    }
    match below[m] {
      case BodyF(base, task, hist, pend) =>
        SetTopLinked(body, below, BodyF(base, task, hist + [v], pend));
      case StealF(base, victim, Running(i, task)) =>
        SetTopLinked(body, below, StealF(base, victim, Storing(i, task, v)));
      case _ =>
    }
  }

  lemma DeliverPend(q: Deque, stack: seq<Frame>, v: int)
    requires PendOk(q, stack) && stack != []
    ensures PendOk(q, Deliver(stack, v))
  {
    assert FramePend(q, Last(stack));
  }

  lemma ShareOk(body: Body, w: Worker, n: nat)
    requires Local(body, w) && AtBody(w)
    ensures OwnOk(body, w, ShareStep, n)
  {
    ShareAllKeeps(w.dq, w.pc.h, 0);
    SamePend(w.dq, ShareAll(w.dq, w.pc.h), w.stack);
  }

  /** The unstolen path of SYNC: the body is called with the argument of its own SPAWN. */
  lemma PopOk(body: Body, w: Worker, n: nat)
    requires Local(body, w) && OwnEnabled(body, w, PopStep)
    ensures OwnOk(body, w, PopStep, n)
    ensures Bits(w.dq.slots[w.pc.d].data) == Last(Last(w.stack).pend)
  {
    PopTask(body, w, w.pc.d);
    PopStepOk(body, w, w.pc.d, n);
  }

  lemma PopTask(body: Body, w: Worker, d: nat)
    requires Local(body, w) && w.pc == SyncPop(d)
    requires w.stack != [] && Last(w.stack).BodyF? && Last(w.stack).pend != []
    ensures w.dq.slots[d].data == Args(Last(Last(w.stack).pend))
  {
    var f := Last(w.stack);
    PopKeeps(w.dq, d, 0);
    assert FramePend(w.dq, f);
    assert w.dq.slots[f.base + (|f.pend| - 1)].task == Last(f.pend);
  }

  lemma PopStepOk(body: Body, w: Worker, d: nat, n: nat)
    requires Local(body, w) && w.pc == SyncPop(d)
    requires w.stack != [] && Last(w.stack).BodyF? && Last(w.stack).pend != []
    ensures var f := Last(w.stack);
            StepOk(body, w,
                   Worker(Pop(w.dq, d), Idle(d), SetTop(w.stack, f.(pend := Front(f.pend))) + [BodyF(d, Last(f.pend), [], [])]), n)
  {
    PopKeeps(w.dq, d, 0);
    PopStack(body, w.stack, Last(w.stack).pend, d);
    PopPend(w.dq, Pop(w.dq, d), w.stack, BodyF(d, Last(Last(w.stack).pend), [], []));
  }

  lemma PopStack(body: Body, stack: seq<Frame>, pend: seq<int>, d: nat)
    requires StackOk(body, stack, SyncPop(d)) && stack != [] && Last(stack).BodyF?
    requires pend == Last(stack).pend && pend != []
    ensures StackOk(body, SetTop(stack, Last(stack).(pend := Front(pend))) + [BodyF(d, Last(pend), [], [])], Idle(d))
  {
    var f := Last(stack);
    var f' := f.(pend := Front(pend));
    var g := BodyF(d, Last(pend), [], []);
    if |stack| > 1 {
      assert Link(body, stack[|stack| - 2], stack[|stack| - 1]);
    }
    SetTopLinked(body, stack, f');
    SoundStart(body, g.task);
    forall x | Value(body, g.task, x) ensures Sound(body, f'.task, f'.hist + [x], f'.pend) {
      SoundSync(body, f.task, f.hist, f.pend, x);
    }
    PushLinked(body, SetTop(stack, f'), g);
  }

  lemma PopPend(q: Deque, q': Deque, stack: seq<Frame>, g: Frame)
    requires stack != [] && Last(stack).BodyF? && Last(stack).pend != []
    requires PendOk(q, stack) && |q.slots| == |q'.slots|
    requires forall i :: 0 <= i < |q.slots| ==> q'.slots[i].task == q.slots[i].task
    requires g.BodyF? && g.pend == [] && g.base <= |q.slots|
    ensures PendOk(q', SetTop(stack, Last(stack).(pend := Front(Last(stack).pend))) + [g])
  {
    SamePend(q, q', stack);
    assert FramePend(q', Last(stack));
  }

  lemma LeapDoneOk(body: Body, w: Worker, d: nat, n: nat)
    requires Local(body, w) && w.pc == LeapRead(d) && w.dq.slots[d].thief == Completed
    ensures StepOk(body, w, w.(pc := LeapEnd(d)), n)
  {
    LeapReadDone(w.dq, d, 0);
  }

  lemma LeapEnterOk(body: Body, w: Worker, d: nat, n: nat)
    requires Local(body, w) && w.pc == LeapRead(d)
    ensures StepOk(body, w, w.(pc := Idle(d + 1), stack := w.stack + [LeapF(d)]), n)
  {
    LeapReadKeeps(w.dq, d, 0);
    PushLinked(body, w.stack, LeapF(d));
  }

  lemma LeapStartOk(body: Body, w: Worker, n: nat)
    requires Local(body, w) && OwnEnabled(body, w, LeapStart)
    ensures OwnOk(body, w, LeapStart, n)
  {
    if w.dq.slots[w.pc.d].thief == Completed {
      LeapDoneOk(body, w, w.pc.d, n);
    } else if w.dq.slots[w.pc.d].thief.By? {
      LeapEnterOk(body, w, w.pc.d, n);
    }
  }

  lemma LeapCheckOk(body: Body, w: Worker, n: nat)
    requires Local(body, w) && OwnEnabled(body, w, LeapCheck)
    ensures OwnOk(body, w, LeapCheck, n)
  {
    var d := Last(w.stack).d;
    var m := |w.stack| - 1;
    if w.dq.slots[d].thief == Completed {
      LeapDoneKeeps(w.dq, d, 0);
      hide DequeInv;
      assert m > 0;
      assert Link(body, w.stack[m - 1], w.stack[m]);
      assert Linked(body, Front(w.stack));
    }
  }

  /** The stolen path of SYNC: the result read is the value of the task that was spawned. */
  lemma LeapFinishOk(body: Body, w: Worker, n: nat)
    requires Local(body, w) && OwnEnabled(body, w, LeapFinish)
    ensures OwnOk(body, w, LeapFinish, n)
    ensures Value(body, Last(Last(w.stack).pend), Bits(w.dq.slots[w.pc.d].data))
  {
    LeapResult(body, w, w.pc.d);
    LeapFinishStepOk(body, w, w.pc.d, Bits(w.dq.slots[w.pc.d].data), n);
  }

  lemma LeapResult(body: Body, w: Worker, d: nat)
    requires Local(body, w) && w.pc == LeapEnd(d)
    requires w.stack != [] && Last(w.stack).BodyF? && Last(w.stack).pend != []
    ensures Value(body, Last(Last(w.stack).pend), Bits(w.dq.slots[d].data))
  {
    var f := Last(w.stack);
    assert FramePend(w.dq, f);
    assert w.dq.slots[f.base + (|f.pend| - 1)].task == Last(f.pend);
  }

  lemma LeapFinishStepOk(body: Body, w: Worker, d: nat, v: int, n: nat)
    requires Local(body, w) && w.pc == LeapEnd(d)
    requires w.stack != [] && Last(w.stack).BodyF? && Last(w.stack).pend != []
    requires Value(body, Last(Last(w.stack).pend), v)
    ensures var f := Last(w.stack);
            StepOk(body, w, Worker(Release(w.dq, d), Idle(d), SetTop(w.stack, f.(hist := f.hist + [v], pend := Front(f.pend)))), n)
  {
    hide ClaimsOk, Linked, TopOk, AllClaimed, ClaimedToTail;
    ReleaseKeeps(w.dq, d, 0);
    LeapStack(body, w.stack, d, v);
    LeapPend(w.dq, Release(w.dq, d), w.stack, v);
  }

  lemma LeapStack(body: Body, stack: seq<Frame>, d: nat, v: int)
    requires StackOk(body, stack, LeapEnd(d)) && stack != [] && Last(stack).BodyF?
    requires Last(stack).pend != [] && Value(body, Last(Last(stack).pend), v)
    ensures var f := Last(stack);
            StackOk(body, SetTop(stack, f.(hist := f.hist + [v], pend := Front(f.pend))), Idle(d))
  {
    var f := Last(stack);
    SoundSync(body, f.task, f.hist, f.pend, v);
    if |stack| > 1 {
      assert Link(body, stack[|stack| - 2], stack[|stack| - 1]);
    }
    SetTopLinked(body, stack, f.(hist := f.hist + [v], pend := Front(f.pend)));
  }

  lemma LeapPend(q: Deque, q': Deque, stack: seq<Frame>, v: int)
    requires stack != [] && Last(stack).BodyF? && Last(stack).pend != []
    requires PendOk(q, stack) && |q.slots| == |q'.slots|
    requires forall i :: 0 <= i < |q.slots| ==> q'.slots[i].task == q.slots[i].task
    ensures var f := Last(stack);
            PendOk(q', SetTop(stack, f.(hist := f.hist + [v], pend := Front(f.pend))))
  {
    SamePend(q, q', stack);
    assert FramePend(q', Last(stack));
  }

  lemma StealBeginOk(body: Body, w: Worker, n: nat, v: nat)
    requires Local(body, w) && OwnEnabled(body, w, StealBegin(v)) && v < n
    ensures OwnOk(body, w, StealBegin(v), n)
  {
    PushLinked(body, w.stack, StealF(StackHead(w.stack), v, Looking));
  }

  lemma ExtBeginOk(body: Body, w: Worker, n: nat, t: int)
    requires Local(body, w) && OwnEnabled(body, w, ExtBegin(t))
    ensures OwnOk(body, w, ExtBegin(t), n)
  {
    var f := ExtF(StackHead(w.stack), t);
    var g := BodyF(StackHead(w.stack), t, [], []);
    SoundStart(body, t);
    PushLinked(body, w.stack, f);
    PushLinked(body, w.stack + [f], g);
    assert w.stack + [f] + [g] == w.stack + [f, g];
  }

  lemma OwnActionOk(body: Body, w: Worker, a: Action, n: nat)
    requires Local(body, w) && OwnEnabled(body, w, a)
    requires a.StealBegin? ==> a.victim < n
    ensures OwnOk(body, w, a, n)
  {
    match a
    case OwnStep => OwnStepOk(body, w, n);
    case BodyStep =>
      match body(Last(w.stack).task, Last(w.stack).hist) {
        case Spawn(_) => SpawnOk(body, w, n);
        case Sync => SyncOk(body, w, n);
        case Call(_) => CallOk(body, w, n);
        case Return(_) => ReturnOk(body, w, n);
      }
    case ShareStep => ShareOk(body, w, n);
    case PopStep => PopOk(body, w, n);
    case LeapStart => LeapStartOk(body, w, n);
    case LeapCheck => LeapCheckOk(body, w, n);
    case LeapFinish => LeapFinishOk(body, w, n);
    case StealBegin(v) => StealBeginOk(body, w, n, v);
    case ExtBegin(t) => ExtBeginOk(body, w, n, t);
  }

  // ------------------------------------------------------------ the whole system

  lemma KeepsHolding(q: Deque, H: nat, q': Deque, H': nat, w: nat, k: nat, spc: StealPc)
    requires KeepsHeld(q, H, q', H') && Holding(q, H, w, k, spc)
    ensures Holding(q', H', w, k, spc)
  {
  }

  lemma OwnHolds(s: System, w: nat, me: Worker, v: nat)
    requires w < |s.workers| && v < |s.workers| && Holds(s, v)
    requires KeepsHeld(s.workers[w].dq, LiveHead(s.workers[w].pc), me.dq, LiveHead(me.pc))
    requires SameSteals(s.workers[w].stack, me.stack, |s.workers|)
    ensures Holds(s.(workers := s.workers[w := me]), v)
  {
    var s' := s.(workers := s.workers[w := me]);
    var stack, stack' := s.workers[v].stack, s'.workers[v].stack;
    forall k | 0 <= k < |stack'| ensures FrameHolds(s', v, k, stack'[k]) {
      var f' := stack'[k];
      if k < |stack| && f'.StealF? && (f' == stack[k] || ReturnedTo(stack[k], f')) {
        var f := stack[k];
        assert FrameHolds(s, v, k, f);
        if f.victim == w {
          KeepsHolding(s.workers[w].dq, LiveHead(s.workers[w].pc), me.dq, LiveHead(me.pc), v, k, f.spc);
        }
      }
    }
  }

  lemma OwnActionInv(body: Body, s: System, w: nat, a: Action)
    requires Inv(body, s) && Enabled(body, s, w, a) && !a.StealStep?
    ensures Inv(body, Perform(body, s, w, a))
  {
    var me := s.workers[w];
    OwnActionOk(body, me, a, |s.workers|);
    var me' := OwnNext(body, me, a);
    var s' := Perform(body, s, w, a);
    var s1 := s.(workers := s.workers[w := me']);
    forall v | 0 <= v < |s'.workers| ensures Holds(s', v) {
      assert Holds(s, v);
      OwnHolds(s, w, me', v);
      SameHolds(s1, s', v);
    }
    if Returning(body, me, a) {
      ReturnOk(body, me, |s.workers|);
    }
  }

  lemma SameHolds(s: System, s': System, v: nat)
    requires s.workers == s'.workers && v < |s.workers| && Holds(s, v)
    ensures Holds(s', v)
  {
    forall k | 0 <= k < |s'.workers[v].stack| ensures FrameHolds(s', v, k, s'.workers[v].stack[k]) {
      assert FrameHolds(s, v, k, s.workers[v].stack[k]);
    }
  }

  /** What one action of the steal activation (w, k) does to its victim's deque. */
  ghost predicate DequeOk(body: Body, q: Deque, q': Deque, pc: Pc, w: nat, k: nat) {
    && DequeInv(q', pc, 0)
    && ResultsOk(body, q', LiveHead(pc))
    && |q'.slots| == |q.slots|
    && (forall i :: 0 <= i < |q.slots| ==> q'.slots[i].task == q.slots[i].task)
    && (forall i: nat :: Held(q, LiveHead(pc), i) && q.slots[i].claim != Stolen(w, k) ==> q'.slots[i] == q.slots[i])
  }

  /** What it does to the thief's own stack. */
  ghost predicate ThiefOk(body: Body, q': Deque, H: nat, w: nat, stack: seq<Frame>, stack': seq<Frame>, pc: Pc) {
    && stack != [] && Last(stack).StealF?
    && StackOk(body, stack', pc)
    && |stack| - 1 <= |stack'|
    && stack'[..|stack| - 1] == Front(stack)
    && (forall k :: |stack| - 1 <= k < |stack'| ==>
          && (stack'[k].BodyF? ==> stack'[k].pend == [] && stack'[k].base <= LiveHead(pc))
          && (stack'[k].StealF? ==>
                k == |stack| - 1 && stack'[k].victim == Last(stack).victim
                && Holding(q', H, w, k, stack'[k].spc)))
  }

  ghost predicate StealOk(body: Body, q: Deque, vpc: Pc, w: nat, stack: seq<Frame>, pc: Pc, spurious: bool)
    requires stack != [] && Last(stack).StealF? && SpcEnabled(Last(stack).spc, |q.slots|)
  {
    var (q', stack') := StealNext(q, w, stack, spurious);
    && DequeOk(body, q, q', vpc, w, |stack| - 1)
    && ThiefOk(body, q', LiveHead(vpc), w, stack, stack', pc)
  }

  lemma FrontOk(body: Body, stack: seq<Frame>, pc: Pc)
    requires StackOk(body, stack, pc) && stack != [] && Last(stack).StealF?
    ensures StackOk(body, Front(stack), pc)
  {
    if |stack| > 1 {
      var m := |stack| - 2;
      assert Link(body, stack[m], stack[m + 1]);
    }
  }

  lemma TopStealOk(body: Body, stack: seq<Frame>, pc: Pc, f: Frame)
    requires StackOk(body, stack, pc) && stack != [] && Last(stack).StealF?
    requires f.StealF? && f.base == Last(stack).base && TopOk(body, f, pc)
    ensures StackOk(body, SetTop(stack, f), pc)
    ensures |SetTop(stack, f)| == |stack| && SetTop(stack, f)[..|stack| - 1] == Front(stack)
    ensures SetTop(stack, f)[|stack| - 1] == f
  {
    if |stack| > 1 {
      assert Link(body, stack[|stack| - 2], stack[|stack| - 1]);
    }
    SetTopLinked(body, stack, f);
  }

  ghost predicate StealPre(body: Body, q: Deque, vpc: Pc, w: nat, stack: seq<Frame>, pc: Pc) {
    && DequeInv(q, vpc, 0) && ResultsOk(body, q, LiveHead(vpc))
    && StackOk(body, stack, pc) && stack != [] && Last(stack).StealF?
    && SpcEnabled(Last(stack).spc, |q.slots|)
    && Holding(q, LiveHead(vpc), w, |stack| - 1, Last(stack).spc)
  }

  lemma ThiefFront(body: Body, q': Deque, H: nat, w: nat, stack: seq<Frame>, pc: Pc)
    requires StackOk(body, stack, pc) && stack != [] && Last(stack).StealF?
    ensures ThiefOk(body, q', H, w, stack, Front(stack), pc)
  {
    FrontOk(body, stack, pc);
  }

  lemma ThiefTop(body: Body, q': Deque, H: nat, w: nat, stack: seq<Frame>, pc: Pc, spc: StealPc)
    requires StackOk(body, stack, pc) && stack != [] && Last(stack).StealF?
    requires !spc.Running? && (spc.Storing? || spc.Finishing? ==> Value(body, spc.task, spc.v))
    requires Holding(q', H, w, |stack| - 1, spc)
    ensures ThiefOk(body, q', H, w, stack, SetTop(stack, Last(stack).(spc := spc)), pc)
  {
    TopStealOk(body, stack, pc, Last(stack).(spc := spc));
  }

  lemma LookOk(body: Body, q: Deque, vpc: Pc, w: nat, stack: seq<Frame>, pc: Pc, spurious: bool)
    requires StealPre(body, q, vpc, w, stack, pc)
    requires Last(stack).spc.Looking? || Last(stack).spc.Asking?
    ensures StealOk(body, q, vpc, w, stack, pc, spurious)
  {
    ThiefFront(body, q, LiveHead(vpc), w, stack, pc);
    ThiefTop(body, q, LiveHead(vpc), w, stack, pc, if Last(stack).spc.Looking? then Loading else Requesting);
  }

  lemma LoadOk(body: Body, q: Deque, vpc: Pc, w: nat, stack: seq<Frame>, pc: Pc, spurious: bool)
    requires StealPre(body, q, vpc, w, stack, pc) && Last(stack).spc.Loading?
    ensures StealOk(body, q, vpc, w, stack, pc, spurious)
  {
    if q.tail < q.split {
      StealableSlot(q, vpc, 0);
    }
    ThiefTop(body, q, LiveHead(vpc), w, stack, pc, if q.tail < q.split then Swapping(q.tail, q.split) else Asking);
  }

  lemma RequestOk(body: Body, q: Deque, vpc: Pc, w: nat, stack: seq<Frame>, pc: Pc, spurious: bool)
    requires StealPre(body, q, vpc, w, stack, pc) && Last(stack).spc.Requesting?
    ensures StealOk(body, q, vpc, w, stack, pc, spurious)
  {
    RequestSplitKeeps(q, vpc, 0);
    ThiefFront(body, RequestSplit(q), LiveHead(vpc), w, stack, pc);
  }

  lemma TakeOk(body: Body, q: Deque, pc: Pc, w: nat, k: nat)
    requires DequeInv(q, pc, 0) && ResultsOk(body, q, LiveHead(pc)) && q.tail < q.split
    ensures q.tail < LiveHead(pc)
    ensures DequeOk(body, q, Take(q, w, k), pc, w, k)
    ensures Holding(Take(q, w, k), LiveHead(pc), w, k, Won(q.tail))
  {
    StealableSlot(q, pc, 0);
    TakeKeeps(q, pc, 0, w, k);
  }

  /** The compare-and-swap may expect a word it read long ago: if the word is the same
      again, the slot it takes is an unclaimed task of now. */
  lemma SwapOk(body: Body, q: Deque, vpc: Pc, w: nat, stack: seq<Frame>, pc: Pc, spurious: bool)
    requires StealPre(body, q, vpc, w, stack, pc) && Last(stack).spc.Swapping?
    ensures StealOk(body, q, vpc, w, stack, pc, spurious)
  {
    hide DequeInv, Front;
    var spc := Last(stack).spc;
    if !spurious && q.tail == spc.tail && q.split == spc.split {
      TakeOk(body, q, vpc, w, |stack| - 1);
      ThiefTop(body, Take(q, w, |stack| - 1), LiveHead(vpc), w, stack, pc, Won(q.tail));
    } else {
      ThiefFront(body, q, LiveHead(vpc), w, stack, pc);
    }
  }

  lemma SetThiefOk(body: Body, q: Deque, pc: Pc, w: nat, k: nat, i: nat, thief: Thief)
    requires DequeInv(q, pc, 0) && ResultsOk(body, q, LiveHead(pc)) && HeldBy(q, LiveHead(pc), w, k, i)
    requires thief != Empty
    requires thief == Completed ==> q.slots[i].data.Res? && Value(body, q.slots[i].task, q.slots[i].data.res)
    ensures DequeOk(body, q, SetThief(q, i, thief), pc, w, k)
  {
    SetThiefKeeps(q, pc, 0, i, thief);
  }

  lemma WonOk(body: Body, q: Deque, vpc: Pc, w: nat, stack: seq<Frame>, pc: Pc, spurious: bool)
    requires StealPre(body, q, vpc, w, stack, pc) && Last(stack).spc.Won?
    ensures StealOk(body, q, vpc, w, stack, pc, spurious)
  {
    var i := Last(stack).spc.i;
    SetThiefOk(body, q, vpc, w, |stack| - 1, i, By(w));
    ThiefTop(body, SetThief(q, i, By(w)), LiveHead(vpc), w, stack, pc, Reading(i));
  }

  lemma ReadOk(body: Body, q: Deque, vpc: Pc, w: nat, stack: seq<Frame>, pc: Pc, spurious: bool)
    requires StealPre(body, q, vpc, w, stack, pc) && Last(stack).spc.Reading?
    ensures StealOk(body, q, vpc, w, stack, pc, spurious)
  {
    var f := Last(stack);
    var arg := Bits(q.slots[f.spc.i].data);
    var f' := f.(spc := Running(f.spc.i, arg));
    if |stack| > 1 {
      assert Link(body, stack[|stack| - 2], stack[|stack| - 1]);
    }
    SetTopLinked(body, stack, f');
    SoundStart(body, arg);
    PushLinked(body, SetTop(stack, f'), BodyF(f.base, arg, [], []));
  }

  lemma SetResultOk(body: Body, q: Deque, pc: Pc, w: nat, k: nat, i: nat, v: int)
    requires DequeInv(q, pc, 0) && ResultsOk(body, q, LiveHead(pc)) && HeldBy(q, LiveHead(pc), w, k, i)
    ensures DequeOk(body, q, SetResult(q, i, v), pc, w, k)
  {
    SetResultKeeps(q, pc, 0, i, v);
  }

  lemma StoreOk(body: Body, q: Deque, vpc: Pc, w: nat, stack: seq<Frame>, pc: Pc, spurious: bool)
    requires StealPre(body, q, vpc, w, stack, pc) && Last(stack).spc.Storing?
    ensures StealOk(body, q, vpc, w, stack, pc, spurious)
  {
    var spc := Last(stack).spc;
    SetResultOk(body, q, vpc, w, |stack| - 1, spc.i, spc.v);
    ThiefTop(body, SetResult(q, spc.i, spc.v), LiveHead(vpc), w, stack, pc, Finishing(spc.i, spc.task, spc.v));
  }

  lemma FinishOk(body: Body, q: Deque, vpc: Pc, w: nat, stack: seq<Frame>, pc: Pc, spurious: bool)
    requires StealPre(body, q, vpc, w, stack, pc) && Last(stack).spc.Finishing?
    ensures StealOk(body, q, vpc, w, stack, pc, spurious)
  {
    var i := Last(stack).spc.i;
    SetThiefOk(body, q, vpc, w, |stack| - 1, i, Completed);
    ThiefFront(body, SetThief(q, i, Completed), LiveHead(vpc), w, stack, pc);
  }

  lemma StealStepOk(body: Body, q: Deque, vpc: Pc, w: nat, stack: seq<Frame>, pc: Pc, spurious: bool)
    requires StealPre(body, q, vpc, w, stack, pc)
    ensures StealOk(body, q, vpc, w, stack, pc, spurious)
  {
    match Last(stack).spc
    case Looking => LookOk(body, q, vpc, w, stack, pc, spurious);
    case Loading => LoadOk(body, q, vpc, w, stack, pc, spurious);
    case Asking => LookOk(body, q, vpc, w, stack, pc, spurious);
    case Requesting => RequestOk(body, q, vpc, w, stack, pc, spurious);
    case Swapping(_, _) => SwapOk(body, q, vpc, w, stack, pc, spurious);
    case Won(_) => WonOk(body, q, vpc, w, stack, pc, spurious);
    case Reading(_) => ReadOk(body, q, vpc, w, stack, pc, spurious);
    case Storing(_, _, _) => StoreOk(body, q, vpc, w, stack, pc, spurious);
    case Finishing(_, _, _) => FinishOk(body, q, vpc, w, stack, pc, spurious);
  }

  lemma StealStack(body: Body, q: Deque, q': Deque, H: nat, w: nat, me: Worker, dq: Deque, stack': seq<Frame>)
    requires Local(body, me) && ThiefOk(body, q', H, w, me.stack, stack', me.pc)
    requires |dq.slots| == |me.dq.slots|
    requires forall i :: 0 <= i < |dq.slots| ==> dq.slots[i].task == me.dq.slots[i].task
    ensures PendOk(dq, stack')
  {
    SamePend(me.dq, dq, me.stack);
    forall k | 0 <= k < |stack'| ensures FramePend(dq, stack'[k]) {
      if k < |me.stack| - 1 {
        assert stack'[k] == stack'[..|me.stack| - 1][k] == me.stack[k];
      }
    }
  }

  lemma StealLocal(body: Body, s: System, w: nat, v: nat, q': Deque, stack': seq<Frame>, u: nat)
    requires Inv(body, s) && w < |s.workers| && v < |s.workers| && u < |s.workers| && s.workers[w].stack != []
    requires DequeOk(body, s.workers[v].dq, q', s.workers[v].pc, w, |s.workers[w].stack| - 1)
    requires ThiefOk(body, q', LiveHead(s.workers[v].pc), w, s.workers[w].stack, stack', s.workers[w].pc)
    ensures Local(body, SetStack(SetDeque(s, v, q'), w, stack').workers[u])
  {
    assert Local(body, s.workers[u]);
    var s1 := SetDeque(s, v, q');
    SamePend(s.workers[u].dq, s1.workers[u].dq, s.workers[u].stack);
    if u == w {
      StealStack(body, s.workers[v].dq, q', LiveHead(s.workers[v].pc), w, s.workers[w], s1.workers[w].dq, stack');
    }
  }

  lemma StealFrame(q: Deque, q': Deque, H: nat, w: nat, k: nat, w': nat, k': nat, spc: StealPc)
    requires Holding(q, H, w', k', spc) && (w', k') != (w, k)
    requires |q'.slots| == |q.slots|
    requires forall i: nat :: Held(q, H, i) && q.slots[i].claim != Stolen(w, k) ==> q'.slots[i] == q.slots[i]
    ensures Holding(q', H, w', k', spc)
  {
  }

  lemma StealHolds(body: Body, s: System, w: nat, v: nat, q': Deque, stack': seq<Frame>, u: nat)
    requires Inv(body, s) && w < |s.workers| && v < |s.workers| && u < |s.workers| && s.workers[w].stack != []
    requires DequeOk(body, s.workers[v].dq, q', s.workers[v].pc, w, |s.workers[w].stack| - 1)
    requires ThiefOk(body, q', LiveHead(s.workers[v].pc), w, s.workers[w].stack, stack', s.workers[w].pc)
    requires Last(s.workers[w].stack).victim == v
    ensures Holds(SetStack(SetDeque(s, v, q'), w, stack'), u)
  {
    var s' := SetStack(SetDeque(s, v, q'), w, stack');
    var top := |s.workers[w].stack| - 1;
    assert Holds(s, u);
    forall k | 0 <= k < |s'.workers[u].stack| ensures FrameHolds(s', u, k, s'.workers[u].stack[k]) {
      var f := s'.workers[u].stack[k];
      if u != w || k < top {
        assert u == w ==> f == stack'[..top][k];
        assert f == s.workers[u].stack[k];
        assert FrameHolds(s, u, k, f);
        if f.StealF? && f.victim == v {
          StealFrame(s.workers[v].dq, q', LiveHead(s.workers[v].pc), w, top, u, k, f.spc);
        }
      }
    }
  }

  lemma StealStepInv(body: Body, s: System, w: nat, spurious: bool)
    requires Inv(body, s) && Enabled(body, s, w, StealStep(spurious))
    ensures Inv(body, Perform(body, s, w, StealStep(spurious)))
  {
    var me := s.workers[w];
    var v := Last(me.stack).victim;
    var q := s.workers[v].dq;
    assert Local(body, s.workers[v]) && Local(body, me) && Holds(s, w);
    assert FrameHolds(s, w, |me.stack| - 1, me.stack[|me.stack| - 1]);
    StealStepOk(body, q, s.workers[v].pc, w, me.stack, me.pc, spurious);
    var (q', stack') := StealNext(q, w, me.stack, spurious);
    var s' := SetStack(SetDeque(s, v, q'), w, stack');
    forall u | 0 <= u < |s'.workers| ensures Local(body, s'.workers[u]) && Holds(s', u) {
      StealLocal(body, s, w, v, q', stack', u);
      StealHolds(body, s, w, v, q', stack', u);
    }
  }

  lemma StepInv(body: Body, s: System, s': System)
    requires Inv(body, s) && Next(body, s, s')
    ensures Inv(body, s') && |s'.workers| == |s.workers|
  {
    var w, a :| Enabled(body, s, w, a) && s' == Perform(body, s, w, a);
    if a.StealStep? {
      StealStepInv(body, s, w, a.spurious);
    } else {
      OwnActionInv(body, s, w, a);
    }
  }

  lemma StartInv(body: Body, n: nat, size: nat)
    requires size < SIZE_LIMIT
    ensures Inv(body, Start(n, size))
  {
    var q := EmptyDeque(size);
    assert DequeInv(q, Idle(0), 0) by {
      assert Open(q, 0, 0);
    }
  }

  /** Every state of every run satisfies the invariant. */
  lemma {:induction false} RunInv(body: Body, n: nat, size: nat, run: seq<System>, k: nat)
    requires size < SIZE_LIMIT && Run(body, n, size, run) && k < |run|
    ensures Inv(body, run[k]) && |run[k].workers| == n
  {
    if k == 0 {
      StartInv(body, n, size);
    } else {
      RunInv(body, n, size, run, k - 1);
      assert Next(body, run[k - 1], run[k - 1 + 1]);
      StepInv(body, run[k - 1], run[k]);
    }
  }
}
