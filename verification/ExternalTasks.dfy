/**
 External tasks: lace_run_task (RUN), lace_run_task_exclusive (RUNEX) and
 lace_steal_external (src/lace.c), for any number of calling threads and workers.

 Each calling thread makes one call. A wait on the condition variable may end at any
 time, with or without a broadcast. A compare-and-swap may fail spuriously, and a
 non-null expected pointer may also match a later task at the same address.
 */
module ExternalTasks {
  import opened Helpers

  datatype Kind = Shared | Exclusive

  /** Where a call is; between Check and Unlock it holds external_task_lock. */
  datatype Pc =
    | Enter | Check | Asleep | Drain | AsleepDraining | Unlock
    | Post | Wait | Reenter | Exit | UnlockExit | Done

  /** What has become of a call's task. */
  datatype Job = Unposted | Pending | Running | Ran | Signalled | Lost

  datatype Thread = Thread(kind: Kind, pc: Pc, exp: Option<nat>, job: Job, sem: nat, executed: nat)

  /** History: `inside` are the calls counted by external_task_counter, `owner` the
      exclusive call that has set external_task_exclusive. */
  datatype State = State(
    lock: Option<nat>, counter: int, exclusive: bool, slot: Option<nat>, threads: seq<Thread>,
    inside: set<nat>, owner: Option<nat>)

  datatype Action =
    | Move(t: nat, alias: bool, spurious: bool)
    | Take
    | Finish(t: nat)
    | Signal(t: nat)

  function Init(kinds: seq<Kind>): State {
    State(None, 0, false, None,
          seq(|kinds|, i requires 0 <= i < |kinds| => Thread(kinds[i], Enter, None, Unposted, 0, 0)), {}, None)
  }

  function SetThread(s: State, t: nat, th: Thread): State
    requires t < |s.threads|
  {
    s.(threads := s.threads[t := th])
  }

  predicate CanMove(s: State, t: nat) {
    && t < |s.threads|
    && match s.threads[t].pc
       case Enter => s.lock == None
       case Asleep => s.lock == None
       case AsleepDraining => s.lock == None
       case Reenter => s.lock == None
       case Wait => s.threads[t].sem > 0
       case Done => false
       case _ => true
  }

  predicate Can(s: State, a: Action) {
    match a
    case Move(t, _, _) => CanMove(s, t)
    case Take => s.slot.Some? && s.slot.value < |s.threads|
    case Finish(t) => t < |s.threads| && s.threads[t].job == Running
    case Signal(t) => t < |s.threads| && s.threads[t].job == Ran
  }

  /** The compare-and-swap that posts a task; a failure loads the value found. */
  function PostStep(s: State, t: nat, alias: bool, spurious: bool): State
    requires t < |s.threads|
  {
    var th := s.threads[t];
    if !spurious && PostHits(s, t, alias) then
      var posted := SetThread(s, t, th.(pc := Wait, job := Pending));
      var replaced := if s.slot.Some? && s.slot.value < |s.threads| && s.slot.value != t
                      then SetThread(posted, s.slot.value, s.threads[s.slot.value].(job := Lost)) else posted;
      replaced.(slot := Some(t))
    else SetThread(s, t, th.(exp := s.slot))
  }

  predicate PostHits(s: State, t: nat, alias: bool)
    requires t < |s.threads|
  {
    s.threads[t].exp == s.slot || (alias && s.threads[t].exp.Some? && s.slot.Some?)
  }

  function MoveStep(s: State, t: nat, alias: bool, spurious: bool): State
    requires CanMove(s, t)
  {
    var th := s.threads[t];
    match th.pc
    case Enter => SetThread(s, t, th.(pc := Check)).(lock := Some(t))
    case Asleep => SetThread(s, t, th.(pc := Check)).(lock := Some(t))
    case Check =>
      if s.exclusive then SetThread(s, t, th.(pc := Asleep)).(lock := None)
      else if th.kind == Shared then SetThread(s, t, th.(pc := Unlock)).(counter := s.counter + 1, inside := s.inside + {t})
      else SetThread(s, t, th.(pc := Drain)).(exclusive := true, owner := Some(t))
    case Drain =>
      if s.counter > 0 then SetThread(s, t, th.(pc := AsleepDraining)).(lock := None)
      else SetThread(s, t, th.(pc := Unlock))
    case AsleepDraining => SetThread(s, t, th.(pc := Drain)).(lock := Some(t))
    case Unlock => SetThread(s, t, th.(pc := Post)).(lock := None)
    case Post => PostStep(s, t, alias, spurious)
    case Wait => SetThread(s, t, th.(pc := Reenter, sem := th.sem - 1))
    case Reenter => SetThread(s, t, th.(pc := Exit)).(lock := Some(t))
    case Exit =>
      if th.kind == Shared then SetThread(s, t, th.(pc := UnlockExit)).(counter := s.counter - 1, inside := s.inside - {t})
      else SetThread(s, t, th.(pc := UnlockExit)).(exclusive := false, owner := None)
    case UnlockExit => SetThread(s, t, th.(pc := Done)).(lock := None)
  }

  function Do(s: State, a: Action): State
    requires Can(s, a)
  {
    match a
    case Move(t, alias, spurious) => MoveStep(s, t, alias, spurious)
    case Take => SetThread(s, s.slot.value, s.threads[s.slot.value].(job := Running)).(slot := None)
    case Finish(t) => SetThread(s, t, s.threads[t].(job := Ran, executed := s.threads[t].executed + 1))
    case Signal(t) => SetThread(s, t, s.threads[t].(job := Signalled, sem := s.threads[t].sem + 1))
  }

  // ---------------------------------------------------------------- invariant

  predicate Locked(pc: Pc) {
    pc == Check || pc == Drain || pc == Unlock || pc == Exit || pc == UnlockExit
  }

  predicate Before(pc: Pc) {
    pc == Enter || pc == Check || pc == Asleep
  }

  /** The section between being let in and leaving again. */
  predicate InSection(pc: Pc) {
    pc == Unlock || pc == Post || pc == Wait || pc == Reenter || pc == Exit
  }

  predicate Draining(pc: Pc) {
    pc == Drain || pc == AsleepDraining
  }

  ghost predicate ThreadOk(s: State, t: nat)
    requires t < |s.threads|
  {
    var th := s.threads[t];
    && (Locked(th.pc) <==> s.lock == Some(t))
    && (Draining(th.pc) ==> th.kind == Exclusive)
    && (t in s.inside <==> th.kind == Shared && InSection(th.pc))
    && (s.owner == Some(t) <==> th.kind == Exclusive && (InSection(th.pc) || Draining(th.pc)))
    && (th.kind == Exclusive && InSection(th.pc) ==> s.inside == {})
    && (th.kind == Exclusive ==> th.exp == None)
    && (th.job == Unposted <==> Before(th.pc) || Draining(th.pc) || th.pc == Unlock || th.pc == Post)
    && (th.pc == Reenter || th.pc == Exit || th.pc == UnlockExit || th.pc == Done ==> th.job == Signalled)
    && th.sem == (if th.job == Signalled && th.pc == Wait then 1 else 0)
    && th.executed == (if th.job == Ran || th.job == Signalled then 1 else 0)
    && (th.job == Pending <==> s.slot == Some(t))
    && (th.job == Lost ==> th.kind == Shared && th.pc == Wait)
  }

  ghost predicate Inv(s: State) {
    && (forall t :: 0 <= t < |s.threads| ==> ThreadOk(s, t))
    && s.counter == |s.inside| && (forall t :: t in s.inside ==> t < |s.threads|)
    && s.exclusive == s.owner.Some?
    && (s.owner.Some? ==> s.owner.value < |s.threads|)
    && (s.slot.Some? ==> s.slot.value < |s.threads|)
    && (s.lock.Some? ==> s.lock.value < |s.threads|)
  }

  lemma InitInv(kinds: seq<Kind>)
    ensures Inv(Init(kinds))
  {
  }

  /** An exclusive call that has been let in is the only one in the section. */
  lemma Alone(s: State, t: nat, u: nat)
    requires Inv(s) && t < |s.threads| && u < |s.threads| && t != u
    requires s.threads[t].kind == Exclusive && InSection(s.threads[t].pc)
    ensures !InSection(s.threads[u].pc) && !Draining(s.threads[u].pc)
    ensures s.threads[u].job == Unposted || s.threads[u].job == Signalled
  {
    assert ThreadOk(s, t) && ThreadOk(s, u);
  }

  /** A compare-and-swap that fails only changes what its caller expects. */
  lemma PostMissInv(s: State, t: nat)
    requires Inv(s) && t < |s.threads| && s.threads[t].pc == Post
    ensures Inv(SetThread(s, t, s.threads[t].(exp := s.slot)))
    ensures s.threads[t].kind == Exclusive ==> s.slot == None
  {
    var s' := SetThread(s, t, s.threads[t].(exp := s.slot));
    assert ThreadOk(s, t);
    if s.slot.Some? {
      assert ThreadOk(s, s.slot.value);
    }
    forall u | 0 <= u < |s'.threads| ensures ThreadOk(s', u) {
      assert ThreadOk(s, u);
    }
  }

  lemma PostInv(s: State, t: nat, alias: bool, spurious: bool)
    requires Inv(s) && t < |s.threads| && s.threads[t].pc == Post
    ensures Inv(PostStep(s, t, alias, spurious))
  {
    PostMissInv(s, t);
    if !spurious && PostHits(s, t, alias) {
      var s' := PostStep(s, t, alias, spurious);
      assert ThreadOk(s, t);
      if s.slot.Some? {
        assert ThreadOk(s, s.slot.value);
      }
      forall u | 0 <= u < |s'.threads| ensures ThreadOk(s', u) {
        assert ThreadOk(s, u);
      }
    }
  }

  lemma LockInv(s: State, t: nat, alias: bool, spurious: bool)
    requires Inv(s) && CanMove(s, t) && (s.threads[t].pc == Enter || s.threads[t].pc == Asleep)
    ensures Inv(MoveStep(s, t, alias, spurious))
  {
    var s' := MoveStep(s, t, alias, spurious);
    assert ThreadOk(s, t);
    forall u | 0 <= u < |s'.threads| ensures ThreadOk(s', u) {
      assert ThreadOk(s, u);
    }
  }

  lemma CheckInv(s: State, t: nat, alias: bool, spurious: bool)
    requires Inv(s) && CanMove(s, t) && s.threads[t].pc == Check
    ensures Inv(MoveStep(s, t, alias, spurious))
  {
    var s' := MoveStep(s, t, alias, spurious);
    assert ThreadOk(s, t);
    forall u | 0 <= u < |s'.threads| ensures ThreadOk(s', u) {
      assert ThreadOk(s, u);
    }
  }

  lemma DrainInv(s: State, t: nat, alias: bool, spurious: bool)
    requires Inv(s) && CanMove(s, t) && (Draining(s.threads[t].pc) || s.threads[t].pc == Unlock)
    ensures Inv(MoveStep(s, t, alias, spurious))
  {
    var s' := MoveStep(s, t, alias, spurious);
    assert ThreadOk(s, t);
    forall u | 0 <= u < |s'.threads| ensures ThreadOk(s', u) {
      assert ThreadOk(s, u);
    }
  }

  lemma WaitInv(s: State, t: nat, alias: bool, spurious: bool)
    requires Inv(s) && CanMove(s, t) && s.threads[t].pc == Wait
    ensures Inv(MoveStep(s, t, alias, spurious))
  {
    var s' := MoveStep(s, t, alias, spurious);
    assert ThreadOk(s, t);
    forall u | 0 <= u < |s'.threads| ensures ThreadOk(s', u) {
      assert ThreadOk(s, u);
    }
  }

  lemma SignalledInv(s: State, t: nat, alias: bool, spurious: bool)
    requires Inv(s) && CanMove(s, t) && (s.threads[t].pc == Reenter || s.threads[t].pc == UnlockExit)
    ensures Inv(MoveStep(s, t, alias, spurious))
  {
    var s' := MoveStep(s, t, alias, spurious);
    assert ThreadOk(s, t);
    forall u | 0 <= u < |s'.threads| ensures ThreadOk(s', u) {
      assert ThreadOk(s, u);
    }
  }

  lemma ExitInv(s: State, t: nat, alias: bool, spurious: bool)
    requires Inv(s) && CanMove(s, t) && s.threads[t].pc == Exit
    ensures Inv(MoveStep(s, t, alias, spurious))
  {
    assert ThreadOk(s, t);
    if s.threads[t].kind == Shared {
      ExitShared(s, t);
    } else {
      ExitExclusive(s, t);
    }
  }

  lemma ExitShared(s: State, t: nat)
    requires Inv(s) && CanMove(s, t) && s.threads[t].pc == Exit && s.threads[t].kind == Shared
    ensures Inv(MoveStep(s, t, false, false))
  {
    var s' := MoveStep(s, t, false, false);
    assert ThreadOk(s, t) && t in s.inside;
    forall u | 0 <= u < |s'.threads| ensures ThreadOk(s', u) {
      assert ThreadOk(s, u);
    }
  }

  lemma ExitExclusive(s: State, t: nat)
    requires Inv(s) && CanMove(s, t) && s.threads[t].pc == Exit && s.threads[t].kind == Exclusive
    ensures Inv(MoveStep(s, t, false, false))
  {
    var s' := MoveStep(s, t, false, false);
    assert ThreadOk(s, t);
    forall u | 0 <= u < |s'.threads| ensures ThreadOk(s', u) {
      assert ThreadOk(s, u);
    }
  }

  lemma WorkerInv(s: State, a: Action)
    requires Inv(s) && Can(s, a) && !a.Move?
    ensures Inv(Do(s, a))
  {
    var s' := Do(s, a);
    forall u | 0 <= u < |s'.threads| ensures ThreadOk(s', u) {
      assert ThreadOk(s, u);
    }
  }

  lemma StepInv(s: State, a: Action)
    requires Inv(s) && Can(s, a)
    ensures Inv(Do(s, a))
  {
    if a.Move? {
      var pc := s.threads[a.t].pc;
      if pc == Post {
        PostInv(s, a.t, a.alias, a.spurious);
      } else if pc == Check {
        CheckInv(s, a.t, a.alias, a.spurious);
      } else if Before(pc) {
        LockInv(s, a.t, a.alias, a.spurious);
      } else if Draining(pc) || pc == Unlock {
        DrainInv(s, a.t, a.alias, a.spurious);
      } else if pc == Exit {
        ExitInv(s, a.t, a.alias, a.spurious);
      } else if pc == Wait {
        WaitInv(s, a.t, a.alias, a.spurious);
      } else {
        SignalledInv(s, a.t, a.alias, a.spurious);
      }
    } else {
      WorkerInv(s, a);
    }
  }

  // ----------------------------------------------------------------- theorems

  ghost predicate Next(s: State, s': State) {
    exists a :: Can(s, a) && s' == Do(s, a)
  }

  ghost predicate Run(kinds: seq<Kind>, run: seq<State>) {
    && run != [] && run[0] == Init(kinds)
    && forall k :: 0 <= k < |run| - 1 ==> Next(run[k], run[k + 1])
  }

  lemma NextInv(s: State, s': State)
    requires Inv(s) && Next(s, s')
    ensures Inv(s') && |s'.threads| == |s.threads|
  {
    var a :| Can(s, a) && s' == Do(s, a);
    StepInv(s, a);
    StepSize(s, a);
  }

  lemma StepSize(s: State, a: Action)
    requires Can(s, a)
    ensures |Do(s, a).threads| == |s.threads|
  {
  }

  lemma {:induction false} RunInv(kinds: seq<Kind>, run: seq<State>, k: nat)
    requires Run(kinds, run) && k < |run|
    ensures Inv(run[k]) && |run[k].threads| == |kinds|
  {
    if k == 0 {
      InitInv(kinds);
    } else {
      RunInv(kinds, run, k - 1);
      assert Next(run[k - 1], run[k - 1 + 1]);
      NextInv(run[k - 1], run[k]);
    }
  }

  /** The task is in the slot, being executed, or about to be reported. */
  predicate Active(th: Thread) {
    th.job == Pending || th.job == Running || th.job == Ran
  }

  /** An exclusive task never overlaps another external task, and no other call's task is
      outstanding when it is posted: its post always finds the slot empty. */
  lemma ExclusiveAlone(kinds: seq<Kind>, run: seq<State>, k: nat, t: nat, u: nat)
    requires Run(kinds, run) && k < |run| && t < |kinds| && u < |kinds| && t != u
    ensures |run[k].threads| == |kinds|
    ensures var th := run[k].threads[t];
            && (th.kind == Exclusive && Active(th) ==> !Active(run[k].threads[u]))
            && (th.kind == Exclusive && th.pc == Post ==> run[k].slot == None && th.exp == None && !Active(run[k].threads[u]))
  {
    RunInv(kinds, run, k);
    var s := run[k];
    assert ThreadOk(s, t) && (s.slot.Some? ==> ThreadOk(s, s.slot.value));
    if s.threads[t].kind == Exclusive && (Active(s.threads[t]) || s.threads[t].pc == Post) {
      Alone(s, t, u);
      if s.slot.Some? && s.slot.value != t {
        Alone(s, t, s.slot.value);
      }
    }
  }

  /** A call that returns has had its own task executed exactly once; no task is ever
      executed twice. */
  lemma ReturnedMeansExecuted(kinds: seq<Kind>, run: seq<State>, k: nat, t: nat)
    requires Run(kinds, run) && k < |run| && t < |kinds|
    ensures |run[k].threads| == |kinds|
    ensures run[k].threads[t].executed <= 1
    ensures run[k].threads[t].pc == Done ==> run[k].threads[t].executed == 1
  {
    RunInv(kinds, run, k);
    assert ThreadOk(run[k], t);
  }

  /** The posting loop of RUN keeps a failed compare-and-swap's expected value. A post
      drops another call's pending task if and only if that value is not null. */
  lemma PostLosesTask(s: State, t: nat, alias: bool)
    requires Inv(s) && t < |s.threads| && s.threads[t].pc == Post && PostHits(s, t, alias)
    ensures (exists u :: 0 <= u < |s.threads| && s.threads[u].job == Pending
                         && PostStep(s, t, alias, false).threads[u].job == Lost)
            <==> s.threads[t].exp.Some?
  {
    var s' := PostStep(s, t, alias, false);
    assert ThreadOk(s, t);
    if s.threads[t].exp.Some? {
      var u := s.slot.value;
      assert ThreadOk(s, u);
      assert s.threads[u].job == Pending && s'.threads[u].job == Lost;
    }
  }

  /** In every run, the only step that loses a task is a post, by another call of RUN whose
      expected value is not null; and it loses the task that is in the slot. */
  lemma LostOnlyByPost(kinds: seq<Kind>, run: seq<State>, k: nat, a: Action, t: nat)
    requires Run(kinds, run) && k < |run| && Can(run[k], a) && t < |kinds|
    requires |run[k].threads| == |kinds| == |Do(run[k], a).threads|
    requires run[k].threads[t].job != Lost && Do(run[k], a).threads[t].job == Lost
    ensures a.Move? && a.t != t && run[k].threads[a.t].pc == Post
    ensures run[k].threads[a.t].kind == Shared && run[k].threads[a.t].exp.Some?
    ensures run[k].slot == Some(t) && run[k].threads[t].job == Pending
  {
    hide Inv, Next, Do;
    RunInv(kinds, run, k);
    LosingStep(run[k], a, t);
  }

  lemma LosingStep(s: State, a: Action, t: nat)
    requires Inv(s) && Can(s, a) && t < |s.threads| == |Do(s, a).threads|
    requires s.threads[t].job != Lost && Do(s, a).threads[t].job == Lost
    ensures a.Move? && a.t != t && s.threads[a.t].pc == Post && s.threads[a.t].kind == Shared && s.threads[a.t].exp.Some?
    ensures s.slot == Some(t) && s.threads[t].job == Pending
  {
    assert ThreadOk(s, t);
    if a.Move? {
      assert ThreadOk(s, a.t);
      if s.threads[a.t].pc != Post {
        JobKept(s, a.t, a.alias, a.spurious, t);
      }
    }
  }

  lemma JobKept(s: State, t: nat, alias: bool, spurious: bool, u: nat)
    requires CanMove(s, t) && s.threads[t].pc != Post && u < |s.threads| == |MoveStep(s, t, alias, spurious).threads|
    ensures MoveStep(s, t, alias, spurious).threads[u].job == s.threads[u].job
  {
  }

  /** A call that has neither returned nor lost its task is not stuck: it can go on itself, a
      worker can go on with its task, or whoever holds the lock can go on. */
  lemma NeverStuck(kinds: seq<Kind>, run: seq<State>, k: nat, t: nat) returns (a: Action)
    requires Run(kinds, run) && k < |run| && t < |kinds|
    requires |run[k].threads| == |kinds| && run[k].threads[t].pc != Done && run[k].threads[t].job != Lost
    ensures Can(run[k], a) && Do(run[k], a) != run[k]
    ensures a.Move? ==> a.t == t || run[k].lock == Some(a.t)
    ensures a.Finish? || a.Signal? ==> a.t == t
    ensures a.Take? ==> run[k].slot == Some(t)
  {
    RunInv(kinds, run, k);
    var s := run[k];
    var th := s.threads[t];
    assert ThreadOk(s, t);
    if th.pc == Wait && th.sem == 0 {
      a := if th.job == Pending then Take else if th.job == Running then Finish(t) else Signal(t);
    } else if CanMove(s, t) {
      a := Move(t, false, false);
      Moves(s, t);
    } else {
      HolderMoves(s);
      a := Move(s.lock.value, false, false);
    }
  }

  lemma Moves(s: State, t: nat)
    requires Inv(s) && CanMove(s, t)
    ensures MoveStep(s, t, false, false) != s
  {
    var s' := MoveStep(s, t, false, false);
    assert ThreadOk(s, t) && s'.threads[t] != s.threads[t];
  }

  lemma HolderMoves(s: State)
    requires Inv(s) && s.lock.Some?
    ensures CanMove(s, s.lock.value) && MoveStep(s, s.lock.value, false, false) != s
  {
    assert ThreadOk(s, s.lock.value);
    Moves(s, s.lock.value);
  }

  /** A lost task is never executed and its call never returns; RUNEX never loses one. */
  lemma {:induction false} LostForever(kinds: seq<Kind>, run: seq<State>, j: nat, k: nat, t: nat)
    requires Run(kinds, run) && j <= k < |run| && t < |kinds|
    requires |run[j].threads| == |kinds| && run[j].threads[t].job == Lost
    ensures |run[k].threads| == |kinds|
    ensures run[k].threads[t].job == Lost && run[k].threads[t].pc == Wait && run[k].threads[t].executed == 0
    ensures run[k].threads[t].kind == Shared
    decreases k - j
  {
    RunInv(kinds, run, j);
    assert ThreadOk(run[j], t);
    if j < k {
      assert Next(run[j], run[j + 1]);
      var a :| Can(run[j], a) && run[j + 1] == Do(run[j], a);
      StillLost(run[j], a, t);
      LostForever(kinds, run, j + 1, k, t);
    }
  }

  lemma StillLost(s: State, a: Action, t: nat)
    requires Inv(s) && Can(s, a) && t < |s.threads| && s.threads[t].job == Lost
    ensures |Do(s, a).threads| == |s.threads| && Do(s, a).threads[t].job == Lost
  {
    assert ThreadOk(s, t);
    if s.slot.Some? {
      assert ThreadOk(s, s.slot.value);
    }
  }

  lemma Extend(kinds: seq<Kind>, run: seq<State>, a: Action) returns (run': seq<State>)
    requires Run(kinds, run) && Can(run[|run| - 1], a)
    ensures run' == run + [Do(run[|run| - 1], a)] && Run(kinds, run')
  {
    var s' := Do(run[|run| - 1], a);
    assert Next(run[|run| - 1], s');
    run' := run + [s'];
    forall k | 0 <= k < |run'| - 1 ensures Next(run'[k], run'[k + 1]) {
      assert k < |run| - 1 ==> Next(run[k], run[k + 1]);
    }
  }

  /** What a worker does with the task in the slot: it takes it, runs it and reports it to the
      call, and nothing else changes. */
  lemma TakenIsExecuted(kinds: seq<Kind>, run: seq<State>, t: nat) returns (run': seq<State>)
    requires Run(kinds, run) && run[|run| - 1].slot == Some(t)
    ensures Run(kinds, run') && |run'| == |run| + 3 && t < |run[|run| - 1].threads|
    ensures var s, s' := run[|run| - 1], run'[|run'| - 1];
            s' == SetThread(s, t, s.threads[t].(job := Signalled, sem := 1, executed := 1)).(slot := None)
  {
    var s := run[|run| - 1];
    RunInv(kinds, run, |run| - 1);
    assert ThreadOk(s, t);
    run' := Extend(kinds, run, Take);
    run' := Extend(kinds, run', Finish(t));
    run' := Extend(kinds, run', Signal(t));
  }

  /** The calls before m have returned, the others have not begun. */
  function Served(kinds: seq<Kind>, m: nat): State {
    State(None, 0, false, None,
          seq(|kinds|, i requires 0 <= i < |kinds| =>
            if i < m then Thread(kinds[i], Done, None, Signalled, 0, 1) else Thread(kinds[i], Enter, None, Unposted, 0, 0)),
          {}, None)
  }

  /** The call is served alone: it is let in, posts its task, and a worker executes it. */
  lemma PostAlone(kinds: seq<Kind>, run: seq<State>, m: nat) returns (run': seq<State>)
    requires Run(kinds, run) && m < |kinds| && run[|run| - 1] == Served(kinds, m)
    ensures Run(kinds, run')
    ensures var s := run'[|run'| - 1];
            s == Served(kinds, m).(threads := Served(kinds, m).threads[m := Thread(kinds[m], Wait, None, Pending, 0, 0)],
                                   slot := Some(m), counter := s.counter, inside := s.inside, exclusive := s.exclusive, owner := s.owner)
                 && (kinds[m] == Shared ==> s.counter == 1 && s.inside == {m} && !s.exclusive && s.owner == None)
                 && (kinds[m] == Exclusive ==> s.counter == 0 && s.inside == {} && s.exclusive && s.owner == Some(m))
  {
    run' := Extend(kinds, run, Move(m, false, false));
    run' := Extend(kinds, run', Move(m, false, false));
    if kinds[m] == Exclusive {
      run' := Extend(kinds, run', Move(m, false, false));
    }
    run' := Extend(kinds, run', Move(m, false, false));
    assert run'[|run'| - 1].threads[m].pc == Post;
    run' := Extend(kinds, run', Move(m, false, false));
  }

  lemma ServeOne(kinds: seq<Kind>, run: seq<State>, m: nat) returns (run': seq<State>)
    requires Run(kinds, run) && m < |kinds| && run[|run| - 1] == Served(kinds, m)
    ensures Run(kinds, run') && run'[|run'| - 1] == Served(kinds, m + 1)
  {
    run' := PostAlone(kinds, run, m);
    run' := TakenIsExecuted(kinds, run', m);
    assert run'[|run'| - 1].threads[m] == Thread(kinds[m], Wait, None, Signalled, 1, 1);
    run' := Extend(kinds, run', Move(m, false, false));
    run' := Extend(kinds, run', Move(m, false, false));
    run' := Extend(kinds, run', Move(m, false, false));
    run' := Extend(kinds, run', Move(m, false, false));
    var s := run'[|run'| - 1];
    assert s.threads == Served(kinds, m + 1).threads;
  }

  /** Whatever calls of RUN and RUNEX there are, there is a run in which all of them return. */
  lemma {:induction false} AllCanReturn(kinds: seq<Kind>, m: nat) returns (run: seq<State>)
    requires m <= |kinds|
    ensures Run(kinds, run) && run[|run| - 1] == Served(kinds, m)
  {
    if m == 0 {
      run := [Init(kinds)];
      assert Init(kinds).threads == Served(kinds, 0).threads;
    } else {
      run := AllCanReturn(kinds, m - 1);
      run := ServeOne(kinds, run, m - 1);
    }
  }

  /** Two calls of RUN: the second fails once, keeps the first one's task as its expected
      value, and then replaces it. */
  lemma RunLosesTask() returns (run: seq<State>)
    ensures Run([Shared, Shared], run)
    ensures var s := run[|run| - 1]; |s.threads| == 2 && s.threads[0].job == Lost
  {
    var kinds := [Shared, Shared];
    run := [Init(kinds)];
    run := Extend(kinds, run, Move(0, false, false));
    run := Extend(kinds, run, Move(0, false, false));
    run := Extend(kinds, run, Move(0, false, false));
    run := Extend(kinds, run, Move(1, false, false));
    run := Extend(kinds, run, Move(1, false, false));
    run := Extend(kinds, run, Move(1, false, false));
    assert run[|run| - 1].threads[0].pc == Post && run[|run| - 1].threads[1].pc == Post;
    run := Extend(kinds, run, Move(0, false, false));
    assert run[|run| - 1].slot == Some(0);
    run := Extend(kinds, run, Move(1, false, false));
    assert run[|run| - 1].threads[1].exp == Some(0);
    run := Extend(kinds, run, Move(1, false, false));
  }
}
