/**
 The moves on one deque that module Frames lets a worker and its thieves make are those of the
 work-stealing system: whatever the system does in a step, every deque sees one such move, or
 nothing.
 */
module DequeMoves {
  import opened Helpers
  import opened SplitDeque
  import opened Sequential
  import opened ForkJoin
  import opened ForkJoinProof
  import opened Frames

  ghost predicate OwnerMove(q: Deque, pc: Pc, q': Deque, pc': Pc) {
    exists o :: OwnerCan(q, pc, 0, o) && (q', pc') == OwnerDo(q, pc, 0, o)
  }

  ghost predicate ThiefMove(q: Deque, H: nat, q': Deque) {
    exists r :: ThiefCan(q, H, r) && q' == ThiefDo(q, H, r)
  }

  /** The act of the owner behind an action of the system. */
  function ActOf(body: Body, w: Worker, a: Action): OwnerAct
    requires OwnEnabled(body, w, a)
  {
    match a
    case BodyStep =>
      (match body(Last(w.stack).task, Last(w.stack).hist)
       case Spawn(t) => OwnerAct.Spawn(t)
       case _ => OwnerAct.Sync)
    case ShareStep => Share
    case PopStep => OwnerAct.Pop
    case LeapStart => LeapEnter
    case LeapCheck => LeapExit
    case LeapFinish => LeapPop
    case _ => Step
  }

  /** An action of a worker on its own deque. */
  lemma OwnMoves(body: Body, w: Worker, a: Action)
    requires Local(body, w) && OwnEnabled(body, w, a)
    ensures var w' := OwnNext(body, w, a);
            (w'.dq == w.dq && w'.pc == w.pc) || OwnerMove(w.dq, w.pc, w'.dq, w'.pc)
  {
    hide Advance, SlotsOk, ClaimsOk, Shape, ResultsOk, PendOk, Linked;
    var w' := OwnNext(body, w, a);
    if !(w'.dq == w.dq && w'.pc == w.pc) {
      var o := ActOf(body, w, a);
      assert OwnerCan(w.dq, w.pc, 0, o) && (w'.dq, w'.pc) == OwnerDo(w.dq, w.pc, 0, o);
    }
  }

  /** A step of a thief on its victim's deque. */
  lemma StealMoves(q: Deque, H: nat, w: nat, stack: seq<Frame>, spurious: bool)
    requires stack != [] && Last(stack).StealF? && SpcEnabled(Last(stack).spc, |q.slots|)
    requires Holding(q, H, w, |stack| - 1, Last(stack).spc)
    ensures var q' := StealNext(q, w, stack, spurious).0; q' == q || ThiefMove(q, H, q')
  {
    var q' := StealNext(q, w, stack, spurious).0;
    match Last(stack).spc
    case Swapping(t, s) =>
      if q' != q {
        assert ThiefCan(q, H, Win(w, |stack| - 1)) && q' == ThiefDo(q, H, Win(w, |stack| - 1));
      }
    case Requesting => assert ThiefCan(q, H, Request) && q' == ThiefDo(q, H, Request);
    case Won(i) => assert ThiefCan(q, H, Mark(i, By(w))) && q' == ThiefDo(q, H, Mark(i, By(w)));
    case Storing(i, _, v) => assert ThiefCan(q, H, Put(i, v)) && q' == ThiefDo(q, H, Put(i, v));
    case Finishing(i, _, _) => assert ThiefCan(q, H, Mark(i, Completed)) && q' == ThiefDo(q, H, Mark(i, Completed));
    case _ =>
  }

  /** In every run, every step is for every deque one move of its owner, one move of a thief, or
      nothing. */
  lemma SystemMoves(body: Body, n: nat, size: nat, run: seq<System>, k: nat, v: nat)
    requires size < SIZE_LIMIT && Run(body, n, size, run) && k + 1 < |run| && v < n
    ensures |run[k].workers| == |run[k + 1].workers| == n
    ensures var me, me' := run[k].workers[v], run[k + 1].workers[v];
            || (me'.dq == me.dq && me'.pc == me.pc)
            || OwnerMove(me.dq, me.pc, me'.dq, me'.pc)
            || (me'.pc == me.pc && ThiefMove(me.dq, LiveHead(me.pc), me'.dq))
  {
    hide OwnerMove, ThiefMove, Local, StealNext, OwnNext, Holding;
    RunInv(body, n, size, run, k);
    RunInv(body, n, size, run, k + 1);
    var s := run[k];
    assert Next(body, s, run[k + 1]);
    var u: nat, a :| Enabled(body, s, u, a) && run[k + 1] == Perform(body, s, u, a);
    if a.StealStep? {
      var f, m := Last(s.workers[u].stack), |s.workers[u].stack| - 1;
      assert Holds(s, u) && FrameHolds(s, u, m, f);
      StealMoves(s.workers[f.victim].dq, LiveHead(s.workers[f.victim].pc), u, s.workers[u].stack, a.spurious);
    } else {
      OwnMoves(body, s.workers[u], a);
    }
  }
}
