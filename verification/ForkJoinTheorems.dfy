/**
 What every run of the work-stealing system guarantees.
 */
module ForkJoinTheorems {
  import opened Helpers
  import opened SplitDeque
  import opened Sequential
  import opened ForkJoin
  import opened ForkJoinProof

  /** The instance is spawned and still waits in its slot for the owner or a thief. */
  ghost predicate Waiting(w: Worker, id: nat)
    requires LiveHead(w.pc) <= |w.dq.slots|
  {
    exists i :: 0 <= i < LiveHead(w.pc) && w.dq.slots[i].id == id && w.dq.slots[i].claim.Unclaimed?
  }

  /** Exactly once: a spawned instance has been claimed once, by one compare-and-swap or
      by the owner's pop, unless it still waits; an instance not yet spawned never was. */
  lemma ExactlyOnce(body: Body, n: nat, size: nat, run: seq<System>, k: nat, w: nat, id: nat)
    requires size < SIZE_LIMIT && Run(body, n, size, run) && k < |run| && w < n
    ensures |run[k].workers| == n
    ensures var me := run[k].workers[w];
            && LiveHead(me.pc) <= |me.dq.slots|
            && me.dq.claims[id] == if id < me.dq.next && !Waiting(me, id) then 1 else 0
  {
    RunInv(body, n, size, run, k);
    var me := run[k].workers[w];
    assert Local(body, me);
    var H := LiveHead(me.pc);
    if id < me.dq.next && Live(me.dq, H, id) {
      var i :| 0 <= i < H && me.dq.slots[i].id == id;
      if Waiting(me, id) {
        var j :| 0 <= j < H && me.dq.slots[j].id == id && me.dq.slots[j].claim.Unclaimed?;
        assert i == j;
      }
    }
  }

  lemma OwnClaims(body: Body, w: Worker, a: Action, id: nat)
    requires OwnEnabled(body, w, a)
    ensures OwnNext(body, w, a).dq.claims[id] ==
            w.dq.claims[id] + (if a.PopStep? && w.dq.slots[w.pc.d].id == id then 1 else 0)
  {
    if a.OwnStep? {
      AdvanceFrame(w.dq, w.pc);
    }
  }

  predicate Wins(q: Deque, stack: seq<Frame>, spurious: bool) {
    && stack != [] && Last(stack).StealF? && Last(stack).spc.Swapping?
    && !spurious && q.tail == Last(stack).spc.tail && q.split == Last(stack).spc.split
    && q.tail < |q.slots|
  }

  lemma StealClaims(q: Deque, w: nat, stack: seq<Frame>, spurious: bool, id: nat)
    requires stack != [] && Last(stack).StealF? && SpcEnabled(Last(stack).spc, |q.slots|)
    ensures StealNext(q, w, stack, spurious).0.claims[id] ==
            q.claims[id] + (if Wins(q, stack, spurious) && q.slots[q.tail].id == id then 1 else 0)
  {
  }

  /** The step claims instance `id` of worker w's deque: by w's own pop, or by a thief. */
  ghost predicate Claims(body: Body, s: System, s': System, w: nat, id: nat)
    requires w < |s.workers|
  {
    || (&& Enabled(body, s, w, PopStep) && s' == Perform(body, s, w, PopStep)
        && s.workers[w].dq.slots[s.workers[w].pc.d].id == id)
    || (exists v :: ClaimedBy(body, s, s', w, id, v))
  }

  ghost predicate ClaimedBy(body: Body, s: System, s': System, w: nat, id: nat, v: nat)
    requires w < |s.workers|
  {
    && Enabled(body, s, v, StealStep(false)) && s' == Perform(body, s, v, StealStep(false))
    && Last(s.workers[v].stack).victim == w && Wins(s.workers[w].dq, s.workers[v].stack, false)
    && s.workers[w].dq.slots[s.workers[w].dq.tail].id == id
  }

  lemma ClaimsCounted(body: Body, s: System, s': System, w: nat, id: nat)
    requires Next(body, s, s') && w < |s.workers|
    ensures |s'.workers| == |s.workers|
    ensures s.workers[w].dq.claims[id] <= s'.workers[w].dq.claims[id]
    ensures Claims(body, s, s', w, id) ==> s.workers[w].dq.claims[id] < s'.workers[w].dq.claims[id]
  {
    var u, a :| Enabled(body, s, u, a) && s' == Perform(body, s, u, a);
    StepClaims(body, s, u, a, w, id);
    if Enabled(body, s, w, PopStep) && s' == Perform(body, s, w, PopStep) {
      StepClaims(body, s, w, PopStep, w, id);
    }
    forall v | ClaimedBy(body, s, s', w, id, v)
      ensures s.workers[w].dq.claims[id] < s'.workers[w].dq.claims[id]
    {
      StepClaims(body, s, v, StealStep(false), w, id);
    }
  }

  lemma StepClaims(body: Body, s: System, u: nat, a: Action, w: nat, id: nat)
    requires Enabled(body, s, u, a) && w < |s.workers|
    ensures |Perform(body, s, u, a).workers| == |s.workers|
    ensures Perform(body, s, u, a).workers[w].dq.claims[id] ==
            s.workers[w].dq.claims[id] +
            (if a.StealStep? then
               if Last(s.workers[u].stack).victim == w && Wins(s.workers[w].dq, s.workers[u].stack, a.spurious)
                  && s.workers[w].dq.slots[s.workers[w].dq.tail].id == id then 1 else 0
             else if u == w && a.PopStep? && s.workers[w].dq.slots[s.workers[w].pc.d].id == id then 1 else 0)
  {
    if a.StealStep? {
      StealClaims(s.workers[Last(s.workers[u].stack).victim].dq, u, s.workers[u].stack, a.spurious, id);
    } else {
      OwnClaims(body, s.workers[u], a, id);
    }
  }

  lemma {:induction false} ClaimsGrow(body: Body, n: nat, size: nat, run: seq<System>, j: nat, k: nat, w: nat, id: nat)
    requires size < SIZE_LIMIT && Run(body, n, size, run) && j <= k < |run| && w < n
    ensures |run[j].workers| == |run[k].workers| == n
    ensures run[j].workers[w].dq.claims[id] <= run[k].workers[w].dq.claims[id] <= 1
    decreases k - j
  {
    RunInv(body, n, size, run, j);
    ExactlyOnce(body, n, size, run, k, w, id);
    if j < k {
      assert Next(body, run[j], run[j + 1]);
      ClaimsCounted(body, run[j], run[j + 1], w, id);
      ClaimsGrow(body, n, size, run, j + 1, k, w, id);
    }
  }

  /** No two steps of a run claim the same instance, whoever performs them. */
  lemma NoSecondClaim(body: Body, n: nat, size: nat, run: seq<System>, j: nat, k: nat, w: nat, id: nat)
    requires size < SIZE_LIMIT && Run(body, n, size, run) && j < k && k + 1 < |run| && w < n
    requires w < |run[j].workers| && w < |run[k].workers|
    requires Claims(body, run[j], run[j + 1], w, id)
    ensures !Claims(body, run[k], run[k + 1], w, id)
  {
    hide Next, Claims;
    ClaimsGrow(body, n, size, run, j + 1, k, w, id);
    ClaimsGrow(body, n, size, run, k + 1, k + 1, w, id);
    assert Next(body, run[j], run[j + 1]) && Next(body, run[k], run[k + 1]);
    ClaimsCounted(body, run[j], run[j + 1], w, id);
    ClaimsCounted(body, run[k], run[k + 1], w, id);
  }

  /** Fork-join meaning: whatever an external task returned, in whatever interleaving, is
      the value of the sequential recursion. */
  lemma ForkJoinMeaning(body: Body, n: nat, size: nat, run: seq<System>, k: nat, r: nat, v: int)
    requires size < SIZE_LIMIT && Run(body, n, size, run) && k < |run| && r < |run[k].results|
    ensures Value(body, run[k].results[r].task, run[k].results[r].value)
    ensures Value(body, run[k].results[r].task, v) ==> v == run[k].results[r].value
  {
    RunInv(body, n, size, run, k);
    if Value(body, run[k].results[r].task, v) {
      ValueUnique(body, run[k].results[r].task, v, run[k].results[r].value);
    }
  }

  /** The deque's shape between the owner's operations, in every reachable state. */
  lemma DequeShape(body: Body, n: nat, size: nat, run: seq<System>, k: nat, w: nat)
    requires size < SIZE_LIMIT && Run(body, n, size, run) && k < |run| && w < n
    ensures |run[k].workers| == n
    ensures var me := run[k].workers[w]; var q := me.dq;
            me.pc.Idle? ==>
              && me.pc.h <= |q.slots|
              && q.allstolen == q.pallstolen
              && (!q.allstolen ==> q.tail <= q.split <= me.pc.h && q.split == q.psplit)
              && (q.allstolen ==> q.split <= q.tail && me.pc.h <= q.psplit)
              && (forall i :: 0 <= i < me.pc.h ==> (q.slots[i].claim.Stolen? <==> q.allstolen || i < q.tail))
              && (forall i :: 0 <= i < |q.slots| ==> (q.slots[i].thief == Empty <==> me.pc.h <= i))
  {
    RunInv(body, n, size, run, k);
    assert Local(body, run[k].workers[w]);
  }

  /** The slot SYNC pops is never one that a thief has claimed, and growing the shared
      part in SPAWN or SYNC_SLOW never wraps, never shrinks it and never exposes a slot
      that is not there or that is being popped. */
  lemma PopAndGrow(body: Body, n: nat, size: nat, run: seq<System>, k: nat, w: nat)
    requires size < SIZE_LIMIT && Run(body, n, size, run) && k < |run| && w < n
    ensures |run[k].workers| == n
    ensures var me := run[k].workers[w]; var q := me.dq;
            && (me.pc.SyncPop? ==> me.pc.d < |q.slots| && q.slots[me.pc.d].claim.Unclaimed?)
            && (me.pc.SpawnGrow? ==> q.split < Advance(q, me.pc).0.split <= me.pc.h + 1)
            && (me.pc.SlowGrow? ==>
                  q.split <= Advance(q, me.pc).0.split <= me.pc.d
                  && (q.split < me.pc.d ==> q.split < Advance(q, me.pc).0.split))
  {
    RunInv(body, n, size, run, k);
    assert Local(body, run[k].workers[w]);
  }

  /** lace_shrink_shared under interference. When it gives up (LeapRead comes next) every
      slot is claimed and no steal can succeed; when it succeeds the task to be popped is
      private and the public and private split agree. */
  lemma ShrinkOutcome(body: Body, n: nat, size: nat, run: seq<System>, k: nat, w: nat)
    requires size < SIZE_LIMIT && Run(body, n, size, run) && k < |run| && w < n
    ensures |run[k].workers| == n
    ensures var me := run[k].workers[w]; var q := me.dq;
            && (me.pc.LeapRead? ==>
                  && me.pc.d < |q.slots| && q.split <= q.tail && me.pc.d + 1 <= q.psplit
                  && forall i :: 0 <= i <= me.pc.d ==> q.slots[i].claim.Stolen?)
            && (me.pc.ShrinkSet? ==>
                  && me.pc.d < |q.slots| && q.slots[me.pc.d].claim.Unclaimed?
                  && q.tail <= me.pc.newsplit == q.split < q.psplit)
  {
    RunInv(body, n, size, run, k);
    assert Local(body, run[k].workers[w]);
  }

  /** After leapfrogging, whatever nested tasks ran: if not allstolen, tail = split = head. */
  lemma LeapAssumption(body: Body, n: nat, size: nat, run: seq<System>, k: nat, w: nat)
    requires size < SIZE_LIMIT && Run(body, n, size, run) && k < |run| && w < n
    ensures |run[k].workers| == n
    ensures var me := run[k].workers[w]; var q := me.dq;
            me.pc.LeapPost? && !q.pallstolen ==> q.tail == q.split == q.psplit == me.pc.d + 1
  {
    RunInv(body, n, size, run, k);
    assert Local(body, run[k].workers[w]);
  }

  /** A worker that breaks the contract of SPAWN, SYNC or return, or overflows its deque. */
  ghost predicate Misused(body: Body, w: Worker) {
    && AtBody(w)
    && var f := Last(w.stack);
       match body(f.task, f.hist)
       case Spawn(_) => w.pc.h == |w.dq.slots|
       case Sync => f.pend == []
       case Call(_) => false
       case Return(_) => f.pend != []
  }

  /** No worker is ever stuck on an access out of bounds or on an impossible state. */
  lemma NeverStuck(body: Body, n: nat, size: nat, run: seq<System>, k: nat, w: nat) returns (a: Action)
    requires size < SIZE_LIMIT && Run(body, n, size, run) && k < |run| && w < n
    requires w < |run[k].workers| && !Misused(body, run[k].workers[w])
    ensures Enabled(body, run[k], w, a)
  {
    RunInv(body, n, size, run, k);
    var s := run[k];
    var me := s.workers[w];
    assert Local(body, me) && Holds(s, w);
    if Stepping(me.pc) {
      a := OwnStep;
    } else if me.pc.SyncPop? {
      a := PopStep;
    } else if me.pc.LeapRead? {
      a := LeapStart;
    } else if me.pc.LeapEnd? {
      a := LeapFinish;
    } else if me.stack == [] {
      a := ExtBegin(0);
    } else {
      var m := |me.stack| - 1;
      match me.stack[m] {
        case BodyF(_, _, _, _) => a := BodyStep;
        case LeapF(_) => a := LeapCheck;
        case StealF(_, _, _) =>
          assert FrameHolds(s, w, m, me.stack[m]);
          a := StealStep(false);
      }
    }
  }
}
