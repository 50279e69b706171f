/**
 What a call of NEWFRAME or TOGETHER achieves (src/lace.c): whose root task is run in the
 frame, that a call which lost its swap tries again until its own frame is published, and
 that it returns only when the frame is over. For every run of the protocol in Publication.
 */
module FrameCalls {
  import opened Helpers
  import opened WorkerSets
  import opened Publication

  /** Worker i publishes frame f, for a TOGETHER or for a NEWFRAME. */
  ghost predicate Publishes(s: State, s': State, i: nat, tg: bool, f: nat) {
    && Can(s, i, Step) && s' == Do(s, i, Step)
    && s.workers[i].pc == Publishing(tg) && s.t == None && s.next == f
  }

  /** Worker j finishes its root task of frame f. */
  ghost predicate FinishesRoot(s: State, s': State, j: nat, f: nat) {
    Can(s, j, FinishRoot) && s' == Do(s, j, FinishRoot) && Top(s.workers[j]) == f
  }

  // ---------------------------------------------------------------- who runs the task

  /** Every worker has a root task in the frame of a TOGETHER, only the publisher in that of a
      NEWFRAME. */
  lemma RootsAtPublish(s: State, s': State, i: nat, tg: bool, f: nat)
    requires Publishes(s, s', i, tg, f)
    ensures f in s'.roots && s'.t == Some(f) && |s'.workers| == |s.workers|
    ensures forall j: nat :: j in s'.roots[f] <==> j < |s.workers| && (tg || j == i)
  {
  }

  lemma StepSize(s: State, s': State)
    requires Next(s, s')
    ensures |s'.workers| == |s.workers|
  {
    hide Released;
  }

  /** A worker loses its root task of a frame only by finishing it. */
  lemma RootsStep(s: State, s': State, f: nat)
    requires Inv(s) && Next(s, s') && f in s.roots
    ensures f in s'.roots && s'.roots[f] <= s.roots[f] && |s'.workers| == |s.workers|
    ensures forall j: nat :: j in s.roots[f] && j !in s'.roots[f] ==> FinishesRoot(s, s', j, f)
    ensures forall j: nat :: FinishesRoot(s, s', j, f) ==> j in s.roots[f] && j !in s'.roots[f]
  {
    hide Placed, WillFollow, Behaves, RoundsOk, Published, Released, Leave;
    var i: nat, a :| Can(s, i, a) && s' == Do(s, i, a);
  }

  lemma RunAt(n: nat, states: seq<State>, k: nat)
    requires Run(n, states) && k < |states|
    ensures Inv(states[k]) && |states[k].workers| == n
    ensures k + 1 < |states| ==> Next(states[k], states[k + 1])
  {
    hide Inv, Next;
    RunInv(n, states[..k + 1]);
    RunSize(n, states, k);
  }

  lemma {:induction false} RunSize(n: nat, states: seq<State>, k: nat)
    requires Run(n, states) && k < |states|
    ensures |states[k].workers| == n
  {
    if k > 0 {
      RunSize(n, states, k - 1);
      StepSize(states[k - 1], states[k - 1 + 1]);
    }
  }

  /** Who has finished its root task of f between states a and b. */
  ghost predicate Finished(states: seq<State>, a: nat, b: nat, j: nat, f: nat)
    requires a <= b < |states|
  {
    exists x :: a <= x < b && FinishesRoot(states[x], states[x + 1], j, f)
  }

  lemma {:induction false} RootsBetween(n: nat, states: seq<State>, a: nat, b: nat, f: nat)
    requires Run(n, states) && a <= b < |states| && f in states[a].roots
    ensures f in states[b].roots && states[b].roots[f] <= states[a].roots[f]
    ensures forall j: nat :: j in states[a].roots[f] && j !in states[b].roots[f] <==> Finished(states, a, b, j, f)
    decreases b - a
  {
    hide Inv, Next, FinishesRoot;
    if a < b {
      var c := b - 1;
      RootsBetween(n, states, a, c, f);
      RunAt(n, states, c);
      RootsStep(states[c], states[b], f);
      forall j: nat ensures j in states[a].roots[f] && j !in states[b].roots[f] <==> Finished(states, a, b, j, f) {
        assert Finished(states, a, b, j, f) <==>
          Finished(states, a, c, j, f) || FinishesRoot(states[c], states[c + 1], j, f);
      }
    }
  }

  /** No worker finishes its root task of a frame twice. */
  lemma RootOnce(n: nat, states: seq<State>, x: nat, y: nat, j: nat, f: nat)
    requires Run(n, states) && x < y && y + 1 < |states|
    requires FinishesRoot(states[x], states[x + 1], j, f)
    ensures !FinishesRoot(states[y], states[y + 1], j, f)
  {
    hide Inv, Next;
    RunAt(n, states, x);
    RootsStep(states[x], states[x + 1], f);
    RootsBetween(n, states, x + 1, y, f);
    RunAt(n, states, y);
    RootsStep(states[y], states[y + 1], f);
  }

  /** A frame whose last barrier somebody has entered has no root task left. */
  ghost predicate EndedEmpty(s: State) {
    forall k :: 0 <= k < |s.rounds| && s.rounds[k].phase == 3 ==>
      s.rounds[k].f in s.roots && s.roots[s.rounds[k].f] == {}
  }

  lemma RoundsStep(s: State, s': State)
    requires Next(s, s')
    ensures s.rounds <= s'.rounds && |s'.rounds| <= |s.rounds| + 1
    ensures |s'.rounds| == |s.rounds| + 1 && s'.rounds[|s.rounds|].phase == 3 ==>
              s'.rounds[|s.rounds|].f in s.roots && s.roots[s'.rounds[|s.rounds|].f] == {}
  {
    hide Released, Leave;
    var i: nat, a :| Can(s, i, a) && s' == Do(s, i, a);
  }

  lemma EndedStep(s: State, s': State)
    requires Inv(s) && Next(s, s') && EndedEmpty(s)
    ensures EndedEmpty(s')
  {
    hide Inv, Next, FinishesRoot;
    RoundsStep(s, s');
    forall k | 0 <= k < |s'.rounds| && s'.rounds[k].phase == 3
      ensures s'.rounds[k].f in s'.roots && s'.roots[s'.rounds[k].f] == {}
    {
      assert k < |s.rounds| ==> s'.rounds[k] == s.rounds[k];
      RootsStep(s, s', s'.rounds[k].f);
    }
  }

  lemma {:induction false} Ended(n: nat, states: seq<State>, k: nat)
    requires Run(n, states) && k < |states|
    ensures EndedEmpty(states[k])
  {
    hide Inv, Next;
    if k > 0 {
      Ended(n, states, k - 1);
      RunAt(n, states, k - 1);
      EndedStep(states[k - 1], states[k - 1 + 1]);
    }
  }

  /** Whose root task is run in a frame that is over: everyone's for a TOGETHER, the
      publisher's alone for a NEWFRAME. */
  lemma WhoRunsTheTask(n: nat, states: seq<State>, m: nat, k: nat, i: nat, tg: bool, f: nat, j: nat)
    requires Run(n, states) && m < k < |states| && j < n
    requires Publishes(states[m], states[m + 1], i, tg, f) && Label(3, f) in states[k].rounds
    ensures Finished(states, m + 1, k, j, f) <==> tg || j == i
  {
    hide Inv, Next, Publishes, FinishesRoot;
    RunAt(n, states, m);
    RootsAtPublish(states[m], states[m + 1], i, tg, f);
    RootsBetween(n, states, m + 1, k, f);
    Ended(n, states, k);
  }

  // ---------------------------------------------------------------- the call tries again

  /** What a worker goes on with after the frame it is taking part in. */
  function ContOf(pc: Pc): Cont {
    match pc
    case Ready1(_, _, c) => c
    case At1(_, _, c) => c
    case Install(_, c) => c
    case Ready2(_, c) => c
    case At2(_, c) => c
    case Restore(_, c) => c
    case _ => None
  }

  /** The worker has called NEWFRAME or TOGETHER in its d-th frame and has not published its
      frame yet, although it may have gone into frames of others meanwhile. */
  predicate Owing(w: Worker, d: nat, tg: bool) {
    || (|w.frames| == d && (w.pc == Publishing(tg) || w.pc == Failed(tg) || ContOf(w.pc) == Some(tg)))
    || (|w.frames| > d && |w.conts| > d && w.conts[d] == Some(tg))
  }

  lemma OthersStay(s: State, u: nat, a: Action, i: nat)
    requires Can(s, u, a) && i < |s.workers| && i != u
    ensures i < |Do(s, u, a).workers| && Do(s, u, a).workers[i] == s.workers[i]
  {
    hide Released, Leave;
  }

  lemma OwingLeave(w: Worker, d: nat, tg: bool)
    requires Inside(w.pc) && |w.frames| == |w.conts| && Owing(w, d, tg) && (Lead(w.pc) ==> ContOf(w.pc) == None)
    ensures Owing(Leave(w), d, tg)
  {
  }

  lemma OwingOwn(s: State, i: nat, a: Action, d: nat, tg: bool)
    requires Can(s, i, a) && |s.workers[i].frames| == |s.workers[i].conts| && Owing(s.workers[i], d, tg)
    requires Lead(s.workers[i].pc) ==> ContOf(s.workers[i].pc) == None
    ensures i < |Do(s, i, a).workers|
    ensures Owing(Do(s, i, a).workers[i], d, tg)
            || (a == Step && s.workers[i].pc == Publishing(tg) && s.t == None && |s.workers[i].frames| == d)
  {
    hide Released, Leave;
    if Inside(s.workers[i].pc) {
      OwingLeave(s.workers[i], d, tg);
    }
  }

  lemma PlacedOf(s: State, i: nat)
    requires Inv(s) && i < |s.workers|
    ensures Placed(s.workers[i], s.rounds) && |s.workers[i].frames| == |s.workers[i].conts|
    ensures Lead(s.workers[i].pc) ==> ContOf(s.workers[i].pc) == None
  {
    assert Good(s, s.workers[i], i);
  }

  lemma OwingStep(s: State, s': State, i: nat, d: nat, tg: bool)
    requires Inv(s) && Next(s, s') && i < |s.workers| && Owing(s.workers[i], d, tg)
    ensures i < |s'.workers|
    ensures Owing(s'.workers[i], d, tg) || (Publishes(s, s', i, tg, s.next) && |s.workers[i].frames| == d)
  {
    hide Inv, Can, Do, Owing, Placed;
    var u: nat, a :| Can(s, u, a) && s' == Do(s, u, a);
    PlacedOf(s, i);
    if u == i {
      OwingOwn(s, i, a, d, tg);
    } else {
      OthersStay(s, u, a, i);
    }
  }

  /** A call is back in its frame only after it has published a frame of its own. */
  lemma {:induction false} CallPublishes(n: nat, states: seq<State>, i: nat, d: nat, tg: bool, j: nat, k: nat) returns (m: nat)
    requires Run(n, states) && j <= k < |states| && i < n && i < |states[j].workers| && i < |states[k].workers|
    requires Owing(states[j].workers[i], d, tg)
    requires states[k].workers[i].pc == Work && |states[k].workers[i].frames| <= d
    ensures j <= m < k && Publishes(states[m], states[m + 1], i, tg, states[m].next)
    ensures |states[m].workers[i].frames| == d
    decreases k - j
  {
    hide Inv, Next;
    RunAt(n, states, j);
    RunAt(n, states, j + 1);
    OwingStep(states[j], states[j + 1], i, d, tg);
    if Owing(states[j + 1].workers[i], d, tg) {
      m := CallPublishes(n, states, i, d, tg, j + 1, k);
    } else {
      m := j;
    }
  }

  // ---------------------------------------------------------------- the call returns

  predicate TakesPart(pc: Pc, f: nat) {
    pc == Ready1(f, true, None) || pc == At1(f, true, None) || pc == Reset(f) || pc == Install(f, None)
    || pc == Ready2(f, None) || pc == At2(f, None)
  }

  /** The worker is in the frame f that it published in its d-th frame. */
  predicate Hosting(w: Worker, d: nat, f: nat) {
    (|w.frames| == d && TakesPart(w.pc, f)) || (|w.frames| > d && w.frames[d] == f)
  }

  lemma HostingLeave(w: Worker, r: seq<Label>, d: nat, f: nat)
    requires Inside(w.pc) && Placed(w, r) && Hosting(w, d, f)
    ensures Hosting(Leave(w), d, f) || Label(3, f) in r
  {
    hide Open, Bodies;
    if w.pc.At3? && |w.frames| == d + 1 {
      assert r[w.left] == Label(3, f);
    }
  }

  lemma HostingOwn(s: State, i: nat, a: Action, d: nat, f: nat)
    requires Can(s, i, a) && Placed(s.workers[i], s.rounds) && Hosting(s.workers[i], d, f)
    ensures i < |Do(s, i, a).workers|
    ensures Hosting(Do(s, i, a).workers[i], d, f) || Label(3, f) in s.rounds
  {
    hide Released, Leave, Placed;
    if Inside(s.workers[i].pc) {
      HostingLeave(s.workers[i], s.rounds, d, f);
    }
  }

  lemma HostingStep(s: State, s': State, i: nat, d: nat, f: nat)
    requires Inv(s) && Next(s, s') && i < |s.workers| && Hosting(s.workers[i], d, f)
    ensures i < |s'.workers|
    ensures Hosting(s'.workers[i], d, f) || Label(3, f) in s.rounds
  {
    hide Inv, Can, Do, Hosting, Placed;
    var u: nat, a :| Can(s, u, a) && s' == Do(s, u, a);
    PlacedOf(s, i);
    if u == i {
      HostingOwn(s, i, a, d, f);
    } else {
      OthersStay(s, u, a, i);
    }
  }

  /** A publisher is back in its old frame only when its own frame is over. */
  lemma {:induction false} HostReturns(n: nat, states: seq<State>, i: nat, d: nat, f: nat, j: nat, k: nat)
    requires Run(n, states) && j <= k < |states| && i < n && i < |states[j].workers| && i < |states[k].workers|
    requires Hosting(states[j].workers[i], d, f) || Label(3, f) in states[j].rounds
    requires states[k].workers[i].pc == Work && |states[k].workers[i].frames| <= d
    ensures Label(3, f) in states[k].rounds
    decreases k - j
  {
    hide Inv, Next;
    if j < k {
      RunAt(n, states, j);
      RunAt(n, states, j + 1);
      RoundsStep(states[j], states[j + 1]);
      if Hosting(states[j].workers[i], d, f) {
        HostingStep(states[j], states[j + 1], i, d, f);
      }
      HostReturns(n, states, i, d, f, j + 1, k);
    }
  }

  /** The root task of worker v in the frame published at step m is run before state k exactly
      if the frame is one of a TOGETHER or v is the publisher. */
  ghost predicate RunsTask(states: seq<State>, m: nat, k: nat, v: nat, i: nat, tg: bool, f: nat)
    requires m < k < |states|
  {
    Finished(states, m + 1, k, v, f) <==> tg || v == i
  }

  /** A call of NEWFRAME or TOGETHER that is back in the frame it was made in: its own frame was
      published meanwhile, and its task was run there, by every worker for a TOGETHER and by the
      caller alone for a NEWFRAME. */
  lemma CallReturns(n: nat, states: seq<State>, i: nat, tg: bool, j: nat, k: nat) returns (m: nat, f: nat)
    requires Run(n, states) && j < k < |states| && i < n && i < |states[j].workers| && i < |states[k].workers|
    requires states[j].workers[i].pc == Publishing(tg)
    requires states[k].workers[i].pc == Work && |states[k].workers[i].frames| <= |states[j].workers[i].frames|
    ensures j <= m < k && Publishes(states[m], states[m + 1], i, tg, f)
    ensures forall v: nat :: v < n ==> RunsTask(states, m, k, v, i, tg, f)
  {
    hide Inv, Next, Finished;
    var d := |states[j].workers[i].frames|;
    m := CallPublishes(n, states, i, d, tg, j, k);
    f := states[m].next;
    RunAt(n, states, m + 1);
    assert states[m + 1].workers[i].pc == Ready1(f, true, None);
    HostReturns(n, states, i, d, f, m + 1, k);
    forall v: nat | v < n ensures RunsTask(states, m, k, v, i, tg, f) {
      WhoRunsTheTask(n, states, m, k, i, tg, f, v);
    }
  }

  // ---------------------------------------------------------------- nobody waits in vain

  /** A worker that waits in a barrier waits for somebody who can go on towards it. */
  lemma NobodyWaitsInVain(n: nat, states: seq<State>, i: nat) returns (j: nat, a: Action)
    requires Run(n, states) && i < |Final(states).workers| && Inside(Final(states).workers[i].pc)
    ensures Can(Final(states), j, a) && (a == Step || a == See || a == EndBody)
    ensures j == i || Final(states).workers[j].entered <= Final(states).workers[i].left
  {
    RunInv(n, states);
    var s := Final(states);
    if Released(s, i) {
      j, a := i, Step;
    } else {
      j :| 0 <= j < |s.workers| && s.workers[j].entered <= s.workers[i].left;
      a := Awaited(s, i, j);
    }
  }

  lemma Awaited(s: State, i: nat, j: nat) returns (a: Action)
    requires Inv(s) && i < |s.workers| && j < |s.workers| && Inside(s.workers[i].pc)
    requires s.workers[j].entered <= s.workers[i].left
    ensures Can(s, j, a) && (a == Step || a == See || a == EndBody)
  {
    hide Open, Bodies, RoundsOk, RootsOk, Behaves, Published;
    var w, v := s.workers[i], s.workers[j];
    assert Good(s, w, i) && Good(s, v, j);
    if Inside(v.pc) {
      a := Step;
      forall x | 0 <= x < |s.workers| ensures v.left < s.workers[x].entered {
        TogetherOf(s, i, x);
      }
    } else if !v.pc.Work? {
      a := Step;
    } else {
      a := AwaitedInBody(s, j);
    }
  }

  /** A worker in the body of its frame follows the others into the newest barrier. */
  lemma AwaitedInBody(s: State, j: nat) returns (a: Action)
    requires Inv(s) && j < |s.workers| && s.workers[j].pc == Work && s.workers[j].entered < |s.rounds|
    ensures Can(s, j, a) && (a == See || a == EndBody)
  {
    hide Bodies, Open, Behaves, Published, Together, Distinct;
    var v, r := s.workers[j], s.rounds;
    assert Good(s, v, j);
    var l := r[v.entered];
    if l.phase == 1 {
      a := See;
    } else {
      a := EndBody;
      assert Closes(r[..v.entered], l.f);
    }
  }
}
