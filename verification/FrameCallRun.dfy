/**
 A whole call of NEWFRAME or TOGETHER, for any number of workers: worker 0 publishes a frame,
 the others see it, all go through the three barriers, and all are back where they were.
 */
module FrameCallRun {
  import opened Helpers
  import opened WorkerSets
  import opened Publication

  /** All workers alike, but for worker 0. */
  function Crew(n: nat, lead: Worker, other: Worker): seq<Worker> {
    seq(n, j => if j == 0 then lead else other)
  }

  /** Workers before u have moved on to lead' and other'. */
  function Moving(n: nat, u: nat, lead: Worker, other: Worker, lead': Worker, other': Worker): seq<Worker> {
    seq(n, j => if j < u then (if j == 0 then lead' else other') else (if j == 0 then lead else other))
  }

  lemma MovingStep(n: nat, u: nat, lead: Worker, other: Worker, lead': Worker, other': Worker)
    requires u < n
    ensures Moving(n, u, lead, other, lead', other')[u := if u == 0 then lead' else other']
         == Moving(n, u + 1, lead, other, lead', other')
    ensures Moving(n, 0, lead, other, lead', other') == Crew(n, lead, other)
    ensures Moving(n, n, lead, other, lead', other') == Crew(n, lead', other')
  {
  }

  lemma Extend(n: nat, states: seq<State>, i: nat, a: Action) returns (states': seq<State>)
    requires Run(n, states) && Can(Final(states), i, a)
    ensures states' == states + [Do(Final(states), i, a)] && Run(n, states')
  {
    var s' := Do(Final(states), i, a);
    assert Next(Final(states), s');
    hide Next;
    states' := states + [s'];
    forall k | 0 <= k < |states'| - 1 ensures Next(states'[k], states'[k + 1]) {
      assert k < |states| - 1 ==> Next(states[k], states[k + 1]);
    }
  }

  /** One step of every worker in turn that changes nothing but the workers and, with the first
      one, the rounds. */
  lemma {:induction false} Sweep(n: nat, states: seq<State>, u: nat, a: Action, s: State,
                                 lead: Worker, other: Worker, lead': Worker, other': Worker, r: seq<Label>)
    returns (states': seq<State>)
    requires Run(n, states) && u <= n
    requires Final(states) == At(n, s, u, lead, other, lead', other', r)
    requires forall v: nat :: u <= v < n ==> Turns(n, s, v, a, lead, other, lead', other', r)
    ensures Run(n, states') && states <= states' && Final(states') == At(n, s, n, lead, other, lead', other', r)
    decreases n - u
  {
    if u == n {
      states' := states;
    } else {
      assert Turns(n, s, u, a, lead, other, lead', other', r);
      states' := Extend(n, states, u, a);
      states' := Sweep(n, states', u + 1, a, s, lead, other, lead', other', r);
    }
  }

  function At(n: nat, s: State, u: nat, lead: Worker, other: Worker, lead': Worker, other': Worker, r: seq<Label>): State {
    s.(workers := Moving(n, u, lead, other, lead', other'), rounds := if u == 0 then s.rounds else r)
  }

  ghost predicate Turns(n: nat, s: State, v: nat, a: Action,
                        lead: Worker, other: Worker, lead': Worker, other': Worker, r: seq<Label>)
  {
    var x := At(n, s, v, lead, other, lead', other', r);
    Can(x, v, a) && Do(x, v, a) == At(n, s, v + 1, lead, other, lead', other', r)
  }

  /** A worker with the given program point and rounds, before it has the frame and with it. */
  function Outer(pc: Pc, entered: nat, left: nat, installed: set<nat>, started: multiset<nat>): Worker {
    Worker(pc, [0], [None], entered, left, installed, started)
  }

  function Inner(pc: Pc, entered: nat): Worker {
    Worker(pc, [0, 1], [None, None], entered, 2, {1}, multiset{1})
  }

  const L1 := Label(1, 1)
  const L2 := Label(2, 1)
  const L3 := Label(3, 1)

  function Everywhere(n: nat, s: State, lead: Worker, other: Worker, r: seq<Label>): State {
    s.(workers := Crew(n, lead, other), rounds := r)
  }

  /** Sweep from the first worker on. */
  lemma All(n: nat, states: seq<State>, a: Action, s: State,
            lead: Worker, other: Worker, lead': Worker, other': Worker, r: seq<Label>)
    returns (states': seq<State>)
    requires Run(n, states) && n > 0 && Final(states) == Everywhere(n, s, lead, other, s.rounds)
    requires forall v: nat :: v < n ==> Turns(n, s, v, a, lead, other, lead', other', r)
    ensures Run(n, states') && states <= states' && Final(states') == Everywhere(n, s, lead', other', r)
  {
    hide Run, Turns;
    MovingStep(n, 0, lead, other, lead', other');
    states' := Sweep(n, states, 0, a, s, lead, other, lead', other', r);
  }

  /** Worker 0 calls and publishes. */
  lemma Publish(n: nat, tg: bool) returns (states: seq<State>, s: State)
    requires n > 0
    ensures Run(n, states) && |states| == 3 && |states[1].workers| == n && states[1].workers[0].pc == Publishing(tg)
    ensures Final(states) == s && s.t == Some(1) && s.next == 2 && s.leader == 0 && s.helps == {} && s.rounds == []
    ensures s.roots == map[0 := {0}, 1 := if tg then Everyone(n) else {0}]
    ensures s.workers == Crew(n, Outer(Ready1(1, true, None), 0, 0, {}, multiset{}), Outer(Work, 0, 0, {}, multiset{}))
  {
    states := [Init(n)];
    states := Extend(n, states, 0, WantFrame(tg));
    states := Extend(n, states, 0, Step);
    s := Final(states);
    assert s.workers == Crew(n, Outer(Ready1(1, true, None), 0, 0, {}, multiset{}), Outer(Work, 0, 0, {}, multiset{}));
  }

  /** The others see the frame and copy it. */
  lemma Copy(n: nat, states: seq<State>, s: State) returns (states': seq<State>)
    requires Run(n, states) && n > 0 && Final(states) == s && s.t == Some(1) && s.rounds == []
    requires s.workers == Crew(n, Outer(Ready1(1, true, None), 0, 0, {}, multiset{}), Outer(Work, 0, 0, {}, multiset{}))
    ensures Run(n, states') && states <= states'
    ensures Final(states') == Everywhere(n, s, Outer(Ready1(1, true, None), 0, 0, {}, multiset{}),
                                         Outer(Ready1(1, false, None), 0, 0, {}, multiset{}), [])
  {
    var lead, w := Outer(Ready1(1, true, None), 0, 0, {}, multiset{}), Outer(Work, 0, 0, {}, multiset{});
    var seen, copied := Outer(Seen, 0, 0, {}, multiset{}), Outer(Ready1(1, false, None), 0, 0, {}, multiset{});
    MovingStep(n, 0, lead, w, lead, seen);
    MovingStep(n, 0, lead, seen, lead, copied);
    assert Moving(n, 1, lead, w, lead, seen) == Crew(n, lead, w);
    assert Moving(n, 1, lead, seen, lead, copied) == Crew(n, lead, seen);
    forall v: nat | 1 <= v < n ensures Turns(n, s, v, See, lead, w, lead, seen, []) {
      MovingStep(n, v, lead, w, lead, seen);
    }
    states' := Sweep(n, states, 1, See, s, lead, w, lead, seen, []);
    forall v: nat | 1 <= v < n ensures Turns(n, s, v, Step, lead, seen, lead, copied, []) {
      MovingStep(n, v, lead, seen, lead, copied);
    }
    states' := Sweep(n, states', 1, Step, s, lead, seen, lead, copied, []);
  }

  /** Barrier 1, and the pointer is reset. */
  lemma FirstBarrier(n: nat, states: seq<State>, s: State) returns (states': seq<State>)
    requires Run(n, states) && n > 0 && s.t == Some(1) && s.rounds == []
    requires Final(states) == Everywhere(n, s, Outer(Ready1(1, true, None), 0, 0, {}, multiset{}),
                                         Outer(Ready1(1, false, None), 0, 0, {}, multiset{}), [])
    ensures Run(n, states') && states <= states'
    ensures var w := Outer(Install(1, None), 1, 1, {}, multiset{}); Final(states') == Everywhere(n, s.(t := None), w, w, [L1])
  {
    var a, b := Outer(Ready1(1, true, None), 0, 0, {}, multiset{}), Outer(Ready1(1, false, None), 0, 0, {}, multiset{});
    var a1, b1 := Outer(At1(1, true, None), 1, 0, {}, multiset{}), Outer(At1(1, false, None), 1, 0, {}, multiset{});
    var a2, b2 := Outer(Reset(1), 1, 1, {}, multiset{}), Outer(Install(1, None), 1, 1, {}, multiset{});
    forall v: nat | v < n ensures Turns(n, s, v, Step, a, b, a1, b1, [L1]) {
      MovingStep(n, v, a, b, a1, b1);
    }
    states' := All(n, states, Step, s, a, b, a1, b1, [L1]);
    var s1 := s.(rounds := [L1]);
    forall v: nat | v < n ensures Turns(n, s1, v, Step, a1, b1, a2, b2, [L1]) {
      MovingStep(n, v, a1, b1, a2, b2);
    }
    states' := All(n, states', Step, s1, a1, b1, a2, b2, [L1]);
    states' := Extend(n, states', 0, Step);
    assert Crew(n, a2, b2)[0 := b2] == Crew(n, b2, b2);
  }

  /** The frame is installed; barrier 2; everyone begins the body. */
  lemma SecondBarrier(n: nat, states: seq<State>, s: State) returns (states': seq<State>)
    requires Run(n, states) && n > 0 && s.rounds == [L1]
    requires var w := Outer(Install(1, None), 1, 1, {}, multiset{}); Final(states) == Everywhere(n, s, w, w, [L1])
    ensures Run(n, states') && states <= states'
    ensures Final(states') == Everywhere(n, s, Inner(Work, 2), Inner(Work, 2), [L1, L2])
  {
    var a, b := Outer(Install(1, None), 1, 1, {}, multiset{}), Outer(Ready2(1, None), 1, 1, {1}, multiset{});
    var c, d := Outer(At2(1, None), 2, 1, {1}, multiset{}), Inner(Work, 2);
    assert a.installed + {1} == {1};
    assert c.frames + [1] == d.frames && c.conts + [None] == d.conts && c.started + multiset{1} == d.started;
    assert Leave(c) == d;
    forall v: nat | v < n ensures Turns(n, s, v, Step, a, a, b, b, [L1]) {
      MovingStep(n, v, a, a, b, b);
    }
    states' := All(n, states, Step, s, a, a, b, b, [L1]);
    forall v: nat | v < n ensures Turns(n, s, v, Step, b, b, c, c, [L1, L2]) {
      MovingStep(n, v, b, b, c, c);
    }
    states' := All(n, states', Step, s, b, b, c, c, [L1, L2]);
    var s2 := s.(rounds := [L1, L2]);
    forall v: nat | v < n ensures Turns(n, s2, v, Step, c, c, d, d, [L1, L2]) {
      MovingStep(n, v, c, c, d, d);
    }
    states' := All(n, states', Step, s2, c, c, d, d, [L1, L2]);
  }

  /** Everyone who has a root task finishes it. */
  lemma {:induction false} FinishAll(n: nat, states: seq<State>, s: State) returns (states': seq<State>)
    requires Run(n, states) && Final(states) == s && s.helps == {} && 1 in s.roots
    requires s.workers == Crew(n, Inner(Work, 2), Inner(Work, 2)) && forall j :: j in s.roots[1] ==> j < n
    ensures Run(n, states') && states <= states' && Final(states') == s.(roots := s.roots[1 := {}])
    decreases s.roots[1]
  {
    if s.roots[1] == {} {
      states' := states;
    } else {
      var x :| x in s.roots[1];
      states' := Extend(n, states, x, FinishRoot);
      states' := FinishAll(n, states', s.(roots := s.roots[1 := s.roots[1] - {x}]));
    }
  }

  /** Barrier 3; everyone is back. */
  lemma ThirdBarrier(n: nat, states: seq<State>, s: State) returns (states': seq<State>)
    requires Run(n, states) && n > 0 && s.rounds == [L1, L2] && 1 in s.roots && s.roots[1] == {}
    requires Final(states) == Everywhere(n, s, Inner(Work, 2), Inner(Work, 2), [L1, L2])
    ensures Run(n, states') && states <= states'
    ensures var w := Outer(Work, 3, 3, {1}, multiset{1}); Final(states') == Everywhere(n, s, w, w, [L1, L2, L3])
  {
    var r := [L1, L2, L3];
    var a, b := Inner(Work, 2), Inner(At3(1), 3);
    var c, d := Outer(Restore(1, None), 3, 3, {1}, multiset{1}), Outer(Work, 3, 3, {1}, multiset{1});
    assert Front(b.frames) == c.frames && Front(b.conts) == c.conts;
    assert Leave(b) == c;
    forall v: nat | v < n ensures Turns(n, s, v, EndBody, a, a, b, b, r) {
      MovingStep(n, v, a, a, b, b);
    }
    states' := All(n, states, EndBody, s, a, a, b, b, r);
    var s3 := s.(rounds := r);
    forall v: nat | v < n ensures Turns(n, s3, v, Step, b, b, c, c, r) {
      MovingStep(n, v, b, b, c, c);
    }
    states' := All(n, states', Step, s3, b, b, c, c, r);
    forall v: nat | v < n ensures Turns(n, s3, v, Step, c, c, d, d, r) {
      MovingStep(n, v, c, c, d, d);
    }
    states' := All(n, states', Step, s3, c, c, d, d, r);
  }

  /** Any number of workers can go through a whole call, and are back in their old frame. */
  lemma WholeCall(n: nat, tg: bool) returns (states: seq<State>)
    requires n > 0
    ensures Run(n, states) && |states| > 1 && |states[1].workers| == |Final(states).workers| == n
    ensures states[1].workers[0].pc == Publishing(tg)
    ensures forall j :: 0 <= j < n ==> Final(states).workers[j].pc == Work && Final(states).workers[j].frames == [0]
  {
    hide Run;
    var s;
    states, s := Publish(n, tg);
    ghost var second := states[1];
    states := Copy(n, states, s);
    states := FirstBarrier(n, states, s);
    var s1 := s.(t := None, rounds := [L1]);
    states := SecondBarrier(n, states, s1);
    var s2 := Everywhere(n, s1, Inner(Work, 2), Inner(Work, 2), [L1, L2]);
    states := FinishAll(n, states, s2);
    states := ThirdBarrier(n, states, s2.(roots := s2.roots[1 := {}]));
    assert states[1] == second;
  }
}
