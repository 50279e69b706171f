/**
 Counted suspend and resume: lace_resume, lace_suspend and the parking of workers in
 lace_steal_loop (src/lace.c), for any number of workers and of external callers.

 A session is one call of lace_resume and, later, its matching lace_suspend; RUN is such
 a session, and so is the resume in lace_start. Loading lace_awaken_count and the
 compare-and-swap on the loaded value are one step, since the swap succeeds only if the
 value is still there. The barrier is used through what module Barrier proves of it: a
 worker leaves its k-th barrier only after every worker has entered its k-th.
 */
module SuspendResume {
  import opened Helpers
  import opened WorkerSets

  datatype SessionPc =
    | Outside | Resuming | Posting(k: nat)            // lace_resume
    | Active | Suspending                             // between the two, and in lace_suspend
    | Draining | AllUp | Raised | Clearing | Closing  // the section in which the count is -1
    | Over

  /** `Resting` is a worker that waits for the semaphore. */
  datatype WorkerPc = Resting | Woken | InBarrier | Counting | Looping | Dropping

  /** History: permits consumed and barriers entered so far. */
  datatype Worker = Worker(pc: WorkerPc, consumed: nat, bar: nat)

  /** History: rounds of resuming begun, workers woken in this round, workers counted in
      workers_running, sessions holding the workers awake, and the session that has set
      the count to -1. */
  datatype State = State(
    awaken: int, must: bool, permits: nat, running: int,
    workers: seq<Worker>, sessions: seq<SessionPc>,
    rounds: nat, woke: set<nat>, up: set<nat>, active: set<nat>, critical: Option<nat>)

  function Init(n: nat, m: nat): State {
    State(0, false, 0, 0, seq(n, _ => Worker(Resting, 0, 0)), seq(m, _ => Outside),
          0, Everyone(n), {}, {}, None)
  }

  datatype Action = Session(t: nat) | Work(i: nat)

  predicate Can(s: State, a: Action) {
    match a
    case Session(t) =>
      && t < |s.sessions|
      && (match s.sessions[t]
          case Resuming => s.awaken >= 0
          case Suspending => s.awaken > 0
          case Draining => s.running == |s.workers|
          case Raised => s.running == 0
          case Over => false
          case _ => true)
    case Work(i) =>
      && i < |s.workers|
      && (match s.workers[i].pc
          case Resting => s.permits > 0
          case InBarrier => forall j :: 0 <= j < |s.workers| ==> s.workers[i].bar <= s.workers[j].bar
          case _ => true)
  }

  function SessionStep(s: State, t: nat): State
    requires Can(s, Session(t))
  {
    match s.sessions[t]
    case Outside => s.(sessions := s.sessions[t := Resuming])
    case Resuming =>
      if s.awaken == 0
      then s.(awaken := -1, sessions := s.sessions[t := Posting(0)], critical := Some(t), rounds := s.rounds + 1, woke := {})
      else s.(awaken := s.awaken + 1, sessions := s.sessions[t := Active], active := s.active + {t})
    case Posting(k) =>
      if k < |s.workers| then s.(permits := s.permits + 1, sessions := s.sessions[t := Posting(k + 1)])
      else s.(awaken := 1, sessions := s.sessions[t := Active], critical := None, active := s.active + {t})
    case Active => s.(sessions := s.sessions[t := Suspending])
    case Suspending =>
      if s.awaken == 1
      then s.(awaken := -1, sessions := s.sessions[t := Draining], critical := Some(t), active := s.active - {t})
      else s.(awaken := s.awaken - 1, sessions := s.sessions[t := Over], active := s.active - {t})
    case Draining => s.(sessions := s.sessions[t := AllUp])
    case AllUp => s.(must := true, sessions := s.sessions[t := Raised])
    case Raised => s.(sessions := s.sessions[t := Clearing])
    case Clearing => s.(must := false, sessions := s.sessions[t := Closing])
    case Closing => s.(awaken := 0, sessions := s.sessions[t := Over], critical := None)
  }

  function WorkerStep(s: State, i: nat): State
    requires Can(s, Work(i))
  {
    var w := s.workers[i];
    match w.pc
    case Resting =>
      s.(permits := s.permits - 1, woke := s.woke + {i},
         workers := s.workers[i := w.(pc := if w.consumed == 0 then Counting else Woken, consumed := w.consumed + 1)])
    case Woken => s.(workers := s.workers[i := w.(pc := InBarrier, bar := w.bar + 1)])
    case InBarrier => s.(workers := s.workers[i := w.(pc := Counting)])
    case Counting => s.(running := s.running + 1, up := s.up + {i}, workers := s.workers[i := w.(pc := Looping)])
    case Looping => if s.must then s.(workers := s.workers[i := w.(pc := Dropping)]) else s
    case Dropping => s.(running := s.running - 1, up := s.up - {i}, workers := s.workers[i := w.(pc := Resting)])
  }

  function Do(s: State, a: Action): State
    requires Can(s, a)
  {
    match a
    case Session(t) => SessionStep(s, t)
    case Work(i) => WorkerStep(s, i)
  }

  // ---------------------------------------------------------------- invariant

  predicate Holding(pc: SessionPc) {
    pc == Active || pc == Suspending
  }

  predicate Critical(pc: SessionPc) {
    pc.Posting? || pc == Draining || pc == AllUp || pc == Raised || pc == Clearing || pc == Closing
  }

  /** The program point of the session in the -1 section, if there is one. */
  function Section(s: State): SessionPc {
    if s.critical.Some? && s.critical.value < |s.sessions| then s.sessions[s.critical.value] else Outside
  }

  /** All workers have been told to stop, and none has been told to start again. */
  predicate Quiet(s: State) {
    var c := Section(s);
    c == Raised || c == Clearing || c == Closing || (s.critical == None && s.awaken == 0)
  }

  ghost predicate SessionOk(s: State, t: nat)
    requires t < |s.sessions|
  {
    && (t in s.active <==> Holding(s.sessions[t]))
    && (s.critical == Some(t) <==> Critical(s.sessions[t]))
    && (s.sessions[t].Posting? ==> s.sessions[t].k <= |s.workers|)
  }

  ghost predicate WorkerOk(s: State, i: nat)
    requires i < |s.workers|
  {
    var w := s.workers[i];
    && (i in s.woke <==> w.consumed == s.rounds)
    && (i !in s.woke ==> w.consumed + 1 == s.rounds)
    && (i in s.up <==> w.pc == Looping || w.pc == Dropping)
    && (w.pc == Dropping ==> Section(s) == Raised)
    && (Quiet(s) ==> i in s.woke && (w.pc == Resting || w.pc == Looping || w.pc == Dropping))
    && (!Quiet(s) ==> (w.pc == Resting <==> i !in s.woke))
    && w.bar == (if w.consumed == 0 then 0 else w.consumed - 1) - (if w.pc == Woken then 1 else 0)
    && (w.pc == Woken || w.pc == InBarrier ==> w.consumed > 1)
    && (w.consumed > 1 && (w.pc == Counting || w.pc == Looping || w.pc == Dropping) ==> s.woke == Everyone(|s.workers|))
  }

  ghost predicate Inv(s: State) {
    var n := |s.workers|;
    && (forall t :: 0 <= t < |s.sessions| ==> SessionOk(s, t))
    && (forall i :: 0 <= i < n ==> WorkerOk(s, i))
    && (s.critical.Some? ==> s.awaken == -1 && s.active == {} && s.critical.value < |s.sessions|)
    && (s.critical == None ==> s.awaken == |s.active|)
    && (forall t :: t in s.active ==> t < |s.sessions|)
    && s.running == |s.up| && s.up <= Everyone(n) && s.woke <= Everyone(n)
    && (Section(s) == AllUp ==> s.up == Everyone(n))
    && (s.must <==> Section(s) == Raised || Section(s) == Clearing)
    && (Section(s) == Clearing || Section(s) == Closing || (s.critical == None && s.awaken == 0) ==> s.up == {})
    && s.permits + |s.woke| == (if Section(s).Posting? then Section(s).k else n)
  }

  lemma InitInv(n: nat, m: nat)
    ensures Inv(Init(n, m))
  {
    assert Quiet(Init(n, m));
  }

  lemma WorkerInv(s: State, i: nat)
    requires Inv(s) && Can(s, Work(i)) && s.workers[i].pc != Resting && s.workers[i].pc != InBarrier
    ensures Inv(WorkerStep(s, i))
  {
    var s' := WorkerStep(s, i);
    assert WorkerOk(s, i);
    assert Section(s') == Section(s) && Quiet(s') == Quiet(s);
    forall j | 0 <= j < |s'.workers| ensures WorkerOk(s', j) {
      assert WorkerOk(s, j);
    }
    forall t | 0 <= t < |s'.sessions| ensures SessionOk(s', t) {
      assert SessionOk(s, t);
    }
  }

  /** A permit is there only while workers are being woken, and one is left for each
      worker that has not been woken yet. */
  lemma WakeInv(s: State, i: nat)
    requires Inv(s) && Can(s, Work(i)) && s.workers[i].pc == Resting
    ensures Inv(WorkerStep(s, i))
  {
    var s' := WorkerStep(s, i);
    assert WorkerOk(s, i);
    QuietWoke(s);
    assert Section(s') == Section(s) && Quiet(s') == Quiet(s);
    forall j | 0 <= j < |s'.workers| ensures WorkerOk(s', j) {
      assert WorkerOk(s, j);
      assert i in Everyone(|s.workers|);
    }
    forall t | 0 <= t < |s'.sessions| ensures SessionOk(s', t) {
      assert SessionOk(s, t);
    }
  }

  lemma QuietWoke(s: State)
    requires Inv(s)
    ensures Quiet(s) ==> s.woke == Everyone(|s.workers|) && s.permits == 0
  {
    if Quiet(s) {
      forall i | 0 <= i < |s.workers| ensures i in s.woke {
        assert WorkerOk(s, i);
      }
    }
  }

  /** A worker leaves the barrier when every worker has consumed its permit. */
  lemma BarrierInv(s: State, i: nat)
    requires Inv(s) && Can(s, Work(i)) && s.workers[i].pc == InBarrier
    ensures Inv(WorkerStep(s, i))
  {
    var s' := WorkerStep(s, i);
    assert WorkerOk(s, i);
    forall j | 0 <= j < |s.workers| ensures j in s.woke {
      assert WorkerOk(s, j);
      assert s.workers[i].bar <= s.workers[j].bar;
    }
    assert s.woke == Everyone(|s.workers|);
    assert Section(s') == Section(s) && Quiet(s') == Quiet(s);
    forall j | 0 <= j < |s'.workers| ensures WorkerOk(s', j) {
      assert WorkerOk(s, j);
    }
    forall t | 0 <= t < |s'.sessions| ensures SessionOk(s', t) {
      assert SessionOk(s, t);
    }
  }

  lemma SessionFrame(s: State, s': State, t: nat)
    requires t < |s.sessions| == |s'.sessions|
    requires s'.sessions == s.sessions[t := s'.sessions[t]]
    requires forall u :: 0 <= u < |s.sessions| ==> SessionOk(s, u)
    requires s'.workers == s.workers && SessionOk(s', t)
    requires forall u :: u != t ==> (u in s'.active <==> u in s.active)
    requires s'.critical == s.critical || (s.critical == None && s'.critical == Some(t)) || (s.critical == Some(t) && s'.critical == None)
    ensures forall u :: 0 <= u < |s'.sessions| ==> SessionOk(s', u)
  {
    forall u | 0 <= u < |s'.sessions| ensures SessionOk(s', u) {
      assert SessionOk(s, u);
    }
  }

  lemma ResumingInv(s: State, t: nat)
    requires Inv(s) && Can(s, Session(t)) && (s.sessions[t] == Outside || s.sessions[t] == Resuming)
    ensures Inv(SessionStep(s, t))
  {
    var s' := SessionStep(s, t);
    assert SessionOk(s, t);
    QuietWoke(s);
    SessionFrame(s, s', t);
    assert s.critical.Some? && s.critical.value != t ==> Section(s') == Section(s);
    forall i | 0 <= i < |s'.workers| ensures WorkerOk(s', i) {
      assert WorkerOk(s, i);
    }
  }

  lemma PostingInv(s: State, t: nat)
    requires Inv(s) && Can(s, Session(t)) && s.sessions[t].Posting?
    ensures Inv(SessionStep(s, t))
  {
    var s' := SessionStep(s, t);
    assert SessionOk(s, t);
    SessionFrame(s, s', t);
    forall i | 0 <= i < |s'.workers| ensures WorkerOk(s', i) {
      assert WorkerOk(s, i);
    }
  }

  lemma SuspendInv(s: State, t: nat)
    requires Inv(s) && Can(s, Session(t)) && Holding(s.sessions[t])
    ensures Inv(SessionStep(s, t))
  {
    var s' := SessionStep(s, t);
    assert SessionOk(s, t);
    if s.sessions[t] == Suspending {
      OnlyHolder(s, t);
    }
    SessionFrame(s, s', t);
    assert Section(s') == Section(s) || Section(s') == Draining;
    assert !Quiet(s) && !Quiet(s');
    forall i | 0 <= i < |s'.workers| ensures WorkerOk(s', i) {
      assert WorkerOk(s, i);
    }
  }

  lemma OnlyHolder(s: State, t: nat)
    requires Inv(s) && t in s.active
    ensures s.critical == None && s.awaken >= 1
    ensures s.awaken == 1 ==> s.active == {t}
  {
    SubsetSize({t}, s.active);
  }

  /** The workers are told to stop only when all of them run: once all do, none stops until
      then. */
  lemma DrainInv(s: State, t: nat)
    requires Inv(s) && Can(s, Session(t)) && (s.sessions[t] == Draining || s.sessions[t] == AllUp)
    ensures Inv(SessionStep(s, t))
  {
    var s' := SessionStep(s, t);
    assert SessionOk(s, t);
    SubsetSize(s.up, Everyone(|s.workers|));
    SessionFrame(s, s', t);
    forall i | 0 <= i < |s'.workers| ensures WorkerOk(s', i) {
      assert WorkerOk(s, i);
      assert i in Everyone(|s.workers|);
    }
  }

  lemma CloseInv(s: State, t: nat)
    requires Inv(s) && Can(s, Session(t))
    requires s.sessions[t] == Raised || s.sessions[t] == Clearing || s.sessions[t] == Closing
    ensures Inv(SessionStep(s, t))
  {
    var s' := SessionStep(s, t);
    assert SessionOk(s, t);
    SessionFrame(s, s', t);
    assert Quiet(s) && Quiet(s');
    forall i | 0 <= i < |s'.workers| ensures WorkerOk(s', i) {
      assert WorkerOk(s, i);
    }
  }

  lemma StepInv(s: State, a: Action)
    requires Inv(s) && Can(s, a)
    ensures Inv(Do(s, a))
  {
    match a
    case Work(i) =>
      if s.workers[i].pc == Resting {
        WakeInv(s, i);
      } else if s.workers[i].pc == InBarrier {
        BarrierInv(s, i);
      } else {
        WorkerInv(s, i);
      }
    case Session(t) =>
      if Holding(s.sessions[t]) {
        SuspendInv(s, t);
      } else if s.sessions[t] == Draining || s.sessions[t] == AllUp {
        DrainInv(s, t);
      } else if Critical(s.sessions[t]) && !s.sessions[t].Posting? {
        CloseInv(s, t);
      } else if s.sessions[t].Posting? {
        PostingInv(s, t);
      } else {
        ResumingInv(s, t);
      }
  }

  // ----------------------------------------------------------------- theorems

  ghost predicate Next(s: State, s': State) {
    exists a :: Can(s, a) && s' == Do(s, a)
  }

  lemma NextInv(s: State, s': State)
    requires Inv(s) && Next(s, s')
    ensures Inv(s') && |s'.workers| == |s.workers| && |s'.sessions| == |s.sessions|
  {
    var a :| Can(s, a) && s' == Do(s, a);
    StepInv(s, a);
    StepSize(s, a);
  }

  lemma StepSize(s: State, a: Action)
    requires Can(s, a)
    ensures |Do(s, a).workers| == |s.workers| && |Do(s, a).sessions| == |s.sessions|
  {
  }

  ghost predicate Run(n: nat, m: nat, run: seq<State>) {
    && run != [] && run[0] == Init(n, m)
    && forall k :: 0 <= k < |run| - 1 ==> Next(run[k], run[k + 1])
  }

  lemma {:induction false} RunInv(n: nat, m: nat, run: seq<State>, k: nat)
    requires Run(n, m, run) && k < |run|
    ensures Inv(run[k]) && |run[k].workers| == n && |run[k].sessions| == m
  {
    if k == 0 {
      InitInv(n, m);
    } else {
      RunInv(n, m, run, k - 1);
      assert Next(run[k - 1], run[k - 1 + 1]);
      NextInv(run[k - 1], run[k]);
    }
  }

  /** At most one session is in the section in which the count is -1, the count never
      goes below that, and the number of running workers stays within bounds. */
  lemma OneInSection(n: nat, m: nat, run: seq<State>, k: nat, t: nat, u: nat)
    requires Run(n, m, run) && k < |run| && t < m && u < m
    ensures |run[k].sessions| == m
    ensures Critical(run[k].sessions[t]) && Critical(run[k].sessions[u]) ==> t == u
    ensures Critical(run[k].sessions[t]) ==> run[k].awaken == -1 && !Holding(run[k].sessions[u])
    ensures run[k].awaken >= -1 && 0 <= run[k].running <= n
  {
    RunInv(n, m, run, k);
    var s := run[k];
    assert SessionOk(s, t) && SessionOk(s, u);
    SubsetSize(s.up, Everyone(n));
  }

  /** Each worker consumes exactly one permit per round of resuming: one less than the
      rounds begun if it is still to be woken, and all of them when the count is 0. No
      worker goes back to stealing in a later round before every worker is awake. */
  lemma OnePermitPerRound(n: nat, m: nat, run: seq<State>, k: nat, i: nat, j: nat)
    requires Run(n, m, run) && k < |run| && i < n && j < n
    ensures |run[k].workers| == n
    ensures var s := run[k];
            && s.workers[i].consumed <= s.rounds <= s.workers[i].consumed + 1
            && (s.awaken == 0 ==> s.workers[i].consumed == s.rounds)
            && (s.workers[i].pc == Looping && s.rounds > 1 && s.workers[i].consumed == s.rounds ==>
                  s.workers[j].consumed == s.rounds)
  {
    RunInv(n, m, run, k);
    var s := run[k];
    assert WorkerOk(s, i) && WorkerOk(s, j);
    assert j in Everyone(n);
    QuietWoke(s);
  }

  /** When the count is 0, every worker rests, no permit is left and nobody must stop. */
  lemma ZeroMeansAsleep(n: nat, m: nat, run: seq<State>, k: nat, i: nat)
    requires Run(n, m, run) && k < |run| && i < n
    ensures |run[k].workers| == n
    ensures run[k].awaken == 0 ==>
              && run[k].workers[i].pc == Resting && run[k].running == 0
              && run[k].permits == 0 && !run[k].must
  {
    RunInv(n, m, run, k);
    assert WorkerOk(run[k], i);
    QuietWoke(run[k]);
  }

  /** Workers are never told to stop while a session, such as an external RUN, is between
      its resume and its suspend. */
  lemma NeverStoppedDuringRun(n: nat, m: nat, run: seq<State>, k: nat, t: nat)
    requires Run(n, m, run) && k < |run| && t < m
    ensures |run[k].sessions| == m
    ensures run[k].must ==> !Holding(run[k].sessions[t])
  {
    RunInv(n, m, run, k);
    assert SessionOk(run[k], t);
  }

  /** A worker that is not up yet while all are being woken: somebody can go on. */
  lemma WakingGoesOn(s: State, i: nat) returns (j: nat)
    requires Inv(s) && !Quiet(s) && !Section(s).Posting? && i < |s.workers| && i !in s.up
    ensures Can(s, Work(j)) && WorkerStep(s, j) != s
  {
    assert WorkerOk(s, i);
    j := i;
    if s.workers[i].pc == InBarrier && !Can(s, Work(i)) {
      j :| 0 <= j < |s.workers| && s.workers[j].bar < s.workers[i].bar;
      assert WorkerOk(s, j);
    }
    if j !in s.woke {
      assert s.woke < Everyone(|s.workers|);
      SubsetSize(s.woke, Everyone(|s.workers|));
    }
    assert WorkerStep(s, j).workers[j] != s.workers[j];
  }

  /** While the workers are told to stop, one that is still up stops. */
  lemma StoppingGoesOn(s: State) returns (j: nat)
    requires Inv(s) && Section(s) == Raised && s.running != 0
    ensures Can(s, Work(j)) && WorkerStep(s, j) != s
  {
    assert s.up != {};
    j :| j in s.up;
    assert WorkerOk(s, j);
    assert WorkerStep(s, j).workers[j] != s.workers[j];
  }

  /** Nobody waits for ever: a session that is not over can go on, or it waits for a session in
      the section or for a worker that can go on. */
  lemma NeverStuck(n: nat, m: nat, run: seq<State>, k: nat, t: nat) returns (a: Action)
    requires Run(n, m, run) && k < |run| && t < m && t < |run[k].sessions| && run[k].sessions[t] != Over
    ensures Can(run[k], a) && Do(run[k], a) != run[k]
  {
    RunInv(n, m, run, k);
    var s := run[k];
    assert SessionOk(s, t);
    if s.sessions[t] == Resuming && s.awaken < 0 {
      a := SectionGoesOn(s);
    } else if Critical(s.sessions[t]) {
      a := SectionGoesOn(s);
    } else {
      if s.sessions[t] == Suspending {
        OnlyHolder(s, t);
      }
      a := Session(t);
      assert SessionStep(s, t).sessions[t] != s.sessions[t];
    }
  }

  lemma SectionGoesOn(s: State) returns (a: Action)
    requires Inv(s) && s.critical.Some?
    ensures Can(s, a) && Do(s, a) != s
  {
    var c := s.critical.value;
    assert SessionOk(s, c);
    if s.sessions[c] == Draining && s.running != |s.workers| {
      SubsetSize(s.up, Everyone(|s.workers|));
      var i := Missing(s.up, |s.workers|);
      var j := WakingGoesOn(s, i);
      a := Work(j);
    } else if s.sessions[c] == Raised && s.running != 0 {
      var j := StoppingGoesOn(s);
      a := Work(j);
    } else {
      a := Session(c);
      assert SessionStep(s, c).sessions[c] != s.sessions[c];
    }
  }
}
