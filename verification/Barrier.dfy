/**
 The reusable sense-reversing barrier lace_barrier (src/lace.c), for any number of
 workers and any number of rounds, one atomic action at a time.
 */
module Barrier {
  import opened WorkerSets

  /** Where a worker is in lace_barrier; `wait` is the value it read on entry. */
  datatype Pc =
    | Outside
    | Arriving(wait: int)
    | Clearing(wait: int)
    | Refilling(wait: int)
    | Flipping(wait: int)
    | Spinning(wait: int)
    | Leaving

  /** History: `left[i]` rounds completed by worker i, `flips` of the wait flag, the
      workers counted in the current round, and those released but not yet gone. */
  datatype State = State(
    count: int, leaving: int, wait: int, pcs: seq<Pc>,
    left: seq<nat>, flips: nat, counted: set<nat>, released: set<nat>)

  function Init(n: nat): State {
    State(0, 0, 0, seq(n, _ => Outside), seq(n, _ => 0), 0, {}, {})
  }

  /** The next atomic action of worker i. */
  function Step(s: State, i: nat): State
    requires i < |s.pcs| == |s.left|
  {
    match s.pcs[i]
    case Outside => s.(pcs := s.pcs[i := Arriving(s.wait)])
    case Arriving(v) =>
      s.(count := s.count + 1, counted := s.counted + {i},
         pcs := s.pcs[i := if s.count + 1 == |s.pcs| then Clearing(v) else Spinning(v)])
    case Clearing(v) => s.(count := 0, pcs := s.pcs[i := Refilling(v)])
    case Refilling(v) => s.(leaving := |s.pcs|, pcs := s.pcs[i := Flipping(v)])
    case Flipping(v) =>
      s.(wait := 1 - v, pcs := s.pcs[i := Leaving],
         flips := s.flips + 1, released := s.counted, counted := {})
    case Spinning(v) => if s.wait == v then s else s.(pcs := s.pcs[i := Leaving])
    case Leaving =>
      s.(leaving := s.leaving - 1, pcs := s.pcs[i := Outside],
         left := s.left[i := s.left[i] + 1], released := s.released - {i})
  }

  /** Rounds worker i has entered: it is counted from its fetch-and-add on. */
  function Entered(s: State, i: nat): nat
    requires i < |s.pcs| == |s.left|
  {
    s.left[i] + if s.pcs[i].Outside? || s.pcs[i].Arriving? then 0 else 1
  }

  predicate Finishing(pc: Pc) {
    pc.Clearing? || pc.Refilling? || pc.Flipping?
  }

  // ---------------------------------------------------------------- invariant

  ghost predicate WorkerOk(s: State, i: nat)
    requires i < |s.pcs| == |s.left|
  {
    var now := s.flips % 2;
    match s.pcs[i]
    case Outside => s.left[i] == s.flips && i !in s.counted && i !in s.released
    case Arriving(v) => s.left[i] == s.flips && v == now && i !in s.counted && i !in s.released
    case Spinning(v) =>
      || (s.left[i] == s.flips && v == now && i in s.counted && i !in s.released)
      || (s.left[i] + 1 == s.flips && v == 1 - now && i !in s.counted && i in s.released)
    case Leaving => s.left[i] + 1 == s.flips && i !in s.counted && i in s.released
    case _ =>
      && s.left[i] == s.flips && s.pcs[i].wait == now && i in s.counted && i !in s.released
      && s.counted == Everyone(|s.pcs|)
      && s.count == (if s.pcs[i].Clearing? then |s.pcs| else 0)
      && s.leaving == (if s.pcs[i].Flipping? then |s.pcs| else 0)
  }

  ghost predicate Inv(s: State) {
    && |s.pcs| == |s.left|
    && s.wait == s.flips % 2
    && s.counted <= Everyone(|s.pcs|) && s.released <= Everyone(|s.pcs|)
    && (forall i :: 0 <= i < |s.pcs| ==> WorkerOk(s, i))
    && (forall i, j :: 0 <= i < |s.pcs| && 0 <= j < |s.pcs| && Finishing(s.pcs[i]) && Finishing(s.pcs[j]) ==> i == j)
    && ((forall i :: 0 <= i < |s.pcs| ==> !Finishing(s.pcs[i])) ==>
          s.count == |s.counted| && s.leaving == |s.released| && (|s.pcs| > 0 ==> |s.counted| < |s.pcs|))
  }

  lemma InitInv(n: nat)
    ensures Inv(Init(n))
  {
  }

  lemma NotReleased(s: State)
    requires Inv(s) && s.counted == Everyone(|s.pcs|)
    ensures s.released == {}
  {
    forall k: nat ensures k !in s.released {
      if k < |s.pcs| {
        assert k in Everyone(|s.pcs|);
        assert WorkerOk(s, k);
      }
    }
  }

  /** While a worker closes the round, all the others wait for its flip. */
  lemma OthersSpin(s: State, i: nat, j: nat)
    requires Inv(s) && i < |s.pcs| && j < |s.pcs| && i != j && Finishing(s.pcs[i])
    ensures s.pcs[j].Spinning? && s.left[j] == s.flips && s.pcs[j].wait == s.flips % 2
    ensures s.released == {}
  {
    assert WorkerOk(s, i) && WorkerOk(s, j);
    assert j in Everyone(|s.pcs|);
    NotReleased(s);
  }

  lemma StepInv(s: State, i: nat)
    requires Inv(s) && i < |s.pcs|
    ensures Inv(Step(s, i)) && |Step(s, i).pcs| == |s.pcs|
  {
    SubsetSize(s.counted, Everyone(|s.pcs|));
    assert WorkerOk(s, i);
    match s.pcs[i]
    case Outside => ReadInv(s, i);
    case Arriving(_) => ArriveInv(s, i);
    case Spinning(_) => SpinInv(s, i);
    case Leaving => LeaveInv(s, i);
    case _ => FinishInv(s, i);
  }

  lemma ReadInv(s: State, i: nat)
    requires Inv(s) && i < |s.pcs| && s.pcs[i].Outside?
    ensures Inv(Step(s, i))
  {
    var s' := Step(s, i);
    assert WorkerOk(s, i);
    forall j | 0 <= j < |s.pcs| ensures WorkerOk(s', j) {
      assert WorkerOk(s, j);
    }
    NobodyFinishes(s, i);
  }

  lemma SpinInv(s: State, i: nat)
    requires Inv(s) && i < |s.pcs| && s.pcs[i].Spinning?
    ensures Inv(Step(s, i))
  {
    var s' := Step(s, i);
    assert WorkerOk(s, i);
    forall j | 0 <= j < |s.pcs| ensures WorkerOk(s', j) && Finishing(s'.pcs[j]) == Finishing(s.pcs[j]) {
      assert WorkerOk(s, j);
    }
  }

  /** A worker that is not counted rules out that the round is being closed. */
  lemma NobodyFinishes(s: State, i: nat)
    requires Inv(s) && i < |s.pcs| && i !in s.counted
    ensures forall j :: 0 <= j < |s.pcs| ==> !Finishing(s.pcs[j])
  {
    forall j | 0 <= j < |s.pcs| ensures !Finishing(s.pcs[j]) {
      assert WorkerOk(s, j);
      assert i in Everyone(|s.pcs|);
    }
  }

  lemma ArriveLastInv(s: State, i: nat)
    requires Inv(s) && i < |s.pcs| && s.pcs[i].Arriving? && s.count + 1 == |s.pcs|
    ensures Inv(Step(s, i))
  {
    var s' := Step(s, i);
    var n := |s.pcs|;
    assert WorkerOk(s, i);
    NobodyFinishes(s, i);
    assert i in Everyone(n) && |s'.counted| == n;
    SubsetSize(s'.counted, Everyone(n));
    NoneReleased(s, i);
    assert Finishing(s'.pcs[i]);
    forall j | 0 <= j < n ensures WorkerOk(s', j) {
      assert WorkerOk(s, j);
    }
  }

  lemma ArriveInv(s: State, i: nat)
    requires Inv(s) && i < |s.pcs| && s.pcs[i].Arriving?
    ensures Inv(Step(s, i))
  {
    if s.count + 1 == |s.pcs| {
      ArriveLastInv(s, i);
    } else {
      var s' := Step(s, i);
      var n := |s.pcs|;
      assert WorkerOk(s, i);
      NobodyFinishes(s, i);
      assert i in Everyone(n);
      forall j | 0 <= j < n ensures WorkerOk(s', j) && !Finishing(s'.pcs[j]) {
        assert WorkerOk(s, j);
      }
    }
  }

  lemma NoneReleased(s: State, i: nat)
    requires Inv(s) && i < |s.pcs| && s.pcs[i].Arriving?
    requires s.counted + {i} == Everyone(|s.pcs|)
    ensures s.released == {} && s.leaving == 0
  {
    assert WorkerOk(s, i);
    forall k: nat ensures k !in s.released {
      if k < |s.pcs| {
        assert k in Everyone(|s.pcs|);
        assert WorkerOk(s, k);
      }
    }
    NobodyFinishes(s, i);
  }

  lemma FinishInv(s: State, i: nat)
    requires Inv(s) && i < |s.pcs| && Finishing(s.pcs[i])
    ensures Inv(Step(s, i))
  {
    var s' := Step(s, i);
    assert WorkerOk(s, i);
    forall j | 0 <= j < |s.pcs| ensures WorkerOk(s', j) && (j != i ==> s'.pcs[j].Spinning?) {
      assert WorkerOk(s, j);
      if j != i {
        OthersSpin(s, i, j);
      }
    }
    NotReleased(s);
    assert s'.pcs[i].Leaving? ==> forall j :: 0 <= j < |s.pcs| ==> !Finishing(s'.pcs[j]);
    assert !s'.pcs[i].Leaving? ==> Finishing(s'.pcs[i]);
  }

  lemma LeaveInv(s: State, i: nat)
    requires Inv(s) && i < |s.pcs| && s.pcs[i].Leaving?
    ensures Inv(Step(s, i))
  {
    var s' := Step(s, i);
    assert WorkerOk(s, i);
    NobodyFinishes(s, i);
    forall j | 0 <= j < |s.pcs| ensures WorkerOk(s', j) && !Finishing(s'.pcs[j]) {
      assert WorkerOk(s, j);
    }
  }

  // ----------------------------------------------------------------- theorems

  ghost predicate Run(n: nat, run: seq<State>) {
    && run != [] && run[0] == Init(n)
    && forall k :: 0 <= k < |run| - 1 ==>
         exists i: nat :: i < |run[k].pcs| == |run[k].left| && run[k + 1] == Step(run[k], i)
  }

  lemma {:induction false} RunInv(n: nat, run: seq<State>, k: nat)
    requires Run(n, run) && k < |run|
    ensures Inv(run[k]) && |run[k].pcs| == n
  {
    if k == 0 {
      InitInv(n);
    } else {
      RunInv(n, run, k - 1);
      var s := run[k - 1];
      assert run[k - 1 + 1] == run[k];
      var i: nat :| i < |s.pcs| && run[k] == Step(s, i);
      StepInv(s, i);
    }
  }

  /** No worker leaves a round before all workers have entered it. */
  lemma NobodyLeavesEarly(n: nat, run: seq<State>, k: nat, i: nat, j: nat)
    requires Run(n, run) && k < |run| && i < n && j < n
    ensures |run[k].pcs| == |run[k].left| == n
    ensures run[k].left[i] <= Entered(run[k], j)
    ensures run[k].left[i] <= run[k].left[j] + 1
    ensures run[k].pcs[i].Leaving? ==> run[k].left[i] + 1 <= Entered(run[k], j)
  {
    RunInv(n, run, k);
    assert WorkerOk(run[k], i) && WorkerOk(run[k], j);
  }

  /** `leaving` is 0 when it is refilled, and when it is 0 no worker is still on its way
      out of a finished round: every worker has completed every finished round. */
  lemma LeavingIsZero(n: nat, run: seq<State>, k: nat, i: nat)
    requires Run(n, run) && k < |run| && i < n
    ensures |run[k].pcs| == |run[k].left| == n
    ensures run[k].pcs[i].Refilling? ==> run[k].leaving == 0
    ensures run[k].leaving == 0 ==> run[k].left[i] == run[k].flips && !run[k].pcs[i].Leaving?
    ensures 0 <= run[k].leaving <= n && 0 <= run[k].count <= n
  {
    RunInv(n, run, k);
    var s := run[k];
    assert WorkerOk(s, i);
    SubsetSize(s.counted, Everyone(n));
    SubsetSize(s.released, Everyone(n));
    if f :| 0 <= f < n && Finishing(s.pcs[f]) {
      assert WorkerOk(s, f);
      if f != i {
        OthersSpin(s, f, i);
      }
    } else {
      assert s.leaving == |s.released|;
    }
  }

  /** A worker that spins waits for one that has not been counted in its round yet or that is
      closing the round, and that one can go on. */
  lemma WaitsForSomebody(n: nat, run: seq<State>, k: nat, i: nat) returns (j: nat)
    requires Run(n, run) && k < |run| && i < n
    requires i < |run[k].pcs| == |run[k].left| && run[k].pcs[i].Spinning? && Step(run[k], i) == run[k]
    ensures j < n && j < |run[k].pcs| && Step(run[k], j) != run[k]
    ensures j !in run[k].counted || Finishing(run[k].pcs[j])
  {
    RunInv(n, run, k);
    var s := run[k];
    if f: nat :| f < n && Finishing(s.pcs[f]) {
      j := f;
    } else {
      j := Missing(s.counted, n);
    }
    GoesOn(s, j);
  }

  lemma GoesOn(s: State, j: nat)
    requires Inv(s) && j < |s.pcs| && (j !in s.counted || Finishing(s.pcs[j]))
    ensures Step(s, j) != s
  {
    assert WorkerOk(s, j);
    assert Step(s, j).pcs[j] != s.pcs[j];
  }
}
