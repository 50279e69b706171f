/**
 Runs of a worker through task frames (src/lace.c): a frame is entered, its root task works
 and may itself enter frames, to any depth, and every frame is left again, with any number of
 thieves racing against every single store.
 */
module NestedFrames {
  import opened Helpers
  import opened SplitDeque
  import opened Frames

  /** The innermost frame moves, or it enters another frame, or that one is over. */
  datatype NestAct = Move(a: FrameAct) | Call | Return

  function Start(e: Deque, h: nat): FrameState {
    FrameState(e, Enter(h), e, e, e)
  }

  /** `fs` are the frames the worker is in, the innermost last. Only the innermost has the deque
      of now; the others have the deque with which the next one was entered. */
  predicate NestCan(fs: seq<FrameState>, a: NestAct)
    requires fs != []
  {
    match a
    case Move(m) => FrameCan(Last(fs), m)
    case Call => Last(fs).f.InFrame? && Last(fs).f.pc.Idle?
    case Return => |fs| > 1 && Last(fs).f.Left?
  }

  function NestDo(fs: seq<FrameState>, a: NestAct): (fs': seq<FrameState>)
    requires fs != [] && NestCan(fs, a)
    ensures fs' != []
  {
    match a
    case Move(m) => Front(fs) + [FrameDo(Last(fs), m)]
    case Call => fs + [Start(Last(fs).q, Last(fs).f.pc.h)]
    case Return => fs[..|fs| - 2] + [fs[|fs| - 2].(q := Last(fs).q)]
  }

  ghost predicate NestNext(fs: seq<FrameState>, fs': seq<FrameState>) {
    fs != [] && exists a :: NestCan(fs, a) && fs' == NestDo(fs, a)
  }

  /** A run that starts when a frame is entered at head h with deque e. */
  ghost predicate FrameRun(e: Deque, h: nat, run: seq<seq<FrameState>>) {
    && run != [] && run[0] == [Start(e, h)] && (forall k :: 0 <= k < |run| ==> run[k] != [])
    && forall k :: 0 <= k < |run| - 1 ==> NestNext(run[k], run[k + 1])
  }

  /** The deque at entry is one that the frame will restore. */
  predicate Intact(st: FrameState) {
    !st.entry.allstolen || st.f.h <= st.entry.split
  }

  /** Every inner frame that was over before state k was entered with such a deque. */
  ghost predicate Careful(run: seq<seq<FrameState>>, k: nat)
    requires k < |run| && forall j :: 0 <= j < |run| ==> run[j] != []
  {
    forall j :: 0 <= j < k && |run[j + 1]| < |run[j]| ==> Intact(Last(run[j]))
  }

  // ---------------------------------------------------------------- the invariant

  /** The head below which a frame finds the tasks of the frame around it. */
  function Base(fs: seq<FrameState>, b: nat, i: nat): nat
    requires i < |fs|
  {
    if i == 0 then b else fs[i - 1].f.h
  }

  ghost predicate LevelOk(fs: seq<FrameState>, b: nat, i: nat)
    requires i < |fs|
  {
    && FrameInv(fs[i], Base(fs, b, i))
    && (i < |fs| - 1 ==>
          && fs[i].f.InFrame? && fs[i].f.pc == Idle(fs[i + 1].f.h) && fs[i + 1].entry == fs[i].q
          && SameClaims(fs[i].q, Last(fs).q, fs[i].f.h) && SameTasks(fs[i].q, Last(fs).q, fs[i].f.h))
  }

  ghost predicate NestInv(fs: seq<FrameState>, b: nat) {
    fs != [] && forall i :: 0 <= i < |fs| ==> LevelOk(fs, b, i)
  }

  lemma BaseBelow(st: FrameState, b: nat)
    requires FrameInv(st, b)
    ensures b <= st.f.h <= |st.q.slots|
  {
  }

  /** Inner frames start at higher heads. */
  lemma {:induction false} Rising(fs: seq<FrameState>, b: nat, i: nat, j: nat)
    requires NestInv(fs, b) && i < j < |fs|
    ensures fs[i].f.h <= Base(fs, b, j)
  {
    hide FrameInv;
    if i < j - 1 {
      Rising(fs, b, i, j - 1);
      assert LevelOk(fs, b, j - 1);
      BaseBelow(fs[j - 1], Base(fs, b, j - 1));
    }
  }

  // ---------------------------------------------------------------- every step keeps it

  /** Where a thief can steal while a frame above base b is entered, used or left. */
  lemma WinAbove(st: FrameState, b: nat, r: ThiefAct)
    requires FrameInv(st, b) && FrameCan(st, Rob(r)) && r.Win?
    ensures !Sealed(st.f) && b <= st.q.tail < FrameHead(st.f) && (st.f.InFrame? ==> st.f.h <= st.q.tail)
  {
    hide DequeInv, OldShape;
    var q, e, h := st.q, st.entry, st.f.h;
    BaseBelow(st, b);
    if st.f.InFrame? {
      StealableSlot(q, st.f.pc, h);
    } else if st.f.Left? {
      StealableSlot(q.(psplit := e.psplit), Idle(h), b);
    } else if !Sealed(st.f) {
      StealableSlot(Resumed(q, Saved(q.tail, e.split, e.allstolen), e), Idle(h), b);
    }
  }

  lemma RobBelow(st: FrameState, b: nat, r: ThiefAct)
    requires FrameInv(st, b) && FrameCan(st, Rob(r))
    ensures SameClaims(st.q, FrameDo(st, Rob(r)).q, b) && SameTasks(st.q, FrameDo(st, Rob(r)).q, b)
  {
    hide FrameInv;
    BaseBelow(st, b);
    if r.Win? {
      WinAbove(st, b, r);
    }
  }

  /** The worker writes no slot below the head at which it entered the frame. */
  lemma OwnerBelow(st: FrameState, b: nat, a: FrameAct)
    requires FrameInv(st, b) && FrameCan(st, a) && !a.Rob?
    ensures st.f.h <= |st.q.slots| == |FrameDo(st, a).q.slots|
    ensures forall s :: 0 <= s < st.f.h ==> FrameDo(st, a).q.slots[s] == st.q.slots[s]
  {
    BaseBelow(st, b);
    if a.Own? {
      assert DequeInv(st.q, st.f.pc, st.f.h);
      hide *;
      OwnerFrame(st.q, st.f.pc, st.f.h, a.a);
    } else {
      assert FrameGo(st).q.slots == st.q.slots;
    }
  }

  lemma MoveBelow(st: FrameState, b: nat, a: FrameAct)
    requires FrameInv(st, b) && FrameCan(st, a)
    ensures SameClaims(st.q, FrameDo(st, a).q, b) && SameTasks(st.q, FrameDo(st, a).q, b)
  {
    hide FrameInv, FrameCan, FrameDo;
    BaseBelow(st, b);
    if a.Rob? {
      RobBelow(st, b, a.r);
    } else {
      OwnerBelow(st, b, a);
    }
  }

  lemma SameTrans(q: Deque, q': Deque, q'': Deque, h: nat, H: nat)
    requires SameClaims(q, q', h) && SameTasks(q, q', h) && h <= H
    requires SameClaims(q', q'', H) && SameTasks(q', q'', H)
    ensures SameClaims(q, q'', h) && SameTasks(q, q'', h)
  {
  }

  lemma MoveInv(fs: seq<FrameState>, b: nat, a: FrameAct)
    requires NestInv(fs, b) && NestCan(fs, Move(a))
    ensures NestInv(NestDo(fs, Move(a)), b)
  {
    hide FrameInv, FrameCan, SameClaims, SameTasks;
    var n, top := |fs| - 1, Last(fs);
    var fs' := NestDo(fs, Move(a));
    assert LevelOk(fs, b, n);
    FrameKeeps(top, Base(fs, b, n), a);
    MoveBelow(top, Base(fs, b, n), a);
    MoveKeepsPlace(top, a);
    forall i | 0 <= i < |fs'| ensures LevelOk(fs', b, i) {
      assert LevelOk(fs, b, i);
      if i < n {
        Rising(fs, b, i, n);
        SameTrans(fs[i].q, top.q, Last(fs').q, fs[i].f.h, Base(fs, b, n));
      }
    }
  }

  lemma MoveKeepsPlace(st: FrameState, a: FrameAct)
    requires FrameCan(st, a)
    ensures FrameDo(st, a).f.h == st.f.h && FrameDo(st, a).entry == st.entry
  {
  }

  lemma StartInv(e: Deque, h: nat, b: nat)
    requires DequeInv(e, Idle(h), b)
    ensures FrameInv(Start(e, h), b)
  {
    assert Resumed(e, Saved(e.tail, e.split, e.allstolen), e) == e;
  }

  lemma CalledInv(st: FrameState, b: nat)
    requires FrameInv(st, b) && st.f.InFrame? && st.f.pc.Idle?
    ensures FrameInv(Start(st.q, st.f.pc.h), st.f.h) && st.f.h <= |st.q.slots|
  {
    hide DequeInv, OldShape;
    StartInv(st.q, st.f.pc.h, st.f.h);
  }

  lemma CallInv(fs: seq<FrameState>, b: nat)
    requires NestInv(fs, b) && NestCan(fs, Call)
    ensures NestInv(NestDo(fs, Call), b)
  {
    hide FrameInv;
    var n, top := |fs| - 1, Last(fs);
    var fs' := NestDo(fs, Call);
    assert LevelOk(fs, b, n);
    CalledInv(top, Base(fs, b, n));
    forall i | 0 <= i < |fs'| ensures LevelOk(fs', b, i) {
      assert i <= n ==> LevelOk(fs, b, i);
    }
  }

  /** A frame goes on with the deque that an inner frame leaves, if and only if that one was
      entered with a deque that it restores. */
  lemma ResumeExact(st: FrameState, b: nat, inner: FrameState)
    requires FrameInv(st, b) && st.f.InFrame? && st.f.pc == Idle(inner.f.h)
    requires FrameInv(inner, st.f.h) && inner.entry == st.q && inner.f.Left?
    requires SameClaims(st.q, inner.q, st.f.h) && SameTasks(st.q, inner.q, st.f.h)
    ensures FrameInv(st.(q := inner.q), b) <==> Intact(inner)
  {
    RestoredShape(st.q, inner.q, inner.f.h, st.f.h);
    OldShapeKeeps(st.q, inner.q, st.f.saved, st.entry, st.f.h, b);
    SameTasksTrans(st.entry, st.q, inner.q, st.f.h, st.f.h);
    hide DequeInv, OldShape;
  }

  lemma ReturnInv(fs: seq<FrameState>, b: nat)
    requires NestInv(fs, b) && NestCan(fs, Return)
    ensures NestInv(NestDo(fs, Return), b) <==> Intact(Last(fs))
  {
    hide FrameInv, SameClaims, SameTasks;
    var n, top := |fs| - 1, Last(fs);
    var fs' := NestDo(fs, Return);
    assert LevelOk(fs, b, n) && LevelOk(fs, b, n - 1);
    ResumeExact(fs[n - 1], Base(fs, b, n - 1), top);
    forall i | 0 <= i < n - 1 ensures LevelOk(fs', b, i) {
      assert LevelOk(fs, b, i);
    }
    assert LevelOk(fs', b, n - 1) <==> Intact(top);
  }

  lemma NextInv(fs: seq<FrameState>, fs': seq<FrameState>, b: nat)
    requires NestInv(fs, b) && NestNext(fs, fs') && (|fs'| < |fs| ==> Intact(Last(fs)))
    ensures NestInv(fs', b) && fs'[0].entry == fs[0].entry && fs'[0].f.h == fs[0].f.h
  {
    hide NestInv, FrameCan, FrameDo;
    var a :| NestCan(fs, a) && fs' == NestDo(fs, a);
    match a
    case Move(m) =>
      MoveInv(fs, b, m);
      MoveKeepsPlace(Last(fs), m);
    case Call => CallInv(fs, b);
    case Return => ReturnInv(fs, b);
  }

  // ---------------------------------------------------------------- the theorems

  lemma {:induction false} RunInv(e: Deque, h: nat, b: nat, run: seq<seq<FrameState>>, k: nat)
    requires DequeInv(e, Idle(h), b) && FrameRun(e, h, run) && k < |run| && Careful(run, k)
    ensures NestInv(run[k], b) && run[k][0].entry == e && run[k][0].f.h == h
  {
    hide FrameInv, DequeInv, NestNext, Intact;
    if k == 0 {
      StartInv(e, h, b);
    } else {
      RunInv(e, h, b, run, k - 1);
      assert NestNext(run[k - 1], run[k - 1 + 1]);
      NextInv(run[k - 1], run[k], b);
    }
  }

  /** Isolation and restore, for every frame of every run, with frames inside frames to any
      depth. While a frame is cut off or restored no steal can succeed; inside it the claims
      below its entry head are as at the cut and the tasks there that nobody claimed are
      untouched, also while inner frames come and go; and afterwards the frame around it is as
      at entry, apart from what was stolen before the cut and after the restoring store, and
      apart from the private split, which is the saved public one. */
  lemma FrameIsolation(e: Deque, h: nat, b: nat, run: seq<seq<FrameState>>, k: nat, i: nat)
    requires DequeInv(e, Idle(h), b) && FrameRun(e, h, run) && k < |run| && Careful(run, k) && i < |run[k]|
    ensures run[k][0].entry == e && run[k][0].f.h == h
    ensures var st, q := run[k][i], Last(run[k]).q;
            && SameTasks(st.entry, q, st.f.h)
            && (i < |run[k]| - 1 ==> st.f.InFrame?)
            && (st.f.InFrame? ==> SameClaims(st.cut, q, st.f.h))
            && (Sealed(st.f) ==> q.split <= q.tail)
            && (st.f.Left? ==>
                  && DequeInv(q.(psplit := st.entry.psplit), Idle(st.f.h), Base(run[k], b, i))
                  && q.split == q.psplit == st.entry.split
                  && q.allstolen == q.pallstolen == st.entry.allstolen
                  && st.back.tail == st.cut.tail && SameClaims(st.cut, st.back, st.f.h))
  {
    hide NestNext, DequeInv, OldShape;
    RunInv(e, h, b, run, k);
    assert LevelOk(run[k], b, i);
  }

  /** Who writes which slots below the head at which frame i was entered. */
  ghost predicate StepApart(fs: seq<FrameState>, a: NestAct, i: nat)
    requires fs != [] && NestCan(fs, a) && i < |fs|
  {
    var q, q', h := Last(fs).q, Last(NestDo(fs, a)).q, fs[i].f.h;
    && h <= |q.slots| == |q'.slots|
    && (!(a.Move? && a.a.Rob?) ==> forall s :: 0 <= s < h ==> q'.slots[s] == q.slots[s])
    && (forall s :: 0 <= s < h && q'.slots[s] != q.slots[s] ==> q'.slots[s].claim.Stolen?)
    && (a.Move? && a.a.Rob? && a.a.r.Win? ==>
          !Sealed(Last(fs).f) && (fs[i].f.InFrame? ==> h <= q.tail < FrameHead(Last(fs).f)))
  }

  lemma TopApart(st: FrameState, b: nat, h: nat, a: FrameAct)
    requires FrameInv(st, b) && FrameCan(st, a) && h <= st.f.h
    ensures var q, q' := st.q, FrameDo(st, a).q;
            && st.f.h <= |q.slots| == |q'.slots|
            && (!a.Rob? ==> forall s :: 0 <= s < h ==> q'.slots[s] == q.slots[s])
            && (forall s :: 0 <= s < h && q'.slots[s] != q.slots[s] ==> q'.slots[s].claim.Stolen?)
  {
    hide FrameInv;
    BaseBelow(st, b);
    if !a.Rob? {
      OwnerBelow(st, b, a);
    }
  }

  /** The same step by step, for every frame the worker is in: the worker never writes a slot
      below the head at which it entered the frame, a thief writes there only what it has
      claimed, nobody steals while the innermost frame is being cut or restored, and whoever
      steals while a frame is in use takes a slot above its entry head. */
  lemma FrameSteps(e: Deque, h: nat, b: nat, run: seq<seq<FrameState>>, k: nat, i: nat, a: NestAct)
    requires DequeInv(e, Idle(h), b) && FrameRun(e, h, run) && k < |run| && Careful(run, k) && i < |run[k]|
    requires NestCan(run[k], a)
    ensures StepApart(run[k], a, i)
  {
    hide FrameInv, DequeInv, NestNext, FrameCan, FrameDo;
    var fs := run[k];
    var n, top := |fs| - 1, Last(fs);
    RunInv(e, h, b, run, k);
    assert LevelOk(fs, b, n);
    BaseBelow(top, Base(fs, b, n));
    if i < n {
      Rising(fs, b, i, n);
    }
    if a.Move? {
      TopApart(top, Base(fs, b, n), fs[i].f.h, a.a);
      if a.a.Rob? && a.a.r.Win? {
        WinAbove(top, Base(fs, b, n), a.a.r);
      }
    }
  }

  /** The saved public split is not always the private one. A frame leaves its worker with a
      deque that is intact if and only if the deque was not allstolen when the frame was
      entered, or its public split still reached the head. */
  lemma RestoreExact(e: Deque, h: nat, b: nat, run: seq<seq<FrameState>>, k: nat)
    requires DequeInv(e, Idle(h), b) && FrameRun(e, h, run) && k < |run| && Careful(run, k) && Last(run[k]).f.Left?
    ensures var fs := run[k]; var st := Last(fs);
            && (DequeInv(st.q, Idle(st.f.h), Base(fs, b, |fs| - 1)) <==> (!st.entry.allstolen || st.f.h <= st.entry.split))
            && (|fs| > 1 ==> (NestInv(NestDo(fs, Return), b) <==> (!st.entry.allstolen || st.f.h <= st.entry.split)))
  {
    hide NestNext, DequeInv, OldShape;
    var fs := run[k];
    RunInv(e, h, b, run, k);
    assert LevelOk(fs, b, |fs| - 1);
    RestoredShape(Last(fs).entry, Last(fs).q, Last(fs).f.h, Base(fs, b, |fs| - 1));
    if |fs| > 1 {
      ReturnInv(fs, b);
    }
  }

  /** After a frame entered with an allstolen deque the top task is still a stolen one. The
      next SYNC takes its fast path on it, and runs it a second time, if and only if the
      public split was below the head and no thief has asked for more work. */
  lemma StolenTaskPopped(e: Deque, h: nat, b: nat, run: seq<seq<FrameState>>, k: nat)
    requires DequeInv(e, Idle(h), b) && FrameRun(e, h, run) && k < |run| && Careful(run, k) && Last(run[k]).f.Left?
    requires Last(run[k]).entry.allstolen && Base(run[k], b, |run[k]| - 1) < Last(run[k]).f.h
    ensures var st := Last(run[k]);
            && st.f.h <= |st.q.slots| && st.q.slots[st.f.h - 1].claim.Stolen?
            && (SyncBegin(st.q, st.f.h) == SyncPop(st.f.h - 1) <==> (st.entry.split < st.f.h && !st.q.movesplit))
  {
    var st, i := Last(run[k]), |run[k]| - 1;
    FrameIsolation(e, h, b, run, k, i);
    hide NestNext, SameClaims, SameTasks;
    assert Closed(st.q.(psplit := st.entry.psplit), Base(run[k], b, i), st.f.h);
  }

  // ---------------------------------------------------------------- an undisturbed frame

  /** A frame that nobody disturbs leaves the deque of its worker like this. */
  function AfterFrame(q: Deque): Deque {
    q.(psplit := q.split, pallstolen := q.allstolen)
  }

  lemma Extend(e: Deque, h: nat, run: seq<seq<FrameState>>, a: NestAct) returns (run': seq<seq<FrameState>>)
    requires FrameRun(e, h, run) && NestCan(Last(run), a)
    ensures run' == run + [NestDo(Last(run), a)] && FrameRun(e, h, run')
  {
    run' := run + [NestDo(Last(run), a)];
    assert NestNext(Last(run), NestDo(Last(run), a));
    hide NestNext;
    forall k | 0 <= k < |run'| - 1 ensures NestNext(run'[k], run'[k + 1]) {
      assert k < |run| - 1 ==> NestNext(run[k], run[k + 1]);
    }
  }

  /** The innermost frame, which was just entered with deque q, runs an empty root task. */
  lemma QuietTop(e: Deque, h: nat, run: seq<seq<FrameState>>, under: seq<FrameState>, q: Deque, i: nat)
    returns (run': seq<seq<FrameState>>)
    requires FrameRun(e, h, run) && Last(run) == under + [Start(q, i)]
    ensures FrameRun(e, h, run') && run <= run' && |run'| == |run| + 11
    ensures forall k :: |run| <= k < |run'| ==> |run'[k]| == |under| + 1
    ensures var fs := Last(run');
            |fs| == |under| + 1 && Front(fs) == under && Last(fs).f == Left(i) && Last(fs).q == AfterFrame(q)
  {
    run' := run;
    var k := 0;
    while k < 11
      invariant 0 <= k <= 11 && run <= run' && |run'| == |run| + k && FrameRun(e, h, run')
      invariant forall j :: |run| <= j < |run'| ==> |run'[j]| == |under| + 1
      invariant |Last(run')| == |under| + 1 && Front(Last(run')) == under && Quiet(q, i, Last(Last(run')), k)
    {
      hide FrameRun;
      QuietStep(q, i, Last(Last(run')), k);
      run' := GoTop(e, h, run', under, q, i, k);
      k := k + 1;
    }
  }

  lemma GoTop(e: Deque, h: nat, run: seq<seq<FrameState>>, under: seq<FrameState>, q: Deque, i: nat, k: nat)
    returns (run': seq<seq<FrameState>>)
    requires FrameRun(e, h, run) && |Last(run)| == |under| + 1 && Front(Last(run)) == under
    requires FrameCan(Last(Last(run)), Go) && Quiet(q, i, FrameGo(Last(Last(run))), k + 1)
    ensures FrameRun(e, h, run') && run <= run' && |run'| == |run| + 1
    ensures |Last(run')| == |under| + 1 && Front(Last(run')) == under && Quiet(q, i, Last(Last(run')), k + 1)
  {
    hide Quiet, NestNext;
    run' := Extend(e, h, run, Move(Go));
    assert Last(run') == under + [FrameGo(Last(Last(run)))];
  }

  /** Running an empty root task from any deque, without any thief. */
  lemma QuietFrame(e: Deque, h: nat) returns (run: seq<seq<FrameState>>)
    ensures FrameRun(e, h, run) && |run| == 12 && Careful(run, 11)
    ensures |run[11]| == 1 && run[11][0].f == Left(h) && run[11][0].q == AfterFrame(e)
  {
    run := [[Start(e, h)]];
    run := QuietTop(e, h, run, [], e, h);
  }

  /** Whenever the root task of the innermost frame may, it can enter a further frame, to any
      depth, and come back from it. */
  lemma InnerFrame(e: Deque, h: nat, run: seq<seq<FrameState>>) returns (run': seq<seq<FrameState>>)
    requires FrameRun(e, h, run) && Last(run) != [] && Last(Last(run)).f.InFrame? && Last(Last(run)).f.pc.Idle?
    ensures FrameRun(e, h, run') && run <= run' && |run'| == |run| + 13
    ensures |run'[|run|]| == |Last(run)| + 1
    ensures Last(run') == Front(Last(run)) + [Last(Last(run)).(q := AfterFrame(Last(Last(run)).q))]
  {
    hide NestNext;
    var fs := Last(run);
    var q, i := Last(fs).q, Last(fs).f.pc.h;
    var run1 := Extend(e, h, run, Call);
    var run2 := QuietTop(e, h, run1, fs, q, i);
    run' := Extend(e, h, run2, Return);
    assert run'[|run|] == run1[|run|];
    var gs := Last(run2);
    assert gs[..|gs| - 2] == Front(fs) && gs[|gs| - 2] == Last(fs);
  }

  /** The k-th state of an undisturbed frame. */
  ghost predicate Quiet(e: Deque, h: nat, st: FrameState, k: nat) {
    var s, q := Saved(e.tail, e.split, e.allstolen), st.q;
    && q == e.(tail := q.tail, split := q.split, allstolen := q.allstolen, psplit := q.psplit, pallstolen := q.pallstolen)
    && (k < 4 ==> q.tail == e.tail && q.split == e.split)
    && (k == 4 ==> q.tail == e.tail)
    && (k < 2 ==> q.allstolen == e.allstolen)
    && (k == 9 ==> q.allstolen == e.allstolen)
    && (k == 10 ==> q.allstolen == e.allstolen && q.tail == e.tail && q.split == e.split)
    && (k == 11 ==> q == AfterFrame(e))
    && st.f == (if k == 0 then Enter(h)
                else if k == 1 then EnterFlag(h, e.allstolen)
                else if k == 2 then EnterSplit(h, e.allstolen)
                else if k == 3 then EnterCut(h, e.allstolen, e.split)
                else if k == 4 then EnterTail(h, e.allstolen, e.split)
                else if k == 5 then EnterWord(h, s)
                else if k == 6 then EnterPrivate(h, s)
                else if k == 7 then InFrame(h, s, Idle(h))
                else if k == 8 then LeaveFlag(h, s)
                else if k == 9 then LeaveWord(h, s)
                else if k == 10 then LeavePrivate(h, s)
                else Left(h))
  }

  lemma QuietStep(e: Deque, h: nat, st: FrameState, k: nat)
    requires k < 11 && Quiet(e, h, st, k)
    ensures FrameCan(st, Go) && Quiet(e, h, FrameGo(st), k + 1)
  {
  }
}
