/**
 Task frames: lace_exec_in_new_frame saves the worker's deque, cuts the old frame off,
 runs a root task above the current head and restores the old frame (src/lace.c).

 These are the steps of one frame on its worker's deque, and of thieves racing against every
 single store. The root task is any sequence of deque operations that returns to the head it
 started from; module NestedFrames adds the frames that it enters itself.
 */
module Frames {
  import opened SplitDeque

  // ------------------------------------------------------ moves on one deque

  datatype OwnerAct = Step | Spawn(task: int) | Share | Sync | Pop | LeapEnter | LeapExit | LeapPop

  /** The owner may run tasks above head `b`. */
  predicate OwnerCan(q: Deque, pc: Pc, b: nat, a: OwnerAct) {
    match a
    case Step => Stepping(pc)
    case Spawn(_) => pc.Idle? && pc.h < |q.slots|
    case Share => pc.Idle?
    case Sync => pc.Idle? && b < pc.h
    case Pop => pc.SyncPop? && pc.d < |q.slots|
    case LeapEnter => pc.LeapRead? && pc.d < |q.slots|
    case LeapExit => pc.Idle? && b < pc.h <= |q.slots| && q.slots[pc.h - 1].thief == Completed
    case LeapPop => pc.LeapEnd? && pc.d < |q.slots|
  }

  function OwnerDo(q: Deque, pc: Pc, b: nat, a: OwnerAct): (Deque, Pc)
    requires OwnerCan(q, pc, b, a)
  {
    match a
    case Step => Advance(q, pc)
    case Spawn(t) => SpawnWrite(q, pc.h, t)
    case Share => (ShareAll(q, pc.h), pc)
    case Sync => (q, SyncBegin(q, pc.h))
    case Pop => (SplitDeque.Pop(q, pc.d), Idle(pc.d))
    case LeapEnter => (q, if q.slots[pc.d].thief == Completed then LeapEnd(pc.d) else Idle(pc.d + 1))
    case LeapExit => (q, LeapPost(pc.h - 1))
    case LeapPop => (Release(q, pc.d), Idle(pc.d))
  }

  datatype ThiefAct = Win(worker: nat, depth: nat) | Mark(i: nat, thief: Thief) | Put(i: nat, v: int) | Request

  /** A thief acts on the word, or on a slot below H that it holds. */
  predicate ThiefCan(q: Deque, H: nat, a: ThiefAct) {
    match a
    case Win(_, _) => q.tail < q.split && q.tail < |q.slots|
    case Mark(i, t) => Held(q, H, i) && t != Empty
    case Put(i, _) => Held(q, H, i)
    case Request => true
  }

  function ThiefDo(q: Deque, H: nat, a: ThiefAct): Deque
    requires ThiefCan(q, H, a)
  {
    match a
    case Win(w, k) => Take(q, w, k)
    case Mark(i, t) => SetThief(q, i, t)
    case Put(i, v) => SetResult(q, i, v)
    case Request => RequestSplit(q)
  }

  /** Slots below `h` keep their task and instance; claims on them are never undone. */
  ghost predicate SameTasks(q: Deque, q': Deque, h: nat) {
    && h <= |q.slots| == |q'.slots|
    && forall i :: 0 <= i < h ==>
         && q'.slots[i].id == q.slots[i].id && q'.slots[i].task == q.slots[i].task
         && (q.slots[i].claim.Stolen? ==> q'.slots[i].claim == q.slots[i].claim)
  }

  /** Claims below `h` are the same, and slots that nobody has claimed are untouched. */
  ghost predicate SameClaims(q: Deque, q': Deque, h: nat) {
    && h <= |q.slots| == |q'.slots|
    && forall i :: 0 <= i < h ==>
         && q'.slots[i].claim == q.slots[i].claim
         && (q.slots[i].claim.Unclaimed? ==> q'.slots[i] == q.slots[i])
  }

  lemma LeapEnterKeeps(q: Deque, d: nat, b: nat)
    requires DequeInv(q, LeapRead(d), b)
    ensures DequeInv(q, if q.slots[d].thief == Completed then LeapEnd(d) else Idle(d + 1), b)
  {
    if q.slots[d].thief == Completed {
      LeapReadDone(q, d, b);
    } else {
      LeapReadKeeps(q, d, b);
    }
  }

  lemma OwnerIdleKeeps(q: Deque, pc: Pc, b: nat, a: OwnerAct)
    requires pc.Idle? && DequeInv(q, pc, b) && OwnerCan(q, pc, b, a)
    ensures DequeInv(OwnerDo(q, pc, b, a).0, OwnerDo(q, pc, b, a).1, b)
  {
    match a
    case Spawn(t) => SpawnWriteKeeps(q, pc.h, t, b);
    case Share => ShareAllKeeps(q, pc.h, b);
    case Sync => SyncBeginKeeps(q, pc.h, b);
    case LeapExit => LeapDoneKeeps(q, pc.h - 1, b);
  }

  /** The owner keeps the invariant of its frame and never touches a slot below it. */
  lemma OwnerKeeps(q: Deque, pc: Pc, b: nat, a: OwnerAct)
    requires DequeInv(q, pc, b) && OwnerCan(q, pc, b, a)
    ensures DequeInv(OwnerDo(q, pc, b, a).0, OwnerDo(q, pc, b, a).1, b)
  {
    hide DequeInv, Advance, SplitDeque.Pop, Release;
    if pc.Idle? {
      OwnerIdleKeeps(q, pc, b, a);
    } else {
      match a
      case Step => AdvanceKeeps(q, pc, b);
      case Pop => PopKeeps(q, pc.d, b);
      case LeapEnter => LeapEnterKeeps(q, pc.d, b);
      case LeapPop => ReleaseKeeps(q, pc.d, b);
    }
  }

  lemma OwnerFrame(q: Deque, pc: Pc, b: nat, a: OwnerAct)
    requires Sized(q, pc, b) && OwnerCan(q, pc, b, a)
    ensures var q' := OwnerDo(q, pc, b, a).0;
            |q'.slots| == |q.slots| && forall i :: 0 <= i < b ==> q'.slots[i] == q.slots[i]
  {
    if a.Step? {
      AdvanceFrame(q, pc);
    }
  }

  /** Thieves keep every frame's invariant; they claim only slots of the current frame. */
  lemma ThiefKeeps(q: Deque, pc: Pc, b: nat, a: ThiefAct)
    requires DequeInv(q, pc, b) && ThiefCan(q, LiveHead(pc), a)
    ensures DequeInv(ThiefDo(q, LiveHead(pc), a), pc, b)
  {
    match a
    case Win(w, k) => TakeKeeps(q, pc, b, w, k);
    case Mark(i, t) => SetThiefKeeps(q, pc, b, i, t);
    case Put(i, v) => SetResultKeeps(q, pc, b, i, v);
    case Request => RequestSplitKeeps(q, pc, b);
  }

  lemma ThiefFrame(q: Deque, pc: Pc, b: nat, a: ThiefAct)
    requires DequeInv(q, pc, b) && ThiefCan(q, LiveHead(pc), a)
    ensures var q' := ThiefDo(q, LiveHead(pc), a);
            SameTasks(q, q', LiveHead(pc)) && SameClaims(q, q', b)
  {
    if a.Win? {
      StealableSlot(q, pc, b);
    }
  }

  // ------------------------------------------------------------- the frame

  datatype Saved = Saved(tail: nat, split: nat, allstolen: bool)

  /** Where lace_exec_in_new_frame is; the field names what has been read so far. */
  datatype FramePc =
    | Enter(h: nat)
    | EnterFlag(h: nat, allstolen: bool)
    | EnterSplit(h: nat, allstolen: bool)
    | EnterCut(h: nat, allstolen: bool, split: nat)
    | EnterTail(h: nat, allstolen: bool, split: nat)
    | EnterWord(h: nat, saved: Saved)
    | EnterPrivate(h: nat, saved: Saved)
    | InFrame(h: nat, saved: Saved, pc: Pc)
    | LeaveFlag(h: nat, saved: Saved)
    | LeaveWord(h: nat, saved: Saved)
    | LeavePrivate(h: nat, saved: Saved)
    | Left(h: nat)

  /** `entry`, `cut` and `back` record the deque at entry, right after the store of
      split = 0, and right after the word of the old frame is stored back. */
  datatype FrameState = FrameState(q: Deque, f: FramePc, entry: Deque, cut: Deque, back: Deque)

  datatype FrameAct = Go | Own(a: OwnerAct) | Rob(r: ThiefAct)

  function FrameHead(f: FramePc): nat {
    if f.InFrame? then LiveHead(f.pc) else f.h
  }

  predicate FrameCan(st: FrameState, a: FrameAct) {
    match a
    case Go => !st.f.Left? && (st.f.InFrame? ==> st.f.pc == Idle(st.f.h))
    case Own(o) => st.f.InFrame? && OwnerCan(st.q, st.f.pc, st.f.h, o)
    case Rob(r) => ThiefCan(st.q, FrameHead(st.f), r)
  }

  function FrameGo(st: FrameState): FrameState
    requires FrameCan(st, Go)
  {
    var q := st.q;
    match st.f
    case Enter(h) => st.(f := EnterFlag(h, q.allstolen))
    case EnterFlag(h, as_) => st.(q := q.(allstolen := true), f := EnterSplit(h, as_))
    case EnterSplit(h, as_) => st.(f := EnterCut(h, as_, q.split))
    case EnterCut(h, as_, split) =>
      st.(q := q.(split := 0), f := EnterTail(h, as_, split), cut := q.(split := 0))
    case EnterTail(h, as_, split) => st.(f := EnterWord(h, Saved(q.tail, split, as_)))
    case EnterWord(h, saved) => st.(q := q.(tail := U32(h), split := U32(h)), f := EnterPrivate(h, saved))
    case EnterPrivate(h, saved) =>
      st.(q := q.(psplit := h, pallstolen := true), f := InFrame(h, saved, Idle(h)))
    case InFrame(h, saved, _) => st.(f := LeaveFlag(h, saved))
    case LeaveFlag(h, saved) => st.(q := q.(allstolen := saved.allstolen), f := LeaveWord(h, saved))
    case LeaveWord(h, saved) =>
      var q' := q.(tail := saved.tail, split := saved.split);
      st.(q := q', f := LeavePrivate(h, saved), back := q')
    case LeavePrivate(h, saved) =>
      st.(q := q.(psplit := saved.split, pallstolen := saved.allstolen), f := Left(h))
  }

  function FrameDo(st: FrameState, a: FrameAct): FrameState
    requires FrameCan(st, a)
  {
    match a
    case Go => FrameGo(st)
    case Own(o) =>
      var (q', pc') := OwnerDo(st.q, st.f.pc, st.f.h, o);
      st.(q := q', f := InFrame(st.f.h, st.f.saved, pc'))
    case Rob(r) => st.(q := ThiefDo(st.q, FrameHead(st.f), r))
  }

  /** The old frame with its saved word, as it would be if its owner `e` had never left. */
  function Resumed(q: Deque, saved: Saved, e: Deque): Deque {
    q.(tail := saved.tail, split := saved.split, allstolen := saved.allstolen,
       psplit := e.psplit, pallstolen := e.pallstolen)
  }

  ghost predicate OldShape(q: Deque, saved: Saved, e: Deque, h: nat, b: nat)
    requires h <= |q.slots|
  {
    Open(Resumed(q, saved, e), b, h) || Closed(Resumed(q, saved, e), b, h)
  }

  /** The stage after which no compare-and-swap on the old frame can succeed. */
  predicate Sealed(f: FramePc) {
    f.EnterTail? || f.EnterWord? || f.EnterPrivate? || f.LeaveFlag? || f.LeaveWord?
  }

  /** What is claimed below `h` is what was claimed when the old frame was cut off. */
  ghost predicate AsAtCut(st: FrameState, saved: Saved, h: nat) {
    && saved == Saved(st.cut.tail, st.entry.split, st.entry.allstolen)
    && SameClaims(st.cut, st.q, h)
  }

  ghost predicate FrameInv(st: FrameState, b: nat) {
    var q, e := st.q, st.entry;
    && DequeInv(e, Idle(st.f.h), b)
    && SameTasks(e, q, st.f.h)
    && (Sealed(st.f) ==> q.split <= q.tail)
    && match st.f
       case Enter(h) =>
         && q.split == e.split && q.allstolen == e.allstolen
         && DequeInv(Resumed(q, Saved(q.tail, e.split, e.allstolen), e), Idle(h), b)
       case EnterFlag(h, as_) =>
         && q.split == e.split && as_ == e.allstolen
         && DequeInv(Resumed(q, Saved(q.tail, e.split, e.allstolen), e), Idle(h), b)
       case EnterSplit(h, as_) =>
         && q.split == e.split && as_ == e.allstolen && q.allstolen
         && DequeInv(Resumed(q, Saved(q.tail, e.split, e.allstolen), e), Idle(h), b)
       case EnterCut(h, as_, split) =>
         && q.split == e.split == split && as_ == e.allstolen && q.allstolen
         && DequeInv(Resumed(q, Saved(q.tail, e.split, e.allstolen), e), Idle(h), b)
       case EnterTail(h, as_, split) =>
         && split == e.split && as_ == e.allstolen && q.tail == st.cut.tail && q.allstolen
         && AsAtCut(st, Saved(q.tail, split, as_), h)
         && DequeInv(Resumed(q, Saved(q.tail, split, as_), e), Idle(h), b)
       case EnterWord(h, saved) =>
         && q.tail == saved.tail && q.allstolen
         && AsAtCut(st, saved, h)
         && DequeInv(Resumed(q, saved, e), Idle(h), b)
       case EnterPrivate(h, saved) =>
         && q.tail == q.split == h && q.allstolen
         && AsAtCut(st, saved, h)
         && DequeInv(Resumed(q, saved, e), Idle(h), b)
       case InFrame(h, saved, pc) =>
         && AsAtCut(st, saved, h)
         && DequeInv(q, pc, h) && OldShape(q, saved, e, h, b)
       case LeaveFlag(h, saved) =>
         && AsAtCut(st, saved, h)
         && DequeInv(q, Idle(h), h) && OldShape(q, saved, e, h, b)
       case LeaveWord(h, saved) =>
         && AsAtCut(st, saved, h)
         && q.allstolen == saved.allstolen
         && DequeInv(q.(allstolen := q.pallstolen), Idle(h), h) && OldShape(q, saved, e, h, b)
       case LeavePrivate(h, saved) =>
         && saved == Saved(st.cut.tail, e.split, e.allstolen)
         && q.split == e.split && q.allstolen == e.allstolen
         && st.back.tail == st.cut.tail && SameClaims(st.cut, st.back, h)
         && DequeInv(Resumed(q, Saved(q.tail, e.split, e.allstolen), e), Idle(h), b)
       case Left(h) =>
         && q.split == q.psplit == e.split && q.allstolen == q.pallstolen == e.allstolen
         && st.back.tail == st.cut.tail && SameClaims(st.cut, st.back, h)
         && DequeInv(q.(psplit := e.psplit), Idle(h), b)
  }

  // ------------------------------------------------ the frame keeps its invariant

  lemma SealedNoWin(q: Deque, H: nat, r: ThiefAct)
    requires q.split <= q.tail && ThiefCan(q, H, r)
    ensures !r.Win?
    ensures var q' := ThiefDo(q, H, r); q' == q.(slots := q'.slots, movesplit := q'.movesplit)
    ensures H <= |q.slots| ==> SameTasks(q, ThiefDo(q, H, r), H) && SameClaims(q, ThiefDo(q, H, r), H)
  {
  }

  lemma CutKeeps(q: Deque, saved: Saved, e: Deque, h: nat, b: nat, r: ThiefAct)
    requires q.split <= q.tail && ThiefCan(q, h, r)
    requires DequeInv(Resumed(q, saved, e), Idle(h), b)
    ensures DequeInv(Resumed(ThiefDo(q, h, r), saved, e), Idle(h), b)
  {
    var o := Resumed(q, saved, e);
    assert ThiefCan(o, h, r);
    ThiefKeeps(o, Idle(h), b, r);
    assert ThiefDo(o, h, r) == Resumed(ThiefDo(q, h, r), saved, e);
  }

  /** A steal does the same to a deque and to the deque of an owner that never left. */
  lemma RaceCommutes(q: Deque, e: Deque, h: nat, r: ThiefAct)
    requires q.split == e.split && ThiefCan(q, h, r)
    ensures var o := Resumed(q, Saved(q.tail, e.split, e.allstolen), e);
            var q' := ThiefDo(q, h, r);
            && ThiefCan(o, h, r) && ThiefDo(o, h, r) == Resumed(q', Saved(q'.tail, e.split, e.allstolen), e)
            && q'.split == q.split && q'.allstolen == q.allstolen
  {
  }

  lemma RaceKeeps(q: Deque, e: Deque, h: nat, b: nat, r: ThiefAct)
    requires q.split == e.split && ThiefCan(q, h, r)
    requires DequeInv(Resumed(q, Saved(q.tail, e.split, e.allstolen), e), Idle(h), b)
    ensures var q' := ThiefDo(q, h, r);
            && DequeInv(Resumed(q', Saved(q'.tail, e.split, e.allstolen), e), Idle(h), b)
            && q'.split == q.split && q'.allstolen == q.allstolen && SameTasks(q, q', h)
  {
    hide DequeInv, ThiefCan, ThiefDo;
    var o := Resumed(q, Saved(q.tail, e.split, e.allstolen), e);
    RaceCommutes(q, e, h, r);
    ThiefKeeps(o, Idle(h), b, r);
    ThiefFrame(o, Idle(h), b, r);
  }

  /** The old frame can be resumed as long as the claims below `h` stay as they are. */
  lemma OldShapeKeeps(q: Deque, q': Deque, saved: Saved, e: Deque, h: nat, b: nat)
    requires h <= |q.slots| && OldShape(q, saved, e, h, b) && SameClaims(q, q', h)
    ensures OldShape(q', saved, e, h, b)
  {
    var o, o' := Resumed(q, saved, e), Resumed(q', saved, e);
    assert forall i :: 0 <= i < h ==> o'.slots[i].claim == o.slots[i].claim;
    assert Open(o, b, h) ==> Open(o', b, h);
  }

  lemma SameTasksTrans(e: Deque, q: Deque, q': Deque, h: nat, H: nat)
    requires SameTasks(e, q, h) && SameTasks(q, q', H) && h <= H
    ensures SameTasks(e, q', h)
  {
  }

  lemma RobKeeps(st: FrameState, b: nat, r: ThiefAct)
    requires FrameInv(st, b) && FrameCan(st, Rob(r))
    ensures FrameInv(FrameDo(st, Rob(r)), b)
  {
    var q, e, h := st.q, st.entry, st.f.h;
    var q' := ThiefDo(q, FrameHead(st.f), r);
    if st.f.LeaveFlag? || st.f.LeaveWord? {
      RobLeaving(st, b, r);
    } else if st.f.EnterTail? {
      RobTail(st, b, r);
    } else if st.f.EnterWord? {
      RobWord(st, b, r);
    } else if st.f.EnterPrivate? {
      RobPrivate(st, b, r);
    } else if st.f.InFrame? {
      RobInFrame(st, b, r);
    } else if st.f.Left? {
      RobLeft(st, b, r);
    } else {
      RaceKeeps(q, e, h, b, r);
      SameTasksTrans(e, q, q', h, h);
    }
  }

  /** A thief does not look at the private split nor at the flags. */
  lemma ThiefIgnores(q: Deque, psplit: nat, allstolen: bool, H: nat, r: ThiefAct)
    requires ThiefCan(q, H, r)
    ensures var o, q' := q.(psplit := psplit, allstolen := allstolen), ThiefDo(q, H, r);
            && ThiefCan(o, H, r) && ThiefDo(o, H, r) == q'.(psplit := psplit, allstolen := allstolen)
            && q'.split == q.split && q'.psplit == q.psplit
            && q'.allstolen == q.allstolen && q'.pallstolen == q.pallstolen
  {
  }

  lemma RobLeft(st: FrameState, b: nat, r: ThiefAct)
    requires st.f.Left? && FrameInv(st, b) && FrameCan(st, Rob(r))
    ensures FrameInv(FrameDo(st, Rob(r)), b)
  {
    hide DequeInv, ThiefCan, ThiefDo;
    var q, e, h := st.q, st.entry, st.f.h;
    var o := q.(psplit := e.psplit);
    ThiefIgnores(q, e.psplit, q.allstolen, h, r);
    ThiefKeeps(o, Idle(h), b, r);
    ThiefFrame(o, Idle(h), b, r);
    assert SameTasks(q, ThiefDo(q, h, r), h);
    SameTasksTrans(e, q, ThiefDo(q, h, r), h, h);
  }

  lemma RobInFrame(st: FrameState, b: nat, r: ThiefAct)
    requires st.f.InFrame? && FrameInv(st, b) && FrameCan(st, Rob(r))
    ensures FrameInv(FrameDo(st, Rob(r)), b)
  {
    var q, e, h := st.q, st.entry, st.f.h;
    hide ThiefCan, ThiefDo, OldShape;
    var q' := ThiefDo(q, FrameHead(st.f), r);
    ThiefKeeps(q, st.f.pc, h, r);
    ThiefFrame(q, st.f.pc, h, r);
    OldShapeKeeps(q, q', st.f.saved, e, h, b);
    SameTasksTrans(e, q, q', h, FrameHead(st.f));
  }

  lemma RobTail(st: FrameState, b: nat, r: ThiefAct)
    requires st.f.EnterTail? && FrameInv(st, b) && FrameCan(st, Rob(r))
    ensures FrameInv(FrameDo(st, Rob(r)), b)
  {
    SealedNoWin(st.q, st.f.h, r);
    CutKeeps(st.q, Saved(st.q.tail, st.f.split, st.f.allstolen), st.entry, st.f.h, b, r);
    hide DequeInv, ThiefCan, ThiefDo;
    SameTasksTrans(st.entry, st.q, ThiefDo(st.q, st.f.h, r), st.f.h, st.f.h);
  }

  lemma RobWord(st: FrameState, b: nat, r: ThiefAct)
    requires st.f.EnterWord? && FrameInv(st, b) && FrameCan(st, Rob(r))
    ensures FrameInv(FrameDo(st, Rob(r)), b)
  {
    SealedNoWin(st.q, st.f.h, r);
    CutKeeps(st.q, st.f.saved, st.entry, st.f.h, b, r);
    hide DequeInv, ThiefCan, ThiefDo;
    SameTasksTrans(st.entry, st.q, ThiefDo(st.q, st.f.h, r), st.f.h, st.f.h);
  }

  lemma RobPrivate(st: FrameState, b: nat, r: ThiefAct)
    requires st.f.EnterPrivate? && FrameInv(st, b) && FrameCan(st, Rob(r))
    ensures FrameInv(FrameDo(st, Rob(r)), b)
  {
    SealedNoWin(st.q, st.f.h, r);
    CutKeeps(st.q, st.f.saved, st.entry, st.f.h, b, r);
    hide DequeInv, ThiefCan, ThiefDo;
    SameTasksTrans(st.entry, st.q, ThiefDo(st.q, st.f.h, r), st.f.h, st.f.h);
  }

  lemma RobLeaving(st: FrameState, b: nat, r: ThiefAct)
    requires st.f.LeaveFlag? || st.f.LeaveWord?
    requires FrameInv(st, b) && FrameCan(st, Rob(r))
    ensures FrameInv(FrameDo(st, Rob(r)), b)
  {
    hide DequeInv, ThiefCan, ThiefDo, OldShape;
    var q, e, h := st.q, st.entry, st.f.h;
    var q' := ThiefDo(q, h, r);
    SealedNoWin(q, h, r);
    SameTasksTrans(e, q, q', h, h);
    OldShapeKeeps(q, q', st.f.saved, e, h, b);
    if st.f.LeaveFlag? {
      ThiefKeeps(q, Idle(h), h, r);
    } else {
      ThiefIgnores(q, q.psplit, q.pallstolen, h, r);
      ThiefKeeps(q.(allstolen := q.pallstolen), Idle(h), h, r);
    }
  }

  lemma OwnKeeps(st: FrameState, b: nat, o: OwnerAct)
    requires FrameInv(st, b) && FrameCan(st, Own(o))
    ensures FrameInv(FrameDo(st, Own(o)), b)
    ensures forall i :: 0 <= i < st.f.h ==> FrameDo(st, Own(o)).q.slots[i] == st.q.slots[i]
  {
    var q, h := st.q, st.f.h;
    hide OwnerCan, OwnerDo, OldShape;
    OwnerKeeps(q, st.f.pc, h, o);
    OwnerFrame(q, st.f.pc, h, o);
    OldShapeKeeps(q, OwnerDo(q, st.f.pc, h, o).0, st.f.saved, st.entry, h, b);
  }

  lemma EnterKeeps(st: FrameState, b: nat)
    requires FrameInv(st, b) && FrameCan(st, Go)
    requires st.f.Enter? || st.f.EnterFlag? || st.f.EnterSplit? || st.f.EnterTail?
    ensures FrameInv(FrameGo(st), b)
  {
    var saved := Saved(st.q.tail, st.entry.split, st.entry.allstolen);
    assert Resumed(FrameGo(st).q, saved, st.entry) == Resumed(st.q, saved, st.entry);
  }

  /** The store of split = 0 cuts the old frame off: no thief can take from it any more. */
  lemma CutOff(st: FrameState, b: nat)
    requires FrameInv(st, b) && st.f.EnterCut?
    ensures FrameInv(FrameGo(st), b)
  {
    var q, h, split := st.q, st.f.h, st.f.split;
    var st' := FrameGo(st);
    var saved := Saved(q.tail, split, st.f.allstolen);
    assert Resumed(st'.q, saved, st.entry) == Resumed(q, saved, st.entry);
  }

  lemma WordKeeps(st: FrameState, b: nat)
    requires FrameInv(st, b) && st.f.EnterWord?
    ensures FrameInv(FrameGo(st), b)
  {
    var st' := FrameGo(st);
    assert Resumed(st'.q, st.f.saved, st.entry) == Resumed(st.q, st.f.saved, st.entry);
  }

  /** With tail = split = head and allstolen set, the worker is in a fresh, empty frame. */
  lemma PrivateKeeps(st: FrameState, b: nat)
    requires FrameInv(st, b) && st.f.EnterPrivate?
    ensures FrameInv(FrameGo(st), b)
  {
    var q, h, saved := st.q, st.f.h, st.f.saved;
    var q' := FrameGo(st).q;
    var o := Resumed(q, saved, st.entry);
    SameSlots(o, q', h);
    assert Closed(q', h, h);
    assert Resumed(q', saved, st.entry) == o;
  }

  lemma FrameDone(st: FrameState, b: nat)
    requires FrameInv(st, b) && FrameCan(st, Go) && (st.f.InFrame? || st.f.LeaveFlag?)
    ensures FrameInv(FrameGo(st), b)
  {
    var q, h, saved := st.q, st.f.h, st.f.saved;
    var q' := FrameGo(st).q;
    if st.f.InFrame? {
      assert Open(q, h, h) || Closed(q, h, h);
    } else {
      var o := q'.(allstolen := q'.pallstolen);
      assert o == q;
      OldShapeKeeps(q, q', saved, st.entry, h, b);
    }
  }

  lemma RestoreWord(st: FrameState, b: nat)
    requires FrameInv(st, b) && st.f.LeaveWord?
    ensures FrameInv(FrameGo(st), b)
  {
    var q, h, saved := st.q, st.f.h, st.f.saved;
    var q' := FrameGo(st).q;
    var o := Resumed(q', Saved(q'.tail, st.entry.split, st.entry.allstolen), st.entry);
    SameSlots(q.(allstolen := q.pallstolen), o, h);
    assert o == Resumed(q, saved, st.entry);
  }

  lemma RestorePrivate(st: FrameState, b: nat)
    requires FrameInv(st, b) && st.f.LeavePrivate?
    ensures FrameInv(FrameGo(st), b)
  {
    var q, e := st.q, st.entry;
    assert FrameGo(st).q.(psplit := e.psplit) == Resumed(q, Saved(q.tail, e.split, e.allstolen), e);
  }

  lemma FrameKeeps(st: FrameState, b: nat, a: FrameAct)
    requires FrameInv(st, b) && FrameCan(st, a)
    ensures FrameInv(FrameDo(st, a), b)
  {
    match a
    case Rob(r) => RobKeeps(st, b, r);
    case Own(o) => OwnKeeps(st, b, o);
    case Go =>
      match st.f {
        case EnterCut(_, _, _) => CutOff(st, b);
        case EnterWord(_, _) => WordKeeps(st, b);
        case EnterPrivate(_, _) => PrivateKeeps(st, b);
        case InFrame(_, _, _) => FrameDone(st, b);
        case LeaveFlag(_, _) => FrameDone(st, b);
        case LeaveWord(_, _) => RestoreWord(st, b);
        case LeavePrivate(_, _) => RestorePrivate(st, b);
        case _ => EnterKeeps(st, b);
      }
  }

  /** What a frame leaves is intact if and only if its saved public split serves as private
      one. */
  lemma RestoredShape(e: Deque, q: Deque, h: nat, b: nat)
    requires DequeInv(e, Idle(h), b) && DequeInv(q.(psplit := e.psplit), Idle(h), b)
    requires q.split == q.psplit == e.split && q.allstolen == q.pallstolen == e.allstolen
    ensures DequeInv(q, Idle(h), b) <==> (!e.allstolen || h <= e.split)
  {
    SameSlots(q.(psplit := e.psplit), q, h);
    if !e.allstolen {
      assert e.psplit == e.split;
    } else if h <= e.split {
      assert Closed(q.(psplit := e.psplit), b, h) && Closed(q, b, h);
    }
  }
}
