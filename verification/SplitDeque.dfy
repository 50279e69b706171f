/**
 The non-blocking split deque of one Lace worker (src/lace.h).

 A deque value holds the public word (tail, split), the public flags, the owner's
 private copies and the task slots. `Pc` says where the owner is inside SPAWN, SYNC,
 SYNC_SLOW, lace_shrink_shared or lace_leapfrog; `Advance` performs its next atomic
 load or store. The thief operations are those of lace_steal. `DequeInv` holds at
 every owner program point and is kept by every owner step and every thief step.

 Three fields have no counterpart in memory and only record history: the instance id
 and the spawned task of a slot, the claim made by a successful steal, and the multiset
 of all claims made so far.
 */
module SplitDeque {

  const WORD: nat := 0x1_0000_0000

  // Deque sizes below 2^31 - 1: no sum of two indices plus two wraps around.
  const SIZE_LIMIT: nat := 0x7FFF_FFFF

  /** uint32_t wrap-around. */
  function U32(x: nat): nat {
    if x < WORD then x else x % WORD
  }

  /** The `thief` field: THIEF_EMPTY, THIEF_TASK, a worker, THIEF_COMPLETED. */
  datatype Thief = Empty | Task | By(worker: nat) | Completed

  /** The union of a task's argument and its result. */
  datatype Data = Args(arg: int) | Res(res: int)

  /** Which steal activation (worker, depth of its call stack) won the slot. */
  datatype Claim = Unclaimed | Stolen(worker: nat, depth: nat)

  datatype Slot = Slot(id: nat, task: int, thief: Thief, data: Data, claim: Claim)

  datatype Deque = Deque(
    slots: seq<Slot>,
    tail: nat, split: nat, allstolen: bool, movesplit: bool,  // public
    psplit: nat, pallstolen: bool,                            // private
    next: nat, claims: multiset<nat>)                         // history

  function EmptySlot(): Slot {
    Slot(0, 0, Empty, Args(0), Unclaimed)
  }

  /** The deque as lace_init_worker sets it up. */
  function EmptyDeque(size: nat): Deque {
    Deque(seq(size, _ => EmptySlot()), 0, 0, false, false, 0, false, 0, multiset{})
  }

  /** Owner program points; `h` is the slot being spawned, `d` the slot being synced. */
  datatype Pc =
    | Idle(h: nat)
    | SpawnCheck(h: nat)
    | SpawnClear(h: nat, seen: bool)
    | SpawnPublish(h: nat)
    | SpawnUnflag(h: nat)
    | SpawnPrivate(h: nat)
    | SpawnGrow(h: nat)
    | SpawnGrown(h: nat, newsplit: nat)
    | SyncPop(d: nat)
    | SyncSlow(d: nat)
    | ShrinkRead(d: nat)
    | ShrinkStore(d: nat, tail: nat, split: nat)
    | ShrinkReread(d: nat, split: nat, newsplit: nat)
    | ShrinkRestore(d: nat, tail: nat, split: nat)
    | ShrinkSet(d: nat, newsplit: nat)
    | ShrinkLost(d: nat)
    | ShrinkLostPrivate(d: nat)
    | SlowCheck(d: nat)
    | SlowGrow(d: nat)
    | SlowGrown(d: nat)
    | LeapRead(d: nat)
    | LeapPost(d: nat)
    | LeapPostPublic(d: nat)
    | LeapPostPrivate(d: nat)
    | LeapEnd(d: nat)

  /** Slots below the live head hold a spawned task that has not been popped. */
  function LiveHead(pc: Pc): nat {
    match pc
    case Idle(h) => h
    case SpawnCheck(h) => h + 1
    case SpawnClear(h, _) => h + 1
    case SpawnPublish(h) => h + 1
    case SpawnUnflag(h) => h + 1
    case SpawnPrivate(h) => h + 1
    case SpawnGrow(h) => h + 1
    case SpawnGrown(h, _) => h + 1
    case _ => pc.d + 1
  }

  // ---------------------------------------------------------------- owner steps

  /** SPAWN fills the slot at the head; it is the owner's until it is published. */
  function SpawnWrite(q: Deque, h: nat, task: int): (Deque, Pc)
    requires h < |q.slots|
  {
    (q.(slots := q.slots[h := Slot(q.next, task, Task, Args(task), Unclaimed)], next := q.next + 1),
     SpawnCheck(h))
  }

  /** SYNC reads `movesplit` and the private split. */
  function SyncBegin(q: Deque, h: nat): Pc
    requires h > 0
  {
    if !q.movesplit && q.psplit <= h - 1 then SyncPop(h - 1) else SyncSlow(h - 1)
  }

  /** Points at which the owner's next action is one load or store on its own deque. */
  predicate Stepping(pc: Pc) {
    !pc.Idle? && !pc.SyncPop? && !pc.LeapRead? && !pc.LeapEnd?
  }

  function Advance(q: Deque, pc: Pc): (Deque, Pc)
    requires Stepping(pc)
  {
    match pc
    case SpawnCheck(h) =>
      if q.pallstolen then (q, SpawnClear(h, q.movesplit))
      else if q.movesplit then (q, SpawnGrow(h))
      else (q, Idle(h + 1))
    case SpawnClear(h, seen) =>
      (if seen then q.(movesplit := false) else q, SpawnPublish(h))
    case SpawnPublish(h) =>
      (q.(tail := U32(h), split := U32(h + 1)), SpawnUnflag(h))
    case SpawnUnflag(h) =>
      (q.(allstolen := false), SpawnPrivate(h))
    case SpawnPrivate(h) =>
      (q.(psplit := h + 1, pallstolen := false), Idle(h + 1))
    case SpawnGrow(h) =>
      var newsplit := U32(q.psplit + h + 2) / 2;
      (q.(split := newsplit), SpawnGrown(h, newsplit))
    case SpawnGrown(h, newsplit) =>
      (q.(psplit := newsplit, movesplit := false), Idle(h + 1))

    case SyncSlow(d) =>
      if q.pallstolen then (q, LeapRead(d))
      else if q.psplit > d then (q, ShrinkRead(d))
      else (q, SlowCheck(d))

    case ShrinkRead(d) =>
      if q.tail != q.split then (q, ShrinkStore(d, q.tail, q.split)) else (q, ShrinkLost(d))
    case ShrinkStore(d, tail, split) =>
      var newsplit := U32(tail + split) / 2;
      (q.(split := newsplit), ShrinkReread(d, split, newsplit))
    case ShrinkReread(d, split, newsplit) =>
      if q.tail == split then (q, ShrinkLost(d))
      else if q.tail > newsplit then (q, ShrinkRestore(d, q.tail, split))
      else (q, ShrinkSet(d, newsplit))
    case ShrinkRestore(d, tail, split) =>
      var newsplit := U32(tail + split) / 2;
      (q.(split := newsplit), ShrinkSet(d, newsplit))
    case ShrinkSet(d, newsplit) =>
      (q.(psplit := newsplit), SlowCheck(d))
    case ShrinkLost(d) =>
      (q.(allstolen := true), ShrinkLostPrivate(d))
    case ShrinkLostPrivate(d) =>
      (q.(pallstolen := true), LeapRead(d))

    case SlowCheck(d) =>
      (q, if q.movesplit then SlowGrow(d) else SyncPop(d))
    case SlowGrow(d) =>
      var diff := if d >= q.psplit then (d - q.psplit + 1) / 2 else 0;
      (q.(psplit := q.psplit + diff, split := U32(q.split + diff)), SlowGrown(d))
    case SlowGrown(d) =>
      (q.(movesplit := false), SyncPop(d))

    case LeapPost(d) =>
      (q, if q.pallstolen then LeapEnd(d) else LeapPostPublic(d))
    case LeapPostPublic(d) =>
      (q.(allstolen := true), LeapPostPrivate(d))
    case LeapPostPrivate(d) =>
      (q.(pallstolen := true), LeapEnd(d))
  }

  /** SYNC's pop: the slot becomes empty and the owner runs the task itself. */
  function Pop(q: Deque, d: nat): Deque
    requires d < |q.slots|
  {
    q.(slots := q.slots[d := q.slots[d].(thief := Empty)], claims := q.claims + multiset{q.slots[d].id})
  }

  /** The end of lace_leapfrog: the slot of a finished stolen task becomes empty. */
  function Release(q: Deque, d: nat): Deque
    requires d < |q.slots|
  {
    q.(slots := q.slots[d := q.slots[d].(thief := Empty)])
  }

  /** lace_make_all_shared: the private and then the public split move to the head. */
  function ShareAll(q: Deque, h: nat): Deque {
    if q.psplit != h then q.(psplit := h, split := U32(h)) else q
  }

  // ---------------------------------------------------------------- thief steps

  /** A successful compare-and-swap on the word (tail, split). */
  function Take(q: Deque, worker: nat, depth: nat): Deque
    requires q.tail < |q.slots|
  {
    q.(tail := U32(q.tail + 1),
       slots := q.slots[q.tail := q.slots[q.tail].(claim := Stolen(worker, depth))],
       claims := q.claims + multiset{q.slots[q.tail].id})
  }

  function SetThief(q: Deque, i: nat, thief: Thief): Deque
    requires i < |q.slots|
  {
    q.(slots := q.slots[i := q.slots[i].(thief := thief)])
  }

  function SetResult(q: Deque, i: nat, v: int): Deque
    requires i < |q.slots|
  {
    q.(slots := q.slots[i := q.slots[i].(data := Res(v))])
  }

  function RequestSplit(q: Deque): Deque {
    q.(movesplit := true)
  }

  // ------------------------------------------------------------------ invariant

  /** Slots in [b, tail) are claimed and slots in [tail, H) are not. */
  ghost predicate ClaimedToTail(q: Deque, b: nat, H: nat)
    requires H <= |q.slots|
  {
    && b <= q.tail <= H
    && forall i :: b <= i < H ==> (q.slots[i].claim.Stolen? <==> i < q.tail)
  }

  ghost predicate AllClaimed(q: Deque, b: nat, H: nat)
    requires H <= |q.slots|
  {
    forall i :: b <= i < H ==> q.slots[i].claim.Stolen?
  }

  /** The deque while it is not `allstolen`. */
  ghost predicate Open(q: Deque, b: nat, H: nat)
    requires H <= |q.slots|
  {
    && !q.allstolen && !q.pallstolen
    && q.tail <= q.split <= H
    && q.split == q.psplit
    && ClaimedToTail(q, b, H)
  }

  /** The deque while it is `allstolen`. */
  ghost predicate Closed(q: Deque, b: nat, H: nat)
    requires H <= |q.slots|
  {
    && q.allstolen && q.pallstolen
    && q.split <= q.tail
    && H <= q.psplit && H <= q.tail
    && AllClaimed(q, b, H)
  }

  ghost predicate Shape(q: Deque, pc: Pc, b: nat)
    requires LiveHead(pc) <= |q.slots|
  {
    var H := LiveHead(pc);
    match pc
    case Idle(h) => Open(q, b, H) || Closed(q, b, H)
    case SpawnCheck(h) =>
      || (Open(q, b, H) && q.split <= h)
      || (Closed(q, b, h) && q.slots[h].claim.Unclaimed?)
    case SpawnClear(h, _) => Closed(q, b, h) && q.slots[h].claim.Unclaimed?
    case SpawnPublish(h) => Closed(q, b, h) && q.slots[h].claim.Unclaimed?
    case SpawnUnflag(h) =>
      && q.allstolen && q.pallstolen
      && q.split == H && ClaimedToTail(q, b, H)
    case SpawnPrivate(h) =>
      && !q.allstolen && q.pallstolen
      && q.split == H && ClaimedToTail(q, b, H)
    case SpawnGrow(h) => Open(q, b, H) && q.split <= h
    case SpawnGrown(h, newsplit) =>
      && !q.allstolen && !q.pallstolen
      && q.psplit < q.split == newsplit <= H
      && q.tail <= q.split && ClaimedToTail(q, b, H)
    case SyncPop(d) => Open(q, b, H) && q.psplit <= d
    case SyncSlow(d) => Open(q, b, H) || Closed(q, b, H)
    case ShrinkRead(d) => Open(q, b, H) && q.psplit == H
    case ShrinkStore(d, tail, split) =>
      && Open(q, b, H) && q.psplit == H
      && split == H && tail < split && tail <= q.tail
    case ShrinkReread(d, split, newsplit) =>
      && !q.allstolen && !q.pallstolen
      && q.psplit == split == H
      && q.split == newsplit < H
      && ClaimedToTail(q, b, H)
    case ShrinkRestore(d, tail, split) =>
      && !q.allstolen && !q.pallstolen
      && q.psplit == split == H
      && q.split < tail == q.tail < H
      && ClaimedToTail(q, b, H)
    case ShrinkSet(d, newsplit) =>
      && !q.allstolen && !q.pallstolen
      && q.psplit == H
      && q.tail <= q.split == newsplit <= d
      && ClaimedToTail(q, b, H)
    case ShrinkLost(d) =>
      && !q.allstolen && !q.pallstolen
      && q.psplit == H && q.split <= q.tail == H
      && AllClaimed(q, b, H)
    case ShrinkLostPrivate(d) =>
      && q.allstolen && !q.pallstolen
      && q.psplit == H && q.split <= q.tail == H
      && AllClaimed(q, b, H)
    case SlowCheck(d) => Open(q, b, H) && q.psplit <= d
    case SlowGrow(d) => Open(q, b, H) && q.psplit <= d
    case SlowGrown(d) => Open(q, b, H) && q.psplit <= d
    case LeapRead(d) => Closed(q, b, H)
    case LeapPost(d) =>
      && (Open(q, b, H) || Closed(q, b, H))
      && q.slots[d].thief == Completed
    case LeapPostPublic(d) =>
      && !q.allstolen && !q.pallstolen
      && q.tail == q.split == q.psplit == H
      && AllClaimed(q, b, H) && q.slots[d].thief == Completed
    case LeapPostPrivate(d) =>
      && q.allstolen && !q.pallstolen
      && q.tail == q.split == q.psplit == H
      && AllClaimed(q, b, H) && q.slots[d].thief == Completed
    case LeapEnd(d) => Closed(q, b, H) && q.slots[d].thief == Completed
  }

  /** What is in the slots: full below the live head, empty above it. */
  ghost predicate SlotsOk(q: Deque, H: nat)
    requires H <= |q.slots|
  {
    && (forall i :: 0 <= i < |q.slots| ==> (q.slots[i].thief == Empty <==> H <= i))
    && (forall i :: 0 <= i < H && q.slots[i].claim.Unclaimed? ==>
          q.slots[i].thief == Task && q.slots[i].data == Args(q.slots[i].task))
  }

  ghost predicate Live(q: Deque, H: nat, id: nat)
    requires H <= |q.slots|
  {
    exists i :: 0 <= i < H && q.slots[i].id == id
  }

  /** Every instance spawned so far was claimed once, unless it still waits in its slot. */
  ghost predicate ClaimsOk(q: Deque, H: nat)
    requires H <= |q.slots|
  {
    && (forall i :: 0 <= i < H ==> q.slots[i].id < q.next)
    && (forall i, j :: 0 <= i < j < H ==> q.slots[i].id != q.slots[j].id)
    && (forall i :: 0 <= i < H ==>
          q.claims[q.slots[i].id] == if q.slots[i].claim.Unclaimed? then 0 else 1)
    && (forall id: nat :: id < q.next && !Live(q, H, id) ==> q.claims[id] == 1)
    && (forall id: nat :: q.next <= id ==> q.claims[id] == 0)
  }

  ghost predicate Sized(q: Deque, pc: Pc, b: nat) {
    && |q.slots| < SIZE_LIMIT
    && (if pc.Idle? then b <= pc.h else b < LiveHead(pc))
    && LiveHead(pc) <= |q.slots|
  }

  /** `b` is the head at which the current task frame was entered (0 outside frames). */
  ghost predicate DequeInv(q: Deque, pc: Pc, b: nat) {
    && Sized(q, pc, b)
    && SlotsOk(q, LiveHead(pc))
    && ClaimsOk(q, LiveHead(pc))
    && Shape(q, pc, b)
  }

  // A slot that a thief has claimed and not finished.
  predicate Held(q: Deque, H: nat, i: nat) {
    i < H && i < |q.slots| && q.slots[i].claim.Stolen? && q.slots[i].thief != Completed
  }

  // ------------------------------------------------------------- owner lemmas

  lemma SpawnWriteKeeps(q: Deque, h: nat, task: int, b: nat)
    requires DequeInv(q, Idle(h), b) && h < |q.slots|
    ensures var (q', pc') := SpawnWrite(q, h, task); DequeInv(q', pc', b)
  {
    SpawnWriteShape(q, h, task, b);
    SpawnWriteClaims(q, h, task);
    hide Shape, ClaimsOk;
  }

  lemma SpawnWriteShape(q: Deque, h: nat, task: int, b: nat)
    requires h < |q.slots| && Shape(q, Idle(h), b)
    ensures Shape(SpawnWrite(q, h, task).0, SpawnCheck(h), b)
  {
    var q' := SpawnWrite(q, h, task).0;
    assert forall i :: 0 <= i < h ==> q'.slots[i] == q.slots[i];
  }

  lemma SpawnWriteClaims(q: Deque, h: nat, task: int)
    requires h < |q.slots| && ClaimsOk(q, h)
    ensures ClaimsOk(SpawnWrite(q, h, task).0, h + 1)
  {
    var q' := SpawnWrite(q, h, task).0;
    assert q'.slots[h].id == q.next;
    forall id: nat | id < q'.next && !Live(q', h + 1, id) ensures q'.claims[id] == 1 {
      forall i | 0 <= i < h ensures q.slots[i].id != id {
        assert q'.slots[i] == q.slots[i];
      }
    }
  }

  lemma SyncBeginKeeps(q: Deque, h: nat, b: nat)
    requires DequeInv(q, Idle(h), b) && b < h
    ensures DequeInv(q, SyncBegin(q, h), b)
    ensures LiveHead(SyncBegin(q, h)) == h
  {
  }

  predicate InSpawn(pc: Pc) {
    pc.SpawnCheck? || pc.SpawnClear? || pc.SpawnPublish? || pc.SpawnUnflag? || pc.SpawnPrivate?
    || pc.SpawnGrow? || pc.SpawnGrown?
  }

  predicate InShrink(pc: Pc) {
    pc.ShrinkRead? || pc.ShrinkStore? || pc.ShrinkReread? || pc.ShrinkRestore? || pc.ShrinkSet?
    || pc.ShrinkLost? || pc.ShrinkLostPrivate?
  }

  lemma SpawnShape(q: Deque, pc: Pc, b: nat)
    requires InSpawn(pc) && Sized(q, pc, b) && Shape(q, pc, b)
    ensures LiveHead(Advance(q, pc).1) == LiveHead(pc)
    ensures Shape(Advance(q, pc).0, Advance(q, pc).1, b)
  {
  }

  lemma CutShape(q: Deque, pc: Pc, b: nat)
    requires pc.ShrinkRead? || pc.ShrinkStore? || pc.ShrinkReread?
    requires Sized(q, pc, b) && Shape(q, pc, b)
    ensures LiveHead(Advance(q, pc).1) == LiveHead(pc)
    ensures Shape(Advance(q, pc).0, Advance(q, pc).1, b)
  {
  }

  lemma ShrinkShape(q: Deque, pc: Pc, b: nat)
    requires InShrink(pc) && Sized(q, pc, b) && Shape(q, pc, b)
    ensures LiveHead(Advance(q, pc).1) == LiveHead(pc)
    ensures Shape(Advance(q, pc).0, Advance(q, pc).1, b)
  {
    if pc.ShrinkRead? || pc.ShrinkStore? || pc.ShrinkReread? {
      CutShape(q, pc, b);
    }
  }

  predicate InLeap(pc: Pc) {
    pc.LeapPost? || pc.LeapPostPublic? || pc.LeapPostPrivate?
  }

  lemma SlowShape(q: Deque, pc: Pc, b: nat)
    requires Stepping(pc) && !InSpawn(pc) && !InShrink(pc) && !InLeap(pc)
    requires Sized(q, pc, b) && Shape(q, pc, b)
    ensures LiveHead(Advance(q, pc).1) == LiveHead(pc)
    ensures Shape(Advance(q, pc).0, Advance(q, pc).1, b)
  {
  }

  lemma LeapShape(q: Deque, pc: Pc, b: nat)
    requires InLeap(pc)
    requires Sized(q, pc, b) && SlotsOk(q, LiveHead(pc)) && Shape(q, pc, b)
    ensures LiveHead(Advance(q, pc).1) == LiveHead(pc)
    ensures Shape(Advance(q, pc).0, Advance(q, pc).1, b)
  {
  }

  /** Every owner step keeps the invariant, the live head and every slot. */
  lemma AdvanceKeeps(q: Deque, pc: Pc, b: nat)
    requires Stepping(pc) && DequeInv(q, pc, b)
    ensures DequeInv(Advance(q, pc).0, Advance(q, pc).1, b)
    ensures LiveHead(Advance(q, pc).1) == LiveHead(pc)
    ensures Advance(q, pc).0.slots == q.slots
    ensures Advance(q, pc).0.claims == q.claims && Advance(q, pc).0.next == q.next
  {
    if InSpawn(pc) {
      SpawnShape(q, pc, b);
    } else if InShrink(pc) {
      ShrinkShape(q, pc, b);
    } else if InLeap(pc) {
      LeapShape(q, pc, b);
    } else {
      SlowShape(q, pc, b);
    }
    AdvanceFrame(q, pc);
    SameSlots(q, Advance(q, pc).0, LiveHead(pc));
  }

  lemma AdvanceFrame(q: Deque, pc: Pc)
    requires Stepping(pc)
    ensures Advance(q, pc).0.slots == q.slots
    ensures Advance(q, pc).0.claims == q.claims && Advance(q, pc).0.next == q.next
  {
  }

  lemma SameSlots(q: Deque, q': Deque, H: nat)
    requires q.slots == q'.slots && q.claims == q'.claims && q.next == q'.next
    requires H <= |q.slots| && SlotsOk(q, H) && ClaimsOk(q, H)
    ensures SlotsOk(q', H) && ClaimsOk(q', H)
  {
    forall id: nat | id < q'.next && !Live(q', H, id) ensures q'.claims[id] == 1 {
      assert !Live(q, H, id);
    }
  }

  /** The popped task was never shared, so the owner is the only one to claim it. */
  lemma PopKeeps(q: Deque, d: nat, b: nat)
    requires DequeInv(q, SyncPop(d), b)
    ensures q.slots[d].claim.Unclaimed? && q.slots[d].data == Args(q.slots[d].task)
    ensures DequeInv(Pop(q, d), Idle(d), b)
  {
    var q' := Pop(q, d);
    assert ClaimsOk(q', d) by {
      forall id: nat | id < q'.next && !Live(q', d, id) ensures q'.claims[id] == 1 {
        DeadAfterPop(q, q', d, id);
      }
    }
    assert Open(q', b, d);
  }

  lemma DeadAfterPop(q: Deque, q': Deque, d: nat, id: nat)
    requires d < |q.slots| == |q'.slots|
    requires forall i :: 0 <= i < d ==> q'.slots[i] == q.slots[i]
    requires !Live(q', d, id)
    ensures id == q.slots[d].id || !Live(q, d + 1, id)
  {
    if id != q.slots[d].id {
      forall i | 0 <= i < d + 1 ensures q.slots[i].id != id {
        assert i < d ==> q'.slots[i] == q.slots[i];
      }
    }
  }

  lemma ReleaseKeeps(q: Deque, d: nat, b: nat)
    requires DequeInv(q, LeapEnd(d), b)
    ensures DequeInv(Release(q, d), Idle(d), b)
  {
    var q' := Release(q, d);
    forall id: nat | id < q'.next && !Live(q', d, id) ensures q'.claims[id] == 1 {
      DeadAfterPop(q, q', d, id);
    }
  }

  /** While leapfrogging on slot d the head is d + 1 and every slot below it is claimed. */
  lemma LeapReadKeeps(q: Deque, d: nat, b: nat)
    requires DequeInv(q, LeapRead(d), b)
    ensures q.slots[d].claim.Stolen?
    ensures DequeInv(q, Idle(d + 1), b)
  {
  }

  lemma LeapReadDone(q: Deque, d: nat, b: nat)
    requires DequeInv(q, LeapRead(d), b) && q.slots[d].thief == Completed
    ensures DequeInv(q, LeapEnd(d), b)
  {
  }

  /** The assumption noted in lace_leapfrog: if not allstolen, then tail = split = head. */
  lemma LeapDoneKeeps(q: Deque, d: nat, b: nat)
    requires DequeInv(q, Idle(d + 1), b) && b <= d
    requires q.slots[d].thief == Completed
    ensures DequeInv(q, LeapPost(d), b)
    ensures !q.pallstolen ==> q.tail == q.split == q.psplit == d + 1
  {
  }

  lemma ShareAllKeeps(q: Deque, h: nat, b: nat)
    requires DequeInv(q, Idle(h), b)
    ensures DequeInv(ShareAll(q, h), Idle(h), b)
    ensures ShareAll(q, h).psplit == h && (!q.pallstolen ==> ShareAll(q, h).split == h)
  {
    SameSlots(q, ShareAll(q, h), h);
  }

  // ------------------------------------------------------------- thief lemmas

  /** Whenever a compare-and-swap can succeed, however old the word it expects is,
      the slot at the tail holds an unclaimed task. */
  lemma StealableSlot(q: Deque, pc: Pc, b: nat)
    requires DequeInv(q, pc, b) && q.tail < q.split
    ensures b <= q.tail < LiveHead(pc)
    ensures q.slots[q.tail].claim.Unclaimed?
    ensures U32(q.tail + 1) == q.tail + 1
  {
  }

  lemma TakeKeeps(q: Deque, pc: Pc, b: nat, worker: nat, depth: nat)
    requires DequeInv(q, pc, b) && q.tail < q.split
    ensures q.tail < LiveHead(pc)
    ensures DequeInv(Take(q, worker, depth), pc, b)
  {
    StealableSlot(q, pc, b);
    TakeShape(q, pc, b, worker, depth);
    TakeClaims(q, LiveHead(pc), worker, depth);
  }

  lemma TakeShape(q: Deque, pc: Pc, b: nat, worker: nat, depth: nat)
    requires DequeInv(q, pc, b) && q.tail < q.split
    requires b <= q.tail < LiveHead(pc) && q.slots[q.tail].claim.Unclaimed?
    ensures Shape(Take(q, worker, depth), pc, b)
  {
  }

  lemma TakeClaims(q: Deque, H: nat, worker: nat, depth: nat)
    requires H <= |q.slots| && SlotsOk(q, H) && ClaimsOk(q, H)
    requires q.tail < H && q.slots[q.tail].claim.Unclaimed?
    ensures var q' := Take(q, worker, depth); SlotsOk(q', H) && ClaimsOk(q', H)
  {
    var q' := Take(q, worker, depth);
    forall id: nat | id < q'.next && !Live(q', H, id) ensures q'.claims[id] == 1 {
      assert q'.slots[q.tail].id == q.slots[q.tail].id;
      assert !Live(q, H, id) by {
        forall i | 0 <= i < H ensures q.slots[i].id != id {
          assert q'.slots[i].id == q.slots[i].id;
        }
      }
    }
  }

  lemma SetThiefKeeps(q: Deque, pc: Pc, b: nat, i: nat, thief: Thief)
    requires DequeInv(q, pc, b) && Held(q, LiveHead(pc), i) && thief != Empty
    ensures DequeInv(SetThief(q, i, thief), pc, b)
  {
    HeldUpdate(q, SetThief(q, i, thief), pc, b, i);
  }

  lemma SetResultKeeps(q: Deque, pc: Pc, b: nat, i: nat, v: int)
    requires DequeInv(q, pc, b) && Held(q, LiveHead(pc), i)
    ensures DequeInv(SetResult(q, i, v), pc, b)
  {
    HeldUpdate(q, SetResult(q, i, v), pc, b, i);
  }

  ghost predicate SameButSlot(q: Deque, q': Deque, i: nat) {
    && i < |q.slots| == |q'.slots|
    && q' == q.(slots := q.slots[i := q'.slots[i]])
    && q'.slots[i].id == q.slots[i].id && q'.slots[i].claim == q.slots[i].claim
  }

  lemma HeldUpdate(q: Deque, q': Deque, pc: Pc, b: nat, i: nat)
    requires DequeInv(q, pc, b) && Held(q, LiveHead(pc), i)
    requires SameButSlot(q, q', i) && q'.slots[i].thief != Empty
    ensures DequeInv(q', pc, b)
  {
    HeldClaims(q, q', LiveHead(pc), i);
    HeldShape(q, q', pc, b, i);
  }

  lemma HeldClaims(q: Deque, q': Deque, H: nat, i: nat)
    requires H <= |q.slots| && ClaimsOk(q, H) && SameButSlot(q, q', i)
    ensures ClaimsOk(q', H)
  {
    forall id: nat | id < q'.next && !Live(q', H, id) ensures q'.claims[id] == 1 {
      forall j | 0 <= j < H ensures q.slots[j].id != id {
        assert q'.slots[j].id == q.slots[j].id;
      }
    }
  }

  lemma HeldShape(q: Deque, q': Deque, pc: Pc, b: nat, i: nat)
    requires LiveHead(pc) <= |q.slots| && Shape(q, pc, b)
    requires SameButSlot(q, q', i) && q.slots[i].thief != Completed
    ensures Shape(q', pc, b)
  {
    var H := LiveHead(pc);
    ClaimsSame(q, q', b, H, i);
    if H > 0 {
      ClaimsSame(q, q', b, H - 1, i);
    }
  }

  lemma ClaimsSame(q: Deque, q': Deque, b: nat, H: nat, i: nat)
    requires H <= |q.slots| && SameButSlot(q, q', i)
    ensures ClaimedToTail(q', b, H) == ClaimedToTail(q, b, H)
    ensures AllClaimed(q', b, H) == AllClaimed(q, b, H)
    ensures Open(q', b, H) == Open(q, b, H)
    ensures Closed(q', b, H) == Closed(q, b, H)
  {
    assert forall j :: 0 <= j < H ==> q'.slots[j].claim == q.slots[j].claim;
    assert AllClaimed(q', b, H) ==> AllClaimed(q, b, H);
  }

  lemma RequestShape(q: Deque, pc: Pc, b: nat)
    requires LiveHead(pc) <= |q.slots| && Shape(q, pc, b)
    ensures Shape(RequestSplit(q), pc, b)
  {
    hide ClaimedToTail, AllClaimed;
    RequestSame(q, b, LiveHead(pc));
    if pc.SpawnCheck? || pc.SpawnClear? || pc.SpawnPublish? {
      RequestSame(q, b, pc.h);
    }
  }

  lemma RequestSame(q: Deque, b: nat, H: nat)
    requires H <= |q.slots|
    ensures ClaimedToTail(RequestSplit(q), b, H) == ClaimedToTail(q, b, H)
    ensures AllClaimed(RequestSplit(q), b, H) == AllClaimed(q, b, H)
  {
  }

  lemma RequestSplitKeeps(q: Deque, pc: Pc, b: nat)
    requires DequeInv(q, pc, b)
    ensures DequeInv(RequestSplit(q), pc, b)
  {
    hide SlotsOk, ClaimsOk, Shape;
    SameSlots(q, RequestSplit(q), LiveHead(pc));
    RequestShape(q, pc, b);
  }
}
