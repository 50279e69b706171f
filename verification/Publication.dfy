/**
 Publishing frames: lace_wrap_newframe, lace_wrap_together, lace_yield and the three
 barriers around a frame (src/lace.c), for any number of workers and any nesting of
 NEWFRAME and TOGETHER that starts from the single root task of frame 0.

 The compare-and-swap that publishes is strong. The barrier is used through what module
 Barrier proves of it: a worker leaves round k only after every worker has entered it.
 A task returns only after the tasks it spawned have returned, so a frame's root cannot
 finish while a worker still helps with it. No external task arrives inside a frame.
 */
module Publication {
  import opened Helpers
  import opened WorkerSets

  /** What a worker does when the frame it is in is over: go on, or try again to publish
      its own frame (a TOGETHER if `value` is true). */
  type Cont = Option<bool>

  datatype Pc =
    | Work                                    // in the body of its innermost frame
    | Publishing(together: bool)              // about to swap lace_newframe.t
    | Failed(together: bool)                  // the swap failed: about to copy the frame
    | Seen                                    // YIELD_NEWFRAME saw a frame: about to copy it
    | Ready1(f: nat, lead: bool, cont: Cont)  // copied or published: about to enter barrier 1
    | At1(f: nat, lead: bool, cont: Cont)
    | Reset(f: nat)                           // the publisher: about to store NULL
    | Install(f: nat, cont: Cont)             // about to save the old frame
    | Ready2(f: nat, cont: Cont)
    | At2(f: nat, cont: Cont)
    | At3(f: nat)
    | Restore(f: nat, cont: Cont)             // about to restore the old frame

  /** A round of the barrier: which of the three barriers of which frame it is. */
  datatype Label = Label(phase: nat, f: nat)

  /** `frames` are the frames the worker is in, `conts` what to do after each of them;
      `entered` and `left` count barrier rounds; `started` the bodies it has begun. */
  datatype Worker = Worker(
    pc: Pc, frames: seq<nat>, conts: seq<Cont>, entered: nat, left: nat,
    installed: set<nat>, started: multiset<nat>)

  /** A worker helps with a stolen task of root `root` in frame `f`. */
  datatype Help = Help(f: nat, helper: nat, root: nat)

  /** `t` is lace_newframe.t. History: frame numbers, the workers whose root task of a
      frame is not finished, stolen tasks being executed, and the label of each round
      that some worker has entered. */
  datatype State = State(
    t: Option<nat>, workers: seq<Worker>,
    next: nat, roots: map<nat, set<nat>>, helps: set<Help>, leader: nat, rounds: seq<Label>)

  function Init(n: nat): State {
    State(None, seq(n, _ => Worker(Work, [0], [None], 0, 0, {}, multiset{})),
          1, map[0 := {0}], {}, 0, [])
  }

  datatype Action =
    | StartHelp(root: nat) | StopHelp(root: nat) | FinishRoot
    | WantFrame(together: bool) | See | EndBody | Step

  function Top(w: Worker): nat {
    if w.frames == [] then 0 else w.frames[|w.frames| - 1]
  }

  /** The worker runs code of the frame that may publish. */
  ghost predicate Busy(roots: map<nat, set<nat>>, helps: set<Help>, i: nat, f: nat) {
    (f in roots && i in roots[f]) || exists h :: h in helps && h.f == f && h.helper == i
  }

  /** Everyone has entered the round that worker i is in. */
  ghost predicate Released(s: State, i: nat)
    requires i < |s.workers|
  {
    forall j :: 0 <= j < |s.workers| ==> s.workers[i].left < s.workers[j].entered
  }

  ghost predicate Can(s: State, i: nat, a: Action) {
    && i < |s.workers|
    && var w := s.workers[i];
       match a
       case StartHelp(r) => w.pc == Work && Top(w) in s.roots && r in s.roots[Top(w)]
       case StopHelp(r) => w.pc == Work
       case FinishRoot =>
         && w.pc == Work && Top(w) in s.roots && i in s.roots[Top(w)]
         && forall h :: h in s.helps && h.f == Top(w) ==> h.root != i
       case WantFrame(_) => w.pc == Work && Busy(s.roots, s.helps, i, Top(w))
       case See => w.pc == Work && s.t.Some?
       case EndBody => w.pc == Work && |w.frames| > 1 && Top(w) in s.roots && s.roots[Top(w)] == {}
       case Step =>
         !w.pc.Work? && (w.pc.At1? || w.pc.At2? || w.pc.At3? ==> Released(s, i))
  }

  function SetWorker(s: State, i: nat, w: Worker): State
    requires i < |s.workers|
  {
    s.(workers := s.workers[i := w])
  }

  /** Entering the next barrier round; the first worker to enter it gives it its label. */
  function EnterRound(s: State, i: nat, pc: Pc, l: Label): State
    requires i < |s.workers|
  {
    var w := s.workers[i];
    SetWorker(s, i, w.(pc := pc, entered := w.entered + 1))
      .(rounds := if w.entered == |s.rounds| then s.rounds + [l] else s.rounds)
  }

  function StepOf(s: State, i: nat): State
    requires i < |s.workers| && !s.workers[i].pc.Work?
  {
    var w := s.workers[i];
    match w.pc
    case Publishing(tg) =>
      if s.t.Some? then SetWorker(s, i, w.(pc := Failed(tg)))
      else SetWorker(s, i, w.(pc := Ready1(s.next, true, None)))
             .(t := Some(s.next), next := s.next + 1, leader := i,
               roots := s.roots[s.next := if tg then Everyone(|s.workers|) else {i}])
    case Failed(tg) => SetWorker(s, i, w.(pc := Ready1(if s.t.Some? then s.t.value else 0, false, Some(tg))))
    case Seen => SetWorker(s, i, w.(pc := Ready1(if s.t.Some? then s.t.value else 0, false, None)))
    case Ready1(f, lead, cont) => EnterRound(s, i, At1(f, lead, cont), Label(1, f))
    case Reset(f) => SetWorker(s, i, w.(pc := Install(f, None))).(t := None)
    case Install(f, cont) => SetWorker(s, i, w.(pc := Ready2(f, cont), installed := w.installed + {f}))
    case Ready2(f, cont) => EnterRound(s, i, At2(f, cont), Label(2, f))
    case Restore(f, cont) => SetWorker(s, i, w.(pc := if cont.Some? then Publishing(cont.value) else Work))
    case At1(_, _, _) => SetWorker(s, i, Leave(w))
    case At2(_, _) => SetWorker(s, i, Leave(w))
    case At3(_) => SetWorker(s, i, Leave(w))
  }

  /** Leaving the barrier round the worker is in. */
  function Leave(w: Worker): Worker
    requires Inside(w.pc)
  {
    match w.pc
    case At1(f, lead, cont) => w.(pc := if lead then Reset(f) else Install(f, cont), left := w.left + 1)
    case At2(f, cont) =>
      w.(pc := Work, left := w.left + 1, frames := w.frames + [f], conts := w.conts + [cont],
         started := w.started + multiset{f})
    case At3(f) =>
      var c := if w.conts == [] then None else w.conts[|w.conts| - 1];
      w.(pc := Restore(f, c), left := w.left + 1, frames := Front(w.frames), conts := Front(w.conts))
  }

  ghost function Do(s: State, i: nat, a: Action): State
    requires Can(s, i, a)
  {
    var w := s.workers[i];
    match a
    case StartHelp(r) => s.(helps := s.helps + {Help(Top(w), i, r)})
    case StopHelp(r) => s.(helps := s.helps - {Help(Top(w), i, r)})
    case FinishRoot => s.(roots := s.roots[Top(w) := s.roots[Top(w)] - {i}])
    case WantFrame(tg) => SetWorker(s, i, w.(pc := Publishing(tg)))
    case See => SetWorker(s, i, w.(pc := Seen))
    case EndBody => EnterRound(s, i, At3(Top(w)), Label(3, Top(w)))
    case Step => StepOf(s, i)
  }

  // ---------------------------------------------------------------- invariant

  /** The frames a worker is in after leaving the given rounds. */
  function Open(r: seq<Label>): seq<nat> {
    if r == [] then [0]
    else
      var l := r[|r| - 1];
      var before := Open(r[..|r| - 1]);
      if l.phase == 2 then before + [l.f] else if l.phase == 3 then Front(before) else before
  }

  /** The bodies a worker has begun after leaving the given rounds. */
  function Bodies(r: seq<Label>): multiset<nat> {
    if r == [] then multiset{}
    else
      var l := r[|r| - 1];
      Bodies(r[..|r| - 1]) + (if l.phase == 2 then multiset{l.f} else multiset{})
  }

  predicate Inside(pc: Pc) {
    pc.At1? || pc.At2? || pc.At3?
  }

  /** Between barrier 1 and the body of the same frame. */
  predicate Opening(pc: Pc) {
    pc.Reset? || pc.Install? || pc.Ready2? || pc.At2?
  }

  predicate Lead(pc: Pc) {
    (pc.Ready1? && pc.lead) || (pc.At1? && pc.lead) || pc.Reset?
  }

  predicate WantsRetry(pc: Pc) {
    match pc
    case Ready1(_, _, c) => c.Some?
    case At1(_, _, c) => c.Some?
    case Install(_, c) => c.Some?
    case Ready2(_, c) => c.Some?
    case At2(_, c) => c.Some?
    case Restore(_, c) => c.Some?
    case _ => false
  }

  /** The innermost frame that is open after the given rounds is f. */
  predicate Closes(r: seq<Label>, f: nat) {
    |Open(r)| > 1 && Open(r)[|Open(r)| - 1] == f
  }

  /** Labels come in the order of barriers 1, 2 and 3, and no frame is opened twice. */
  ghost predicate RoundsOk(r: seq<Label>, next: nat) {
    && (forall k :: 0 <= k < |r| ==> 0 < r[k].f < next && 1 <= r[k].phase <= 3)
    && Ordered(r) && Distinct(r) && Nested(r)
  }

  ghost predicate Nested(r: seq<Label>) {
    forall k :: 0 <= k < |r| && r[k].phase == 3 ==> Closes(r[..k], r[k].f)
  }

  ghost predicate Ordered(r: seq<Label>) {
    && (forall k :: 0 <= k < |r| && r[k].phase == 2 ==> k > 0 && r[k - 1] == Label(1, r[k].f))
    && (forall k :: 0 <= k < |r| - 1 && r[k].phase == 1 ==> r[k + 1] == Label(2, r[k].f))
  }

  ghost predicate Distinct(r: seq<Label>) {
    forall j, k :: 0 <= j < k < |r| && r[j].phase == r[k].phase && r[j].phase < 3 ==> r[j].f != r[k].f
  }

  /** Where a worker is in the sequence of rounds. */
  ghost predicate Placed(w: Worker, r: seq<Label>) {
    && w.entered == w.left + (if Inside(w.pc) then 1 else 0)
    && w.entered <= |r| <= w.entered + 1
    && w.frames != [] && |w.frames| == |w.conts|
    && w.frames == Open(r[..w.left]) && w.started == Bodies(r[..w.left])
    && (Opening(w.pc) ==> w.left > 0 && r[w.left - 1] == Label(1, w.pc.f))
    && (!Opening(w.pc) && w.left > 0 ==> r[w.left - 1].phase != 1)
    && (w.pc.Restore? ==> w.left > 0 && r[w.left - 1] == Label(3, w.pc.f))
    && (w.pc.At1? ==> r[w.left] == Label(1, w.pc.f))
    && (w.pc.At2? ==> r[w.left] == Label(2, w.pc.f))
    && (w.pc.At3? ==> r[w.left] == Label(3, w.pc.f) && Top(w) == w.pc.f && |w.frames| > 1)
    && (forall k :: 0 <= k < w.entered && r[k].phase == 2 ==> r[k].f in w.installed)
    && (w.pc.Ready2? ==> w.pc.f in w.installed)
  }

  /** A worker that has not entered the newest round will enter it. */
  ghost predicate WillFollow(w: Worker, r: seq<Label>, t: Option<nat>, roots: map<nat, set<nat>>) {
    w.entered < |r| ==>
      var l := r[w.entered];
      && (l.phase == 1 ==> t == Some(l.f))
      && (l.phase == 3 ==> t == None && l.f in roots && roots[l.f] == {})
  }

  ghost predicate Behaves(w: Worker, i: nat, t: Option<nat>, leader: nat, next: nat,
                          roots: map<nat, set<nat>>, helps: set<Help>)
  {
    && (w.pc.Ready1? ==> t == Some(w.pc.f))
    && (w.pc.Seen? || w.pc.Failed? ==> t.Some?)
    && (Lead(w.pc) ==> t == Some(w.pc.f) && leader == i && !WantsRetry(w.pc))
    && (Lead(w.pc) || w.pc.Publishing? || w.pc.Failed? || WantsRetry(w.pc) ==> Busy(roots, helps, i, Top(w)))
    && (forall k :: 0 < k < |w.conts| && k < |w.frames| && w.conts[k].Some? ==> Busy(roots, helps, i, w.frames[k - 1]))
    && (forall k :: 0 <= k < |w.frames| ==> w.frames[k] < next)
  }

  ghost predicate Good(s: State, w: Worker, i: nat) {
    && Placed(w, s.rounds)
    && WillFollow(w, s.rounds, s.t, s.roots)
    && Behaves(w, i, s.t, s.leader, s.next, s.roots, s.helps)
  }

  /** Where the published frame's leader is. */
  ghost predicate LeaderOk(w: Worker, g: nat, r: seq<Label>) {
    var K := |r|;
    && Lead(w.pc) && w.pc.f == g
    && (|| (w.pc.Ready1? && w.left == K && forall k :: 0 <= k < K ==> r[k].f != g)
        || (K > 0 && r[K - 1] == Label(1, g))
        || (K > 0 && r[K - 1] == Label(2, g)
            && ((w.pc.Reset? && w.left == K - 1) || (w.pc.At1? && w.left == K - 2))))
  }

  ghost predicate Published(t: Option<nat>, leader: nat, next: nat, workers: seq<Worker>, r: seq<Label>) {
    t.Some? ==> 0 < t.value < next && leader < |workers| && LeaderOk(workers[leader], t.value, r)
  }

  ghost predicate RootsOk(roots: map<nat, set<nat>>, helps: set<Help>, next: nat) {
    && next > 0 && (forall f :: f in roots <==> 0 <= f < next)
    && (forall h :: h in helps ==> h.f in roots && h.root in roots[h.f])
  }

  /** No worker has left a round that another has not entered. */
  ghost predicate Together(workers: seq<Worker>) {
    forall i, j :: 0 <= i < |workers| && 0 <= j < |workers| ==> workers[i].left <= workers[j].entered
  }

  ghost predicate Inv(s: State) {
    && RoundsOk(s.rounds, s.next) && RootsOk(s.roots, s.helps, s.next) && Together(s.workers)
    && Published(s.t, s.leader, s.next, s.workers, s.rounds)
    && (forall i :: 0 <= i < |s.workers| ==> Good(s, s.workers[i], i))
  }

  lemma InitInv(n: nat)
    ensures Inv(Init(n))
  {
    forall i | 0 <= i < n ensures Good(Init(n), Init(n).workers[i], i) {
    }
  }

  lemma BusyRoots(s: State, i: nat, f: nat)
    requires RootsOk(s.roots, s.helps, s.next) && Busy(s.roots, s.helps, i, f)
    ensures f in s.roots && s.roots[f] != {}
  {
  }

  // -------------------------------------------- steps that leave the rounds alone

  /** Only worker i's program point changes. */
  lemma PcInv(s: State, i: nat, w: Worker)
    requires Inv(s) && i < |s.workers|
    requires w.left == s.workers[i].left && w.entered == s.workers[i].entered
    requires Good(s, w, i) && !Lead(s.workers[i].pc)
    ensures Inv(SetWorker(s, i, w))
  {
    hide Placed, WillFollow, Behaves, RoundsOk, RootsOk;
    var s' := SetWorker(s, i, w);
    forall j | 0 <= j < |s'.workers| ensures Good(s', s'.workers[j], j) {
      assert Good(s, s.workers[j], j);
    }
  }

  lemma PcPlaced(w: Worker, pc: Pc, r: seq<Label>)
    requires Placed(w, r) && !Inside(w.pc) && !Opening(w.pc)
    requires !Inside(pc) && !Opening(pc) && !pc.Restore?
    ensures Placed(w.(pc := pc), r)
  {
  }

  /** What a program point that does not lead asks of the shared state. */
  ghost predicate Fits(w: Worker, pc: Pc, i: nat, t: Option<nat>, roots: map<nat, set<nat>>, helps: set<Help>) {
    && !Lead(pc) && (pc.Ready1? ==> t == Some(pc.f)) && (pc.Seen? || pc.Failed? ==> t.Some?)
    && (pc.Publishing? || pc.Failed? || WantsRetry(pc) ==> Busy(roots, helps, i, Top(w)))
  }

  lemma PcBehaves(w: Worker, pc: Pc, i: nat, s: State)
    requires Behaves(w, i, s.t, s.leader, s.next, s.roots, s.helps) && Fits(w, pc, i, s.t, s.roots, s.helps)
    ensures Behaves(w.(pc := pc), i, s.t, s.leader, s.next, s.roots, s.helps)
  {
    hide Lead, WantsRetry, Busy;
  }

  lemma SetPcInv(s: State, i: nat, pc: Pc)
    requires Inv(s) && i < |s.workers|
    requires var p := s.workers[i].pc; !Inside(p) && !Opening(p) && !Lead(p)
    requires !Inside(pc) && !Opening(pc) && !pc.Restore? && Fits(s.workers[i], pc, i, s.t, s.roots, s.helps)
    ensures Inv(SetWorker(s, i, s.workers[i].(pc := pc)))
  {
    hide Placed, Behaves, RoundsOk, RootsOk, Together, Published, Fits, Lead, Inside, Opening;
    var w := s.workers[i];
    assert Good(s, w, i);
    PcPlaced(w, pc, s.rounds);
    PcBehaves(w, pc, i, s);
    PcInv(s, i, w.(pc := pc));
  }

  lemma BehavesOf(s: State, i: nat)
    requires Inv(s) && i < |s.workers|
    ensures Placed(s.workers[i], s.rounds) && WillFollow(s.workers[i], s.rounds, s.t, s.roots)
    ensures Behaves(s.workers[i], i, s.t, s.leader, s.next, s.roots, s.helps)
  {
    hide Placed, WillFollow, Behaves, RoundsOk, RootsOk, Together, Published;
    assert Good(s, s.workers[i], i);
  }

  lemma TogetherOf(s: State, i: nat, j: nat)
    requires Inv(s) && i < |s.workers| && j < |s.workers|
    ensures s.workers[i].left <= s.workers[j].entered
  {
    hide Good, RoundsOk, RootsOk, Published;
  }

  lemma LeaderOf(s: State)
    requires Inv(s) && s.t.Some?
    ensures 0 < s.t.value < s.next && s.leader < |s.workers| && LeaderOk(s.workers[s.leader], s.t.value, s.rounds)
  {
    hide Good, RoundsOk, RootsOk, LeaderOk;
  }

  lemma RoundsOf(s: State)
    requires Inv(s)
    ensures RoundsOk(s.rounds, s.next) && RootsOk(s.roots, s.helps, s.next)
  {
    hide Good, RoundsOk, RootsOk, LeaderOk;
  }

  lemma FailInv(s: State, i: nat)
    requires Inv(s) && i < |s.workers| && s.workers[i].pc.Publishing? && s.t.Some?
    ensures Inv(StepOf(s, i))
  {
    hide Inv, Placed, WillFollow;
    BehavesOf(s, i);
    SetPcInv(s, i, Failed(s.workers[i].pc.together));
  }

  /** A worker that is about to copy the frame finds one, and it is the published one. */
  lemma CopyInv(s: State, i: nat)
    requires Inv(s) && i < |s.workers| && (s.workers[i].pc.Failed? || s.workers[i].pc.Seen?)
    ensures Inv(StepOf(s, i))
  {
    hide Inv, Placed, WillFollow;
    BehavesOf(s, i);
    var pc := s.workers[i].pc;
    SetPcInv(s, i, Ready1(s.t.value, false, if pc.Failed? then Some(pc.together) else None));
  }

  lemma RestoreInv(s: State, i: nat)
    requires Inv(s) && i < |s.workers| && s.workers[i].pc.Restore?
    ensures Inv(StepOf(s, i))
  {
    hide Inv, Placed, WillFollow;
    BehavesOf(s, i);
    var c := s.workers[i].pc.cont;
    SetPcInv(s, i, if c.Some? then Publishing(c.value) else Work);
  }

  lemma WantInv(s: State, i: nat, pc: Pc)
    requires Inv(s) && i < |s.workers| && s.workers[i].pc == Work
    requires (pc.Publishing? && Busy(s.roots, s.helps, i, Top(s.workers[i]))) || (pc.Seen? && s.t.Some?)
    ensures Inv(SetWorker(s, i, s.workers[i].(pc := pc)))
  {
    hide Inv, Placed, WillFollow, Busy;
    SetPcInv(s, i, pc);
  }

  lemma InstallGood(s: State, w: Worker, i: nat)
    requires Good(s, w, i) && w.pc.Install?
    ensures Good(s, w.(pc := Ready2(w.pc.f, w.pc.cont), installed := w.installed + {w.pc.f}), i)
  {
    hide Busy, Open, Bodies;
  }

  lemma InstallInv(s: State, i: nat)
    requires Inv(s) && i < |s.workers| && s.workers[i].pc.Install?
    ensures Inv(StepOf(s, i))
  {
    hide Placed, WillFollow, Behaves, RoundsOk, RootsOk, Together, Published;
    var w := s.workers[i];
    assert Good(s, w, i);
    InstallGood(s, w, i);
    PcInv(s, i, w.(pc := Ready2(w.pc.f, w.pc.cont), installed := w.installed + {w.pc.f}));
  }

  // ------------------------------------------------------- roots and helpers

  /** No frame is open twice. */
  lemma {:induction false} OpenDistinct(r: seq<Label>)
    requires forall k :: 0 <= k < |r| && r[k].phase == 2 ==> r[k].f > 0
    requires forall j, k :: 0 <= j < k < |r| && r[j].phase == 2 && r[k].phase == 2 ==> r[j].f != r[k].f
    ensures forall a, b :: 0 <= a < b < |Open(r)| ==> Open(r)[a] != Open(r)[b]
    ensures forall a :: 0 <= a < |Open(r)| ==>
              Open(r)[a] == 0 || exists k :: 0 <= k < |r| && r[k] == Label(2, Open(r)[a])
  {
    if r != [] {
      var m := |r| - 1;
      var before := r[..m];
      OpenDistinct(before);
      forall a | 0 <= a < |Open(r)|
        ensures Open(r)[a] == 0 || exists k :: 0 <= k < |r| && r[k] == Label(2, Open(r)[a])
      {
        if a < |Open(before)| && Open(before)[a] != 0 {
          var k :| 0 <= k < |before| && before[k] == Label(2, Open(before)[a]);
          assert r[k] == before[k];
        } else if a >= |Open(before)| {
          assert r[m] == Label(2, Open(r)[a]);
        }
      }
    }
  }

  lemma FramesDistinct(s: State, i: nat, k: nat)
    requires Inv(s) && i < |s.workers| && k < |s.workers[i].frames| - 1
    ensures s.workers[i].frames[k] != Top(s.workers[i])
  {
    var w := s.workers[i];
    assert Good(s, w, i);
    OpenDistinct(s.rounds[..w.left]);
  }

  lemma RootsInv(s: State, s': State, i: nat)
    requires Inv(s) && i < |s.workers| && s.workers[i].pc == Work
    requires s' == s.(roots := s'.roots, helps := s'.helps) && RootsOk(s'.roots, s'.helps, s.next)
    requires forall j, f :: Busy(s.roots, s.helps, j, f) && (j != i || f != Top(s.workers[i])) ==> Busy(s'.roots, s'.helps, j, f)
    requires forall f :: f in s.roots && s.roots[f] == {} ==> f in s'.roots && s'.roots[f] == {}
    ensures Inv(s')
  {
    forall j | 0 <= j < |s'.workers| ensures Good(s', s'.workers[j], j) {
      assert Good(s, s.workers[j], j);
      if j == i {
        var w := s.workers[i];
        forall k | 0 < k < |w.conts| && k < |w.frames| && w.conts[k].Some?
          ensures Busy(s'.roots, s'.helps, i, w.frames[k - 1])
        {
          FramesDistinct(s, i, k - 1);
        }
      }
    }
  }

  lemma HelpInv(s: State, i: nat, a: Action)
    requires Inv(s) && Can(s, i, a) && (a.StartHelp? || a.StopHelp?)
    ensures Inv(Do(s, i, a))
  {
    var s' := Do(s, i, a);
    forall j, f | Busy(s.roots, s.helps, j, f) && (j != i || f != Top(s.workers[i]))
      ensures Busy(s'.roots, s'.helps, j, f)
    {
      if !(f in s.roots && j in s.roots[f]) {
        var h :| h in s.helps && h.f == f && h.helper == j;
        assert h in s'.helps;
      }
    }
    RootsInv(s, s', i);
  }

  lemma FinishRootInv(s: State, i: nat)
    requires Inv(s) && Can(s, i, FinishRoot)
    ensures Inv(Do(s, i, FinishRoot))
  {
    hide Placed, WillFollow, Behaves, RoundsOk, Published, Together;
    var s' := Do(s, i, FinishRoot);
    forall j, f | Busy(s.roots, s.helps, j, f) && (j != i || f != Top(s.workers[i]))
      ensures Busy(s'.roots, s'.helps, j, f)
    {
      if !(f in s.roots && j in s.roots[f]) {
        var h :| h in s.helps && h.f == f && h.helper == j;
        assert h in s'.helps;
      }
    }
    RootsInv(s, s', i);
  }

  // ---------------------------------------------------------------- publishing

  /** A worker that may publish has entered every round there is. */
  lemma BusyUpToDate(s: State, i: nat)
    requires Inv(s) && i < |s.workers| && !Opening(s.workers[i].pc) && !Inside(s.workers[i].pc)
    requires Busy(s.roots, s.helps, i, Top(s.workers[i])) && s.t == None
    ensures s.workers[i].left == |s.rounds|
  {
    var w, r := s.workers[i], s.rounds;
    assert Good(s, w, i);
    if w.left < |r| {
      var k := w.left;
      assert r[k].phase == 3 ==> Closes(r[..k], r[k].f);
      BusyRoots(s, i, Top(w));
    }
  }

  lemma PublishPublished(s: State, i: nat)
    requires Inv(s) && i < |s.workers| && s.workers[i].pc.Publishing? && s.t == None
    requires s.workers[i].left == |s.rounds|
    ensures var s' := StepOf(s, i); Published(s'.t, s'.leader, s'.next, s'.workers, s'.rounds)
    ensures var s' := StepOf(s, i); RoundsOk(s'.rounds, s'.next) && RootsOk(s'.roots, s'.helps, s'.next)
  {
    hide Placed, WillFollow, Behaves, Together, Ordered, Distinct, Nested;
  }

  lemma PublishInv(s: State, i: nat)
    requires Inv(s) && i < |s.workers| && s.workers[i].pc.Publishing? && s.t == None
    ensures Inv(StepOf(s, i))
  {
    hide Placed, WillFollow, RoundsOk, RootsOk, Published;
    var s' := StepOf(s, i);
    BehavesOf(s, i);
    BusyUpToDate(s, i);
    PublishPublished(s, i);
    forall j | 0 <= j < |s'.workers| ensures Good(s', s'.workers[j], j) {
      PublishGood(s, s', i, j);
    }
  }

  lemma PublishGood(s: State, s': State, i: nat, j: nat)
    requires Inv(s) && i < |s.workers| && s.workers[i].pc.Publishing? && s.t == None
    requires s' == StepOf(s, i) && j < |s.workers| && s.workers[i].left == |s.rounds|
    ensures Good(s', s'.workers[j], j)
  {
    hide Open, Bodies, RoundsOk, Published;
    assert Good(s, s.workers[j], j) && Good(s, s.workers[i], i);
    assert s.workers[i].left <= s.workers[j].entered;
    forall f: nat | f < s.next && Busy(s.roots, s.helps, j, f) ensures Busy(s'.roots, s'.helps, j, f) {
    }
  }

  /** When the publisher resets the pointer, no worker still needs it. */
  lemma ResetGood(s: State, i: nat, j: nat)
    requires Inv(s) && i < |s.workers| && s.workers[i].pc.Reset? && j < |s.workers| && i != j
    ensures Good(s.(t := None), s.workers[j], j)
  {
    var w, v, r := s.workers[i], s.workers[j], s.rounds;
    assert Good(s, w, i) && Good(s, v, j);
    assert s.leader == i && LeaderOk(w, s.t.value, r);
    assert w.left <= v.entered && v.left <= w.entered;
  }

  lemma ResetOwnGood(s: State, i: nat)
    requires Inv(s) && i < |s.workers| && s.workers[i].pc.Reset?
    ensures Good(s.(t := None), s.workers[i].(pc := Install(s.workers[i].pc.f, None)), i)
  {
    var w := s.workers[i];
    assert Good(s, w, i) && LeaderOk(w, s.t.value, s.rounds);
  }

  lemma ResetInv(s: State, i: nat)
    requires Inv(s) && i < |s.workers| && s.workers[i].pc.Reset?
    ensures Inv(StepOf(s, i))
  {
    var s' := StepOf(s, i);
    ResetOwnGood(s, i);
    forall j | 0 <= j < |s'.workers| ensures Good(s', s'.workers[j], j) {
      if j != i {
        ResetGood(s, i, j);
      }
    }
  }

  // ---------------------------------------------------------------- entering a round

  lemma {:induction false} OpenFirst(r: seq<Label>)
    ensures (forall k :: 0 <= k < |r| && r[k].phase == 3 ==> |Open(r[..k])| > 1) ==> Open(r) != [] && Open(r)[0] == 0
  {
    if r != [] && (forall k :: 0 <= k < |r| && r[k].phase == 3 ==> |Open(r[..k])| > 1) {
      var m := |r| - 1;
      forall k | 0 <= k < m && r[..m][k].phase == 3 ensures |Open(r[..m][..k])| > 1 {
        assert r[..m][..k] == r[..k];
      }
      OpenFirst(r[..m]);
    }
  }

  lemma EnteredBound(w: Worker, r: seq<Label>)
    requires Placed(w, r)
    ensures w.left <= w.entered <= |r| <= w.entered + 1 && (!Inside(w.pc) ==> w.entered == w.left)
  {
  }

  /** Worker i enters a round that others have entered before it. */
  lemma FollowInv(s: State, i: nat, w: Worker)
    requires Inv(s) && i < |s.workers|
    requires w.left == s.workers[i].left && w.entered == s.workers[i].entered + 1
    requires Good(s, w, i) && (Lead(s.workers[i].pc) ==>
               s.workers[i].pc.Ready1? && w.pc.At1? && Lead(w.pc) && w.pc.f == s.workers[i].pc.f)
    ensures Inv(SetWorker(s, i, w))
  {
    hide Placed, WillFollow, Behaves, RoundsOk, RootsOk;
    var s' := SetWorker(s, i, w);
    assert Good(s, s.workers[i], i);
    EnteredBound(w, s.rounds);
    EnteredBound(s.workers[i], s.rounds);
    forall j | 0 <= j < |s'.workers| ensures Good(s', s'.workers[j], j) {
      assert Good(s, s.workers[j], j);
    }
  }

  /** Worker i is the first to enter a new round. */
  lemma NewRoundInv(s: State, i: nat, w: Worker, l: Label)
    requires Inv(s) && i < |s.workers|
    requires s.workers[i].entered == s.workers[i].left == |s.rounds|
    requires w.left == s.workers[i].left && w.entered == s.workers[i].entered + 1
    requires var s' := SetWorker(s, i, w).(rounds := s.rounds + [l]);
             RoundsOk(s'.rounds, s.next) && Good(s', w, i)
             && Published(s.t, s.leader, s.next, s'.workers, s'.rounds)
    requires (l.phase == 1 ==> s.t == Some(l.f))
    requires (l.phase == 3 ==> s.t == None && l.f in s.roots && s.roots[l.f] == {})
    ensures Inv(SetWorker(s, i, w).(rounds := s.rounds + [l]))
  {
    hide Placed, Behaves, RoundsOk, RootsOk, Published;
    var s' := SetWorker(s, i, w).(rounds := s.rounds + [l]);
    forall j | 0 <= j < |s'.workers| ensures Good(s', s'.workers[j], j) {
      assert Good(s, s.workers[j], j);
      if j != i {
        assert s.workers[i].left <= s.workers[j].entered;
        EnteredBound(s.workers[j], s.rounds);
        PlacedExtend(s.workers[j], s.rounds, l);
      }
    }
  }

  lemma PlacedExtend(w: Worker, r: seq<Label>, l: Label)
    requires Placed(w, r) && w.entered == |r|
    ensures Placed(w, r + [l])
  {
    assert (r + [l])[..w.left] == r[..w.left];
  }

  /** Worker w is about to enter a round at program point pc and to give it label l. */
  ghost predicate Enters(w: Worker, pc: Pc, l: Label, roots: map<nat, set<nat>>) {
    match w.pc
    case Ready1(f, lead, cont) => pc == At1(f, lead, cont) && l == Label(1, f)
    case Ready2(f, cont) => pc == At2(f, cont) && l == Label(2, f)
    case Work => pc == At3(Top(w)) && l == Label(3, Top(w)) && |w.frames| > 1 && l.f in roots && roots[l.f] == {}
    case _ => false
  }

  function Entered(w: Worker, pc: Pc): Worker {
    w.(pc := pc, entered := w.entered + 1)
  }

  /** Nobody may publish while a worker ends the body of the frame they share. */
  lemma NoLeader(s: State, i: nat)
    requires Inv(s) && i < |s.workers| && s.workers[i].pc.Work?
    requires Top(s.workers[i]) in s.roots && s.roots[Top(s.workers[i])] == {}
    ensures s.t == None
  {
    hide Inv, WillFollow, Open, Bodies, Busy;
    if s.t.Some? {
      LeaderOf(s);
      var w, v := s.workers[i], s.workers[s.leader];
      BehavesOf(s, i);
      BehavesOf(s, s.leader);
      TogetherOf(s, i, s.leader);
      TogetherOf(s, s.leader, i);
      if v.left == w.left {
        RoundsOf(s);
        BusyRoots(s, s.leader, Top(v));
      }
    }
  }

  /** A worker that enters a round after others agrees with them on which one it is. */
  lemma FollowLabel(s: State, i: nat, pc: Pc, l: Label)
    requires Inv(s) && i < |s.workers| && s.workers[i].entered < |s.rounds|
    requires Enters(s.workers[i], pc, l, s.roots)
    ensures s.rounds[s.workers[i].left] == l
  {
    hide Inv, Open, Bodies, Busy, Distinct;
    var w, r := s.workers[i], s.rounds;
    BehavesOf(s, i);
    RoundsOf(s);
    if w.pc.Work? {
      NoLeader(s, i);
      assert r[w.left].phase == 3 ==> Closes(r[..w.left], r[w.left].f);
    }
  }

  lemma EnterPlaced(w: Worker, r: seq<Label>, pc: Pc, l: Label, roots: map<nat, set<nat>>)
    requires Placed(w, r) && Enters(w, pc, l, roots) && w.left < |r| && r[w.left] == l
    ensures Placed(Entered(w, pc), r)
  {
  }

  lemma EnterBehaves(s: State, i: nat, pc: Pc, l: Label)
    requires Inv(s) && i < |s.workers| && Enters(s.workers[i], pc, l, s.roots)
    ensures Behaves(Entered(s.workers[i], pc), i, s.t, s.leader, s.next, s.roots, s.helps)
    ensures Lead(s.workers[i].pc) <==> Lead(pc)
    ensures l.phase == 1 ==> s.t == Some(l.f)
    ensures l.phase == 3 ==> s.t == None && l.f in s.roots && s.roots[l.f] == {}
    ensures !Inside(s.workers[i].pc)
  {
    hide Inv, Placed, WillFollow, Busy;
    BehavesOf(s, i);
    if s.workers[i].pc.Work? {
      NoLeader(s, i);
    }
  }

  lemma EnterOldInv(s: State, i: nat, pc: Pc, l: Label)
    requires Inv(s) && i < |s.workers| && Enters(s.workers[i], pc, l, s.roots)
    requires s.workers[i].entered < |s.rounds|
    ensures Inv(EnterRound(s, i, pc, l))
  {
    hide Placed, Behaves, RoundsOk, RootsOk, Published, Together;
    var w := s.workers[i];
    assert Good(s, w, i);
    EnteredBound(w, s.rounds);
    FollowLabel(s, i, pc, l);
    EnterPlaced(w, s.rounds, pc, l, s.roots);
    EnterBehaves(s, i, pc, l);
    FollowInv(s, i, Entered(w, pc));
  }

  lemma ExtendDistinct(r: seq<Label>, l: Label)
    requires Distinct(r) && Ordered(r)
    requires l.phase == 2 ==> r != [] && r[|r| - 1] == Label(1, l.f)
    requires l.phase == 1 ==> forall k :: 0 <= k < |r| ==> r[k].f != l.f
    requires 1 <= l.phase
    ensures Distinct(r + [l])
  {
    if l.phase == 2 {
      forall k | 0 <= k < |r| && r[k].phase == 2 ensures r[k].f != l.f {
        assert r[k - 1].phase == r[|r| - 1].phase;
      }
    }
  }

  lemma ExtendNested(r: seq<Label>, l: Label)
    requires Nested(r) && (l.phase == 3 ==> Closes(r, l.f))
    ensures Nested(r + [l])
  {
    var r' := r + [l];
    assert r[..|r|] == r;
    forall k | 0 <= k < |r'| && r'[k].phase == 3 ensures Closes(r'[..k], r'[k].f) {
      assert r'[..k] == r[..k];
    }
  }

  lemma ExtendOrdered(r: seq<Label>, l: Label)
    requires Ordered(r)
    requires l.phase == 2 ==> r != [] && r[|r| - 1] == Label(1, l.f)
    requires r != [] && r[|r| - 1].phase == 1 ==> l == Label(2, r[|r| - 1].f)
    ensures Ordered(r + [l])
  {
  }

  lemma ExtendRounds(r: seq<Label>, l: Label, next: nat)
    requires RoundsOk(r, next) && 0 < l.f < next && 1 <= l.phase <= 3
    requires l.phase == 2 ==> r != [] && r[|r| - 1] == Label(1, l.f)
    requires r != [] && r[|r| - 1].phase == 1 ==> l == Label(2, r[|r| - 1].f)
    requires l.phase == 1 ==> forall k :: 0 <= k < |r| ==> r[k].f != l.f
    requires l.phase == 3 ==> Closes(r, l.f)
    ensures RoundsOk(r + [l], next)
  {
    ExtendDistinct(r, l);
    ExtendOrdered(r, l);
    ExtendNested(r, l);
  }

  lemma TopPositive(s: State, i: nat)
    requires Inv(s) && i < |s.workers| && |s.workers[i].frames| > 1
    ensures Top(s.workers[i]) > 0
  {
    hide Inv;
    var w := s.workers[i];
    BehavesOf(s, i);
    RoundsOf(s);
    var r := s.rounds[..w.left];
    assert forall k :: 0 <= k < |r| ==> r[k] == s.rounds[k];
    forall k | 0 <= k < |r| && r[k].phase == 3 ensures |Open(r[..k])| > 1 {
      assert r[..k] == s.rounds[..k] && Closes(s.rounds[..k], s.rounds[k].f);
    }
    OpenDistinct(r);
    OpenFirst(r);
  }

  /** The label of a new round fits those before it. */
  lemma LabelFits(s: State, i: nat, pc: Pc, l: Label)
    requires Inv(s) && i < |s.workers| && Enters(s.workers[i], pc, l, s.roots)
    requires s.workers[i].entered == |s.rounds|
    ensures var r := s.rounds;
            && 0 < l.f < s.next && 1 <= l.phase <= 3
            && (l.phase == 2 ==> r != [] && r[|r| - 1] == Label(1, l.f))
            && (r != [] && r[|r| - 1].phase == 1 ==> l == Label(2, r[|r| - 1].f))
            && (l.phase == 3 ==> Closes(r, l.f))
  {
    hide Inv, WillFollow, Bodies, Busy, Ordered, Distinct, Nested, LeaderOk, Open;
    var w, r := s.workers[i], s.rounds;
    BehavesOf(s, i);
    RoundsOf(s);
    assert r[..|r|] == r;
    if w.pc.Ready1? {
      LeaderOf(s);
    } else if w.pc.Work? {
      TopPositive(s, i);
    }
  }

  /** The first worker to enter a round gives it a label that fits. */
  lemma NewRoundsOk(s: State, i: nat, pc: Pc, l: Label)
    requires Inv(s) && i < |s.workers| && Enters(s.workers[i], pc, l, s.roots)
    requires s.workers[i].entered == |s.rounds|
    ensures RoundsOk(s.rounds + [l], s.next)
  {
    hide Inv, RoundsOk, Closes;
    LabelFits(s, i, pc, l);
    if l.phase == 1 {
      FreshFrame(s, i);
    }
    RoundsOf(s);
    ExtendRounds(s.rounds, l, s.next);
  }

  /** A frame's first barrier is entered only once. */
  lemma FreshFrame(s: State, i: nat)
    requires Inv(s) && i < |s.workers| && s.workers[i].pc.Ready1? && s.workers[i].entered == |s.rounds|
    ensures forall k :: 0 <= k < |s.rounds| ==> s.rounds[k].f != s.workers[i].pc.f
  {
    hide Inv, WillFollow, Open, Bodies, Busy;
    BehavesOf(s, i);
    LeaderOf(s);
    BehavesOf(s, s.leader);
    TogetherOf(s, i, s.leader);
  }

  lemma NewPublished(s: State, i: nat, pc: Pc, l: Label)
    requires Inv(s) && i < |s.workers| && Enters(s.workers[i], pc, l, s.roots)
    requires s.workers[i].entered == |s.rounds|
    ensures Published(s.t, s.leader, s.next, s.workers[i := Entered(s.workers[i], pc)], s.rounds + [l])
  {
    hide Inv, WillFollow, Open, Bodies, Busy;
    var w := s.workers[i];
    BehavesOf(s, i);
    if w.pc.Work? {
      NoLeader(s, i);
    } else if s.t.Some? {
      LeaderOf(s);
      BehavesOf(s, s.leader);
      TogetherOf(s, i, s.leader);
    }
  }

  lemma EnterNewInv(s: State, i: nat, pc: Pc, l: Label)
    requires Inv(s) && i < |s.workers| && Enters(s.workers[i], pc, l, s.roots)
    requires s.workers[i].entered == |s.rounds|
    ensures Inv(EnterRound(s, i, pc, l))
  {
    hide Inv, Placed, Behaves, RoundsOk, Published, Enters, Inside, Lead;
    var w := s.workers[i];
    BehavesOf(s, i);
    EnteredBound(w, s.rounds);
    NewRoundsOk(s, i, pc, l);
    NewPublished(s, i, pc, l);
    PlacedExtend(w, s.rounds, l);
    EnterBehaves(s, i, pc, l);
    EnterPlaced(w, s.rounds + [l], pc, l, s.roots);
    NewRoundInv(s, i, Entered(w, pc), l);
  }

  lemma EnterInv(s: State, i: nat, pc: Pc, l: Label)
    requires Inv(s) && i < |s.workers| && Enters(s.workers[i], pc, l, s.roots)
    ensures Inv(EnterRound(s, i, pc, l))
  {
    assert Good(s, s.workers[i], i);
    if s.workers[i].entered < |s.rounds| {
      EnterOldInv(s, i, pc, l);
    } else {
      EnterNewInv(s, i, pc, l);
    }
  }

  // ---------------------------------------------------------------- leaving a round

  lemma OpenStep(r: seq<Label>, k: nat)
    requires k < |r|
    ensures r[..k + 1][..k] == r[..k] && r[..k + 1][k] == r[k]
    ensures Open(r[..k + 1]) == (if r[k].phase == 2 then Open(r[..k]) + [r[k].f]
                                 else if r[k].phase == 3 then Front(Open(r[..k])) else Open(r[..k]))
    ensures Bodies(r[..k + 1]) == Bodies(r[..k]) + (if r[k].phase == 2 then multiset{r[k].f} else multiset{})
  {
    assert r[..k + 1][..k] == r[..k];
  }

  lemma LeavePlaced1(w: Worker, r: seq<Label>)
    requires Placed(w, r) && w.pc.At1?
    ensures Placed(Leave(w), r)
  {
    OpenStep(r, w.left);
  }

  lemma LeavePlaced2(w: Worker, r: seq<Label>)
    requires Placed(w, r) && w.pc.At2?
    ensures Placed(Leave(w), r)
  {
    OpenStep(r, w.left);
  }

  lemma LeavePlaced3(w: Worker, r: seq<Label>)
    requires Placed(w, r) && w.pc.At3?
    ensures Placed(Leave(w), r)
  {
    OpenStep(r, w.left);
  }

  lemma LeavePlaced(w: Worker, r: seq<Label>)
    requires Placed(w, r) && Inside(w.pc)
    ensures Placed(Leave(w), r)
  {
    match w.pc {
      case At1(_, _, _) => LeavePlaced1(w, r);
      case At2(_, _) => LeavePlaced2(w, r);
      case At3(_) => LeavePlaced3(w, r);
    }
  }

  lemma LeaveBehaves(s: State, w: Worker, i: nat)
    requires Good(s, w, i) && Inside(w.pc) && RoundsOk(s.rounds, s.next)
    ensures Behaves(Leave(w), i, s.t, s.leader, s.next, s.roots, s.helps)
  {
    if w.pc.At2? {
      assert s.rounds[w.left].f < s.next;
    }
  }

  lemma LeavePublished(s: State, i: nat)
    requires Inv(s) && i < |s.workers| && Inside(s.workers[i].pc)
    ensures Published(s.t, s.leader, s.next, s.workers[i := Leave(s.workers[i])], s.rounds)
  {
    assert Good(s, s.workers[i], i);
  }

  lemma LeaveTogether(s: State, i: nat)
    requires Inv(s) && i < |s.workers| && Inside(s.workers[i].pc) && Released(s, i)
    ensures Together(s.workers[i := Leave(s.workers[i])])
  {
    assert Good(s, s.workers[i], i);
  }

  lemma LeaveInv(s: State, i: nat)
    requires Inv(s) && i < |s.workers| && Inside(s.workers[i].pc) && Released(s, i)
    ensures Inv(SetWorker(s, i, Leave(s.workers[i])))
  {
    var w := s.workers[i];
    var w' := Leave(w);
    var s' := SetWorker(s, i, w');
    assert Good(s, w, i);
    LeavePlaced(w, s.rounds);
    LeaveBehaves(s, w, i);
    assert Good(s, w', i) by {
      assert w'.entered == w.entered;
    }
    LeavePublished(s, i);
    LeaveTogether(s, i);
    forall j | 0 <= j < |s'.workers| ensures Good(s', s'.workers[j], j) {
      assert j != i ==> Good(s, s.workers[j], j);
    }
  }

  // ---------------------------------------------------------------- every run

  lemma StepOfInv(s: State, i: nat)
    requires Inv(s) && Can(s, i, Step)
    ensures Inv(StepOf(s, i))
  {
    match s.workers[i].pc {
      case Publishing(_) => if s.t.Some? { FailInv(s, i); } else { PublishInv(s, i); }
      case Failed(_) => CopyInv(s, i);
      case Seen => CopyInv(s, i);
      case Ready1(f, lead, cont) => EnterInv(s, i, At1(f, lead, cont), Label(1, f));
      case Reset(_) => ResetInv(s, i);
      case Install(_, _) => InstallInv(s, i);
      case Ready2(f, cont) => EnterInv(s, i, At2(f, cont), Label(2, f));
      case Restore(_, _) => RestoreInv(s, i);
      case _ => LeaveInv(s, i);
    }
  }

  lemma DoInv(s: State, i: nat, a: Action)
    requires Inv(s) && Can(s, i, a)
    ensures Inv(Do(s, i, a))
  {
    match a {
      case StartHelp(_) => HelpInv(s, i, a);
      case StopHelp(_) => HelpInv(s, i, a);
      case FinishRoot => FinishRootInv(s, i);
      case WantFrame(tg) => WantInv(s, i, Publishing(tg));
      case See => WantInv(s, i, Seen);
      case EndBody => EnterInv(s, i, At3(Top(s.workers[i])), Label(3, Top(s.workers[i])));
      case Step => StepOfInv(s, i);
    }
  }

  ghost predicate Next(s: State, s': State) {
    exists i: nat, a :: Can(s, i, a) && s' == Do(s, i, a)
  }

  ghost predicate Run(n: nat, states: seq<State>) {
    && states != [] && states[0] == Init(n)
    && forall k :: 0 <= k < |states| - 1 ==> Next(states[k], states[k + 1])
  }

  lemma NextInv(s: State, s': State)
    requires Inv(s) && Next(s, s')
    ensures Inv(s')
  {
    var i: nat, a :| Can(s, i, a) && s' == Do(s, i, a);
    DoInv(s, i, a);
  }

  lemma {:induction false} RunInv(n: nat, states: seq<State>)
    requires Run(n, states)
    ensures Inv(states[|states| - 1])
  {
    var m := |states| - 1;
    if m == 0 {
      InitInv(n);
    } else {
      RunInv(n, states[..m]);
      assert Next(states[m - 1], states[m]);
      NextInv(states[m - 1], states[m]);
    }
  }

  // ---------------------------------------------------------------- theorems

  function Final(states: seq<State>): State
    requires states != []
  {
    states[|states| - 1]
  }

  /** Nobody copies a frame that is not there: whenever a worker is about to read
      lace_newframe.t, or holds a copy it has not yet taken into barrier 1, the frame is
      published and its publisher has not reset the pointer. */
  lemma NeverCopiesNull(n: nat, states: seq<State>, i: nat)
    requires Run(n, states) && i < |Final(states).workers|
    requires var pc := Final(states).workers[i].pc; pc.Seen? || pc.Failed? || pc.Ready1?
    ensures var s := Final(states);
            && s.t.Some? && (s.workers[i].pc.Ready1? ==> s.workers[i].pc.f == s.t.value)
            && s.leader < |s.workers| && Lead(s.workers[s.leader].pc) && s.workers[s.leader].pc.f == s.t.value
  {
    RunInv(n, states);
    assert Good(Final(states), Final(states).workers[i], i);
  }

  /** A compare-and-swap that may fail without reason, as atomic_compare_exchange_weak may. */
  function FailSpuriously(s: State, i: nat): State
    requires i < |s.workers| && s.workers[i].pc.Publishing?
  {
    SetWorker(s, i, s.workers[i].(pc := Failed(s.workers[i].pc.together)))
  }

  /** A run that goes on from s. */
  ghost predicate Continues(s: State, states: seq<State>) {
    && states != [] && states[0] == s
    && forall k :: 0 <= k < |states| - 1 ==> Next(states[k], states[k + 1])
  }

  /** Worker j is about to copy the frame, and the pointer is null. */
  predicate ReadsNull(s: State, j: nat) {
    j < |s.workers| && (s.workers[j].pc.Failed? || s.workers[j].pc.Seen?) && s.t == None
  }

  lemma {:induction false} ContinuesInv(s: State, states: seq<State>)
    requires Inv(s) && Continues(s, states)
    ensures Inv(Final(states))
    decreases |states|
  {
    hide Inv, Next;
    var m := |states| - 1;
    if m > 0 {
      ContinuesInv(s, states[..m]);
      assert Next(states[m - 1], states[m - 1 + 1]);
      NextInv(states[m - 1], states[m]);
    }
  }

  /** Where a spurious failure is safe: in no continuation does any worker copy from the null
      pointer, if and only if another frame is published when the swap fails. */
  lemma WeakSwapSafe(n: nat, states: seq<State>, i: nat)
    requires Run(n, states) && i < |Final(states).workers| && Final(states).workers[i].pc.Publishing?
    ensures (forall on: seq<State>, j: nat :: Continues(FailSpuriously(Final(states), i), on) ==> !ReadsNull(Final(on), j))
            <==> Final(states).t.Some?
  {
    var s := Final(states);
    var s' := FailSpuriously(s, i);
    RunInv(n, states);
    if s.t.Some? {
      FailInv(s, i);
      forall on: seq<State>, j: nat | Continues(s', on) ensures !ReadsNull(Final(on), j) {
        ContinuesInv(s', on);
        if j < |Final(on).workers| {
          BehavesOf(Final(on), j);
        }
      }
    } else {
      assert Continues(s', [s']) && ReadsNull(Final([s']), i);
    }
  }

  /** And a run that copies from it, already at the first publication of a program, with any
      number of workers: the swap of worker 0 fails without reason, and the step after that
      reads the pointer while it is null. */
  lemma WeakSwapCopiesNull(n: nat) returns (states: seq<State>)
    requires n > 0
    ensures Run(n, states) && |Final(states).workers| == n && Final(states).workers[0].pc.Publishing?
    ensures var s := FailSpuriously(Final(states), 0);
            && ReadsNull(s, 0) && Can(s, 0, Step) && Do(s, 0, Step).workers[0].pc.Ready1? && Do(s, 0, Step).t == None
  {
    var s0 := Init(n);
    assert Can(s0, 0, WantFrame(true));
    states := [s0, Do(s0, 0, WantFrame(true))];
    assert Next(states[0], states[1]);
  }

  lemma {:induction false} BodiesCount(r: seq<Label>, f: nat)
    requires Distinct(r)
    ensures Bodies(r)[f] <= 1
    ensures Bodies(r)[f] == 1 <==> Label(2, f) in r
  {
    if r != [] {
      var m := |r| - 1;
      BodiesCount(r[..m], f);
      if r[m] == Label(2, f) {
        assert Label(2, f) !in r[..m];
      } else if Label(2, f) in r {
        assert Label(2, f) in r[..m];
      }
    }
  }

  lemma StartedInstalled(w: Worker, v: Worker, r: seq<Label>, f: nat)
    requires Placed(w, r) && Placed(v, r) && v.left <= w.entered && Label(2, f) in r[..v.left]
    ensures f in w.installed
  {
    var k :| 0 <= k < v.left && r[..v.left][k] == Label(2, f);
    assert r[k].phase == 2;
  }

  /** No worker begins the body of a frame twice, and none begins it before every worker
      has installed the frame on its own deque. */
  lemma BodyOnce(n: nat, states: seq<State>, i: nat, j: nat, f: nat)
    requires Run(n, states) && i < |Final(states).workers| && j < |Final(states).workers|
    ensures Final(states).workers[i].started[f] <= 1
    ensures f in Final(states).workers[j].started ==> f in Final(states).workers[i].installed
  {
    RunInv(n, states);
    var s := Final(states);
    var w, v, r := s.workers[i], s.workers[j], s.rounds;
    assert Good(s, w, i) && Good(s, v, j) && v.left <= w.entered;
    BodiesCount(r[..w.left], f);
    BodiesCount(r[..v.left], f);
    if f in v.started {
      StartedInstalled(w, v, r, f);
    }
  }

  lemma OpenBefore(r: seq<Label>, k: nat, next: nat)
    requires RoundsOk(r, next) && k <= |r|
    ensures forall a, b :: 0 <= a < b < |Open(r[..k])| ==> Open(r[..k])[a] != Open(r[..k])[b]
    ensures forall a :: 0 <= a < |Open(r[..k])| && Open(r[..k])[a] > 0 ==> Label(2, Open(r[..k])[a]) in r[..k]
  {
    hide Open, Nested, Ordered;
    assert forall a :: 0 <= a < k ==> r[..k][a] == r[a];
    OpenDistinct(r[..k]);
  }

  lemma JustClosed(r: seq<Label>, k: nat, next: nat)
    requires RoundsOk(r, next) && k < |r| && r[k].phase == 3
    ensures r[k].f !in Open(r[..k + 1]) && Label(2, r[k].f) in r[..k]
  {
    hide Open, Distinct, Ordered;
    assert Closes(r[..k], r[k].f);
    OpenStep(r, k);
    OpenBefore(r, k, next);
    var o := Open(r[..k]);
    assert r[k].f == o[|o| - 1] && r[k].f > 0;
  }

  lemma {:induction false} StaysOut(r: seq<Label>, k: nat, m: nat, f: nat)
    requires k <= m <= |r| && f !in Open(r[..k])
    requires forall a :: k <= a < m ==> r[a] != Label(2, f)
    ensures f !in Open(r[..m])
  {
    if k < m {
      StaysOut(r, k, m - 1, f);
      OpenStep(r, m - 1);
    }
  }

  /** A frame that was closed stays closed. */
  lemma ClosedStays(r: seq<Label>, k: nat, m: nat, next: nat)
    requires RoundsOk(r, next) && k < m <= |r| && r[k].phase == 3
    ensures r[k].f !in Open(r[..m]) && Label(2, r[k].f) in r[..k]
  {
    hide Open, Nested, Ordered;
    var f := r[k].f;
    JustClosed(r, k, next);
    var b :| 0 <= b < k && r[..k][b] == Label(2, f);
    forall a | k + 1 <= a < m ensures r[a] != Label(2, f) {
      assert r[b] == Label(2, f);
    }
    StaysOut(r, k + 1, m, f);
  }

  /** No worker restores its old frame before every worker is done with the new one: each
      has begun its body exactly once and has left it, or waits for the others at the end. */
  lemma RestoreLast(n: nat, states: seq<State>, i: nat, j: nat, f: nat)
    requires Run(n, states) && i < |Final(states).workers| && j < |Final(states).workers|
    requires Final(states).workers[j].pc.Restore? && Final(states).workers[j].pc.f == f
    ensures Final(states).workers[i].started[f] == 1
    ensures Final(states).workers[i].pc == At3(f) || f !in Final(states).workers[i].frames
  {
    RunInv(n, states);
    var s := Final(states);
    var w, v, r := s.workers[i], s.workers[j], s.rounds;
    assert Good(s, w, i) && Good(s, v, j) && v.left <= w.entered;
    var k := v.left - 1;
    ClosedStays(r, k, k + 1, s.next);
    var b :| 0 <= b < k && r[..k][b] == Label(2, f);
    assert r[..w.left][b] == Label(2, f);
    BodiesCount(r[..w.left], f);
    if w.left > k {
      ClosedStays(r, k, w.left, s.next);
    }
  }

  /** The workers go through the frames in step: they are at most one barrier apart, and two
      that have left the same number of barriers are in the same frames. */
  lemma InStep(n: nat, states: seq<State>, i: nat, j: nat)
    requires Run(n, states) && i < |Final(states).workers| && j < |Final(states).workers|
    ensures var s := Final(states);
            && s.workers[i].left <= s.workers[j].left + 1
            && (s.workers[i].left == s.workers[j].left ==>
                  s.workers[i].frames == s.workers[j].frames && s.workers[i].started == s.workers[j].started)
  {
    RunInv(n, states);
    var s := Final(states);
    assert Good(s, s.workers[i], i) && Good(s, s.workers[j], j);
    assert s.workers[i].left <= s.workers[j].entered;
  }
}
