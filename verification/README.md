# Lace in Dafny

Lace is a work-stealing library for fork-join programs, with benchmarks that run on it. This
project models its concurrent core and the hardest of its benchmark kernels and proves what
they promise, for any number of workers, any task bodies, any interleaving and any input.

**The work-stealing system.** `SplitDeque` is one worker's split deque: slots in [tail, split)
are shared, slots in [split, head) are private, and the owner moves `split` without a lock.
Every atomic load, store and compare-and-swap of SPAWN, SYNC, SYNC_SLOW, lace_shrink_shared,
lace_leapfrog and lace_steal is a step of its own. `Sequential` gives task bodies their
sequential meaning. `ForkJoin` puts n workers with call stacks together; `ForkJoinProof` shows
that every step keeps one invariant, and `ForkJoinTheorems` draws the conclusions: every
spawned instance is claimed exactly once, and whatever the interleaving a task returns the
value of the sequential recursion. `FastPath` is the converse: every value of the sequential
recursion is returned in some run. `OwnerRuns` says what a whole SPAWN or SYNC makes of the
deque, and `StealRuns` what stealing achieves, in every run. `OwnerDeque` is the owner's code as
an object whose fields change in place, with thieves between any two stores. `GetHead` recovers
the head from the slots.

**The global protocols.** `Frames` cuts and restores a worker's deque around a task frame;
`NestedFrames` follows a worker through frames inside frames, to any depth, and `DequeMoves`
shows that both use the moves of the system above.
`Publication` is NEWFRAME and TOGETHER with lace_yield and the three barriers of a frame,
`FrameCalls` and `FrameCallRun` say what a call achieves,
`Barrier` the reusable barrier, `SuspendResume` counted suspend and resume, `ExternalTasks`
RUN and RUNEX. All are machines over their atomic steps; theorems are about every state of
every run.

**The benchmark kernels.** `Cilksort` is the sorting code in place on arrays, with
`SortSpec` as its meaning and `ParallelMerge` for every schedule of its parallel merge.
`Matmul` is rec_matmul. `StrassenKernels`, `StrassenSums`, `Winograd` and `Strassen` are
Strassen-Winograd multiplication with the quadrants of the result as temporaries; both rest on
`MatrixSpec` and, for matrices in memory, on `Planes`.
`Sha1` and `Sha1Stream` are the streaming SHA-1 of the UTS generator, refined to `Sha1Spec`,
which states sections 4, 5 and 6.1 of RFC 3174; `Sha1Known` proves its known answer.

Six promises turn out to be false of the code; each has an input and the exact condition
under which it holds.

- Entering a frame saves the public split only. Every run through a frame that was entered
  allstolen with the public split below the head, as lace_shrink_shared leaves it after a lost
  race, ends with a private split that is too low. The next SYNC then pops a stolen task,
  unless a thief has asked for more work meanwhile (`NestedFrames.RestoreExact`,
  `NestedFrames.StolenTaskPopped`; a whole run in `FrameCounterexample.FrameLosesSplit`).
- RUN's posting loop does not reset its expected value after a failed compare-and-swap, so it
  can replace another call's pending task (`ExternalTasks.PostLosesTask`,
  `ExternalTasks.RunLosesTask`).
- NEWFRAME and TOGETHER publish with a weak compare-and-swap. After a spurious failure no
  continuation copies a null pointer if and only if a frame was published when it failed
  (`Publication.WeakSwapSafe`, `Publication.WeakSwapCopiesNull`). Everything else about
  publication is proved for a swap that fails only when a frame is published.
- The SHA-1 byte count misses a carry for single pieces of 2^32 bytes and more whose sum with
  the low word reaches 2^33 (`Sha1Stream.CarryExact`, `Sha1Stream.CarryLost`).
- rec_matmul never returns for an inner dimension of zero with 64 rows or more and a column
  (`Matmul.EndsExactly`, `Matmul.CallsItself`).
- binsplit is described as returning the index of the greatest element not above val. When
  elements equal val and the first of the range is below it, it stops below all of them; in
  every other case with such an element it does as described (`Cilksort.BinSplit`,
  `Cilksort.BinSplitMisses`). cilkmerge only needs the weaker half, which always holds.

The trivial-partition branch of seqpart, whose comment doubts that it is needed, is never
taken.

## Model

| member | source | states |
|---|---|---|
| `SplitDeque.SpawnWriteKeeps` | src/lace.h:1075-1091 | the first stores of SPAWN keep the deque invariant: the new slot is full, unclaimed, and its instance is counted as not yet claimed |
| `SplitDeque.SyncBeginKeeps` | src/lace.h:1199-1209 | the tests at the start of SYNC lead to the fast path only when the top slot is private |
| `SplitDeque.SpawnShape` | src/lace.h:1092-1112 | every store of SPAWN's allstolen and movesplit branches keeps the shape of tail, split and claims |
| `SplitDeque.CutShape` | src/lace.h:616-629 | reading the word, publishing half of it and re-reading the tail in lace_shrink_shared keep the shape while thieves may race |
| `SplitDeque.ShrinkShape` | src/lace.h:615-643 | every step of lace_shrink_shared keeps the shape, with the race lost, repaired or won |
| `SplitDeque.SlowShape` | src/lace.h:1162-1189 | every step of SYNC_SLOW outside shrinking and leapfrogging keeps the shape |
| `SplitDeque.LeapShape` | src/lace.h:675-685 | the stores after leapfrogging keep the shape |
| `SplitDeque.AdvanceKeeps` | src/lace.h:615-691 | every owner step keeps the whole invariant, the live head, every slot and every claim |
| `SplitDeque.PopKeeps` | src/lace.h:1191-1205 | popping the top task in SYNC claims it once, for the owner, and keeps the invariant |
| `SplitDeque.ReleaseKeeps` | src/lace.h:687-690 | emptying the slot of a finished stolen task keeps the invariant |
| `SplitDeque.LeapReadKeeps` | src/lace.h:645-657 | the slot a SYNC leapfrogs on was claimed by a thief, and with the head raised again the deque is a deque of d + 1 tasks |
| `SplitDeque.LeapDoneKeeps` | src/lace.h:672-685 | when the stolen task is completed, tail = split = head unless the deque is allstolen |
| `SplitDeque.ShareAllKeeps` | src/lace.h:478-486 | making all tasks shared keeps the invariant, and both splits are then at the head unless all was stolen |
| `SplitDeque.StealableSlot` | src/lace.h:582-586 | whenever tail < split, at every owner step, the slot at tail lies below the live head and is unclaimed, and tail + 1 does not wrap |
| `SplitDeque.TakeKeeps` | src/lace.h:586-590 | a successful compare-and-swap claims exactly the slot at tail and keeps the invariant at every owner step, also in the middle of a shrink |
| `SplitDeque.SetThiefKeeps` | src/lace.h:593-597 | a thief's stores to the thief field of a slot it has claimed keep the invariant |
| `SplitDeque.SetResultKeeps` | src/lace.h:1213-1217 | a thief's result overwrites the arguments only of a slot it has claimed |
| `SplitDeque.RequestSplitKeeps` | src/lace.h:605-608 | a thief's request for more work keeps the invariant |
| `OwnerDeque.Owner.constructor` | src/lace.c:436-446 | a fresh deque is empty and open |
| `OwnerDeque.Owner.Spawn` | src/lace.h:1075-1112 | SPAWN with thieves between its stores leaves the deque open; split stays, moves to the middle when more work was asked for, or starts anew at the task when all was stolen |
| `OwnerDeque.Owner.ShrinkShared` | src/lace.h:615-643 | returns 0 with the split half the way from a tail there was meanwhile to the head, both splits equal and the top task private, or 1 with every slot below the old split claimed and tail >= split |
| `OwnerDeque.Owner.Grow` | src/lace.h:1175-1184 | the split moves half the way to the task that is popped if more work was asked for, and never past it |
| `OwnerDeque.Owner.Sync` | src/lace.h:1162-1209 | SYNC runs the top task itself exactly when no thief has it; the split is then the old one, or the one shrinking gives, grown if more work was asked for |
| `OwnerDeque.Owner.LeapPop` | src/lace.h:675-685 | after leapfrogging, tail = split = head whenever the deque is not allstolen, and popping closes it |
| `OwnerDeque.Owner.MakeAllShared` | src/lace.h:478-486 | both splits move to the head, whatever thieves do meanwhile |
| `Sequential.DepthMonotone` | src/lace.h:1213-1229 | the sequential reading of a task body does not depend on the recursion depth that is granted |
| `Sequential.ValueUnique` | src/lace.h:1213-1229 | the sequential recursion has at most one value |
| `Sequential.SoundSync` | src/lace.h:1162-1209 | delivering a matching child's value to a SYNC keeps the sequential meaning of the rest of the body |
| `ForkJoinProof.SwapOk` | src/lace.h:586-590 | a compare-and-swap that expects a word read long ago, if the word is the same again, takes an unclaimed task of now |
| `ForkJoinProof.LeapResult` | src/lace.h:1167-1171 | when a leapfrogging SYNC reads its slot, the union holds the value of the matching SPAWN |
| `ForkJoinProof.PopTask` | src/lace.h:1194-1205 | when SYNC pops, the union still holds the arguments of the matching SPAWN |
| `ForkJoinProof.OwnActionInv` | src/lace.h:1061-1217 | every owner action of every worker keeps the system invariant |
| `ForkJoinProof.StealStepInv` | src/lace.h:579-612 | every step of every thief keeps the system invariant |
| `ForkJoinProof.StepInv` | src/lace.h:579-691 | every step of the system keeps the invariant |
| `ForkJoinProof.RunInv` | src/lace.h:579-691 | the invariant holds in every state of every run, for any number of workers and any task bodies |
| `ForkJoinTheorems.ExactlyOnce` | src/lace.h:579-691 | in every reachable state each spawned instance was claimed exactly once, unless it still waits in its slot, and no other instance was |
| `ForkJoinTheorems.NoSecondClaim` | src/lace.h:586-590 | no two steps of a run claim the same instance |
| `ForkJoinTheorems.ForkJoinMeaning` | src/lace.h:1061-1217 | whatever the interleaving, what a task returns is the value of the sequential recursion, on the fast, slow and stolen paths |
| `ForkJoinTheorems.DequeShape` | src/lace.h:615-643 | in every reachable state between operations: the order of tail, split and head, which slots are claimed and which are empty, both when allstolen and when not |
| `ForkJoinTheorems.PopAndGrow` | src/lace.h:1103-1189 | SYNC never pops a claimed slot; growing in SPAWN and SYNC_SLOW raises split, never past the head or the task being popped, and never wraps |
| `OwnerRuns.SpawnAlone` | src/lace.h:1092-1112 | an undisturbed SPAWN: a new shared part with the one task after all was stolen, the split half the way to the head when more work was asked for, or nothing |
| `OwnerRuns.SyncStolenAlone` | src/lace.h:1162-1176 | an undisturbed SYNC_SLOW on a task that is stolen for certain closes the deque and leapfrogs |
| `OwnerRuns.SyncOwnAlone` | src/lace.h:1162-1189 | an undisturbed SYNC_SLOW on any other task pops it, after it has taken back half of the shared part if the task was in it and shared half of the rest if more work was asked for |
| `OwnerRuns.SpawnOutcome` | src/lace.h:1092-1112 | in every run, with thieves between the steps: SPAWN ends with the head one higher and the split that its check calls for |
| `OwnerRuns.SyncOutcome` | src/lace.h:1162-1189 | in every run, with thieves between the steps: SYNC_SLOW leapfrogs or pops, and what the split then is |
| `OwnerRuns.OperationEnds` | src/lace.h:615-691 | no SPAWN or SYNC takes more than nine steps of its worker, whatever thieves do meanwhile |
| `StealRuns.StealBegins` | src/lace.h:579-584 | an idle or waiting worker can try to steal from any worker |
| `StealRuns.StealSucceeds` | src/lace.h:582-590 | from every reachable state, a thief that finds shared work takes exactly the oldest task of its victim in three steps |
| `StealRuns.StolenTaskRuns` | src/lace.h:593-597 | and then marks the slot and begins the body of the task spawned there |
| `StealRuns.StolenValueStored` | src/lace.h:597-600 | when that body has returned, its value is stored and the task reported as done |
| `StealRuns.AsksForWork` | src/lace.h:603-609 | a thief that finds no shared work asks for some |
| `StealRuns.AllShared` | src/lace.h:478-486 | lace_make_all_shared in every run: both splits at the head unless all was stolen |
| `StealRuns.LeapBegins` | src/lace.h:645-657 | a SYNC whose task a thief is running begins to leapfrog |
| `StealRuns.StolenValueArrives` | src/lace.h:672-691 | the value that a thief has gets to the SYNC that waits for it, and the body goes on with it |
| `FastPath.Serve` | src/lace.h:1061-1229 | whatever the sequential recursion makes of a half-finished body, one worker can finish it with that value |
| `FastPath.ValueReturned` | src/lace.h:1061-1229 | the converse of `ForkJoinTheorems.ForkJoinMeaning`: every value of the sequential recursion is returned in some run |
| `ForkJoinTheorems.ShrinkOutcome` | src/lace.h:615-643 | the two outcomes of lace_shrink_shared, in every reachable state |
| `ForkJoinTheorems.LeapAssumption` | src/lace.h:678-685 | the comment after leapfrogging is right in every run: if not allstolen, tail = split = head |
| `ForkJoinTheorems.NeverStuck` | src/lace.h:579-691 | a worker that respects the LIFO contract always has a step with all accesses in bounds |
| `GetHead.GetHead` | src/lace.c:161-195 | the gallop and binary search find the first empty slot, or the end of a full deque |
| `GetHead.HeadInEveryRun` | src/lace.c:161-195 | in every reachable state that first empty slot is the head the running body holds |
| `Frames.SealedNoWin` | src/lace.c:1153-1166 | with split <= tail no compare-and-swap succeeds: thieves only finish what they claimed or ask for work |
| `Frames.ThiefKeeps` | src/lace.h:579-612 | thief moves keep the invariant of a deque whose task frame starts at any base |
| `Frames.OwnerKeeps` | src/lace.h:615-691 | owner moves keep the invariant above the base of the frame |
| `Frames.FrameKeeps` | src/lace.c:1141-1184 | every store and load of the innermost frame, while it is entered, used or left, keeps its invariant, with thieves racing |
| `NestedFrames.NextInv` | src/lace.c:1141-1184 | with frames inside frames to any depth, every step keeps the invariant of all frames the worker is in, also the entry to an inner frame, and the return from one that restores its deque (`NestedFrames.ResumeExact`) |
| `NestedFrames.ResumeExact` | src/lace.c:1141-1184 | a frame goes on with the deque that an inner frame leaves if and only if that one was entered not allstolen or with the public split reaching the head |
| `NestedFrames.FrameIsolation` | src/lace.c:1141-1184 | for every frame of every run, at any depth, in which the inner frames that have returned restored their deques: the split is at most the tail while it is cut or restored; inside, also during inner frames, the claims below its entry head are as at the cut and unclaimed slots there are untouched; afterwards the old tail, split and flags are back |
| `NestedFrames.FrameSteps` | src/lace.c:1141-1184 | at every step of every such run, for every frame the worker is in: the worker writes no slot below the entry head, a thief only one it has claimed, and a steal succeeds neither while a frame is cut or restored nor on a task from before a frame that is in use |
| `NestedFrames.RestoreExact` | src/lace.c:1153-1182 | every run through a frame, at any depth, restores its worker's deque, and an inner frame that of the frame around it, if and only if it was not allstolen at entry or its public split still reached the head |
| `NestedFrames.StolenTaskPopped` | src/lace.c:1181-1182 | after every run through a frame entered allstolen the top slot is a stolen one, and the next SYNC takes its fast path on it if and only if the public split was below the head and no thief has asked for more work |
| `NestedFrames.QuietFrame` | src/lace.c:1141-1184 | from any deque there is a run through a frame, and undisturbed it changes the private split and flag only |
| `NestedFrames.InnerFrame` | src/lace.c:1141-1184 | in any run the innermost frame can enter a further one and come back from it |
| `DequeMoves.SystemMoves` | src/lace.h:579-691 | in every run of the work-stealing system every step is, for every deque, one of the moves that the frame theorems allow, or nothing |
| `FrameCounterexample.FrameLosesSplit` | src/lace.c:1153-1182 | a reachable deque, a run through a frame from it, and a SYNC that then claims a stolen task a second time |
| `Barrier.StepInv` | src/lace.c:254-268 | every step of the sense-reversing barrier keeps its invariant, for any number of workers |
| `Barrier.RunInv` | src/lace.c:254-268 | the invariant holds in every run, round after round |
| `Barrier.NobodyLeavesEarly` | src/lace.c:254-268 | nobody leaves round k before everyone has entered it, and no two workers are more than one round apart |
| `Barrier.LeavingIsZero` | src/lace.c:260-287 | `leaving` is 0 when it is refilled, and when it is 0 nobody is still on the way out |
| `Barrier.WaitsForSomebody` | src/lace.c:254-268 | a worker that spins waits for one that is not counted yet or that closes the round, and that one can go on |
| `Publication.DoInv` | src/lace.c:1190-1288 | every step of publishing, copying, installing and leaving frames keeps the protocol invariant |
| `Publication.RunInv` | src/lace.c:1190-1288 | the protocol invariant holds in every run of any nesting of NEWFRAME and TOGETHER |
| `Publication.NeverCopiesNull` | src/lace.c:1191-1202 | whoever copies lace_newframe.t finds the published frame, and its publisher has not reset it yet |
| `Publication.BodyOnce` | src/lace.c:1141-1170 | no worker begins a frame's body twice, and none before every worker has installed the frame |
| `Publication.RestoreLast` | src/lace.c:1168-1183 | when a worker restores its old frame, every worker has begun the new one exactly once and is done with it |
| `Publication.InStep` | src/lace.c:1168-1184 | workers are at most one barrier apart, and equal barrier counts mean equal frames |
| `Publication.WeakSwapSafe` | src/lace.c:1233-1237 | after a spurious failure of the weak compare-and-swap in any run, in no continuation does any worker stand before a copy from the null pointer, if and only if a frame is published when the swap fails |
| `Publication.WeakSwapCopiesNull` | src/lace.c:1233-1237 | a run that takes the copying step while the pointer is null, at the first publication of a program with any number of workers |
| `FrameCalls.RootsAtPublish` | src/lace.c:1205-1288 | in the frame of a TOGETHER every worker has the task to run, in that of a NEWFRAME the publisher alone |
| `FrameCalls.WhoRunsTheTask` | src/lace.c:1205-1288 | for every frame of every run that is over, exactly those workers have finished that task |
| `FrameCalls.RootOnce` | src/lace.c:1205-1288 | and none of them twice |
| `FrameCalls.CallPublishes` | src/lace.c:1229-1271 | a call whose swap failed tries again: it is back in its frame only after it has published a frame of its own |
| `FrameCalls.CallReturns` | src/lace.c:1229-1288 | a call of NEWFRAME or TOGETHER that is back has had its task run, by every worker for a TOGETHER and by the caller alone for a NEWFRAME |
| `FrameCalls.NobodyWaitsInVain` | src/lace.c:1141-1202 | a worker that waits in a barrier of a frame waits for somebody who can go on towards it |
| `FrameCallRun.WholeCall` | src/lace.c:1141-1288 | for any number of workers there is a run through a whole call, after which all are back in their old frame |
| `SuspendResume.StepInv` | src/lace.c:471-517 | every step of lace_suspend, lace_resume and the steal loop keeps the counting invariant; once all workers were seen running, none stops before it is told to |
| `SuspendResume.OneInSection` | src/lace.c:471-517 | at most one thread is in the section with count -1, and nobody else holds the workers awake then |
| `SuspendResume.OnePermitPerRound` | src/lace.c:498-517 | every worker consumes exactly one permit per resume, and none goes back to work in a later round before all are awake |
| `SuspendResume.ZeroMeansAsleep` | src/lace.c:471-496 | when the count is 0 every worker sleeps, no permit is left and nobody is told to stop |
| `SuspendResume.NeverStoppedDuringRun` | src/lace.c:556-597 | workers are never told to stop while an external task runs |
| `SuspendResume.NeverStuck` | src/lace.c:471-517 | in every run, while a call of resume or suspend is not over, somebody can go on |
| `ExternalTasks.StepInv` | src/lace.c:556-663 | every step of RUN, RUNEX and lace_steal_external keeps the invariant |
| `ExternalTasks.ExclusiveAlone` | src/lace.c:599-642 | a RUNEX task is never posted or executed while any other external task is |
| `ExternalTasks.ReturnedMeansExecuted` | src/lace.c:581-585 | a call that returns had its task executed exactly once, and no task is executed twice |
| `ExternalTasks.PostLosesTask` | src/lace.c:581-582 | RUN's posting loop drops another call's task if and only if its expected value is no longer null |
| `ExternalTasks.LostOnlyByPost` | src/lace.c:581-663 | in every run no other step loses a task: it is a post of another RUN whose expected value is not null |
| `ExternalTasks.LostForever` | src/lace.c:581-585 | a dropped task never runs and its call never returns; RUNEX never drops one |
| `ExternalTasks.RunLosesTask` | src/lace.c:581-582 | two calls of RUN that lose a task |
| `ExternalTasks.TakenIsExecuted` | src/lace.c:644-663 | in every run a worker can take the task in the slot, run it once and report it to its call |
| `ExternalTasks.NeverStuck` | src/lace.c:556-663 | in every run a call that has neither returned nor lost its task can go on, or a worker can go on with its task, or the holder of the lock can |
| `ExternalTasks.AllCanReturn` | src/lace.c:556-663 | whatever calls of RUN and RUNEX there are, there is a run in which all return |
| `SortSpec.SortedUnique` | benchmarks/cilksort/cilksort-lace.c:360-402 | a multiset has one sorted order, so sorted and permuted determine the result |
| `SortSpec.MergeSorted` | benchmarks/cilksort/cilksort-lace.c:197-269 | the merge of sorted sequences is sorted |
| `SortSpec.MergeElements` | benchmarks/cilksort/cilksort-lace.c:197-269 | the merge keeps every element |
| `SortSpec.MergeAround` | benchmarks/cilksort/cilksort-lace.c:344-354 | merging below and above a splitting element gives the merge of the whole |
| `Cilksort.Med3` | benchmarks/cilksort/cilksort-lace.c:91-112 | the result is a median of its three arguments |
| `Cilksort.ChoosePivot` | benchmarks/cilksort/cilksort-lace.c:118-121 | below the last index there is an element not above and one not below the pivot |
| `Cilksort.Scan` | benchmarks/cilksort/cilksort-lace.c:133-137 | both unchecked scans stop inside the range |
| `Cilksort.SeqPart` | benchmarks/cilksort/cilksort-lace.c:123-158 | in place: two non-empty parts, the first nowhere above the second, a permutation, and the trivial-partition branch is never taken |
| `Cilksort.Insert` | benchmarks/cilksort/cilksort-lace.c:174-177 | one element moves to its place and nothing is lost |
| `Cilksort.InsertionSort` | benchmarks/cilksort/cilksort-lace.c:168-179 | sorts the range in place |
| `Cilksort.SeqQuick` | benchmarks/cilksort/cilksort-lace.c:184-195 | sorts the range in place and terminates |
| `Cilksort.FastMerge` | benchmarks/cilksort/cilksort-lace.c:228-244 | the loop that reads ahead stays in bounds and has written a prefix of the merge |
| `Cilksort.SlowMerge` | benchmarks/cilksort/cilksort-lace.c:245-263 | the checking loop continues it until one range is used up |
| `Cilksort.SeqMerge` | benchmarks/cilksort/cilksort-lace.c:197-269 | exactly the merge of the two ranges is written to the destination, and nothing else |
| `Cilksort.BinSplit` | benchmarks/cilksort/cilksort-lace.c:279-299 | nothing up to the result is above val and nothing behind it is below val; it is before the range exactly when val is; else it is the index of the greatest element not above val if and only if no element equals val or the first one does |
| `Cilksort.BinSplitMisses` | benchmarks/cilksort/cilksort-lace.c:279-299 | on 0, 1 with val 1 the result is the index of the 0 |
| `Cilksort.EmptyBranch` | benchmarks/cilksort/cilksort-lace.c:324-332 | the branch with a negative copy length is reached exactly when both ranges are empty |
| `Cilksort.ChooseSplit` | benchmarks/cilksort/cilksort-lace.c:344-346 | the lower parts, the middle element and the upper parts merge to the whole |
| `Cilksort.SpawnBoth` | benchmarks/cilksort/cilksort-lace.c:353-356 | the two spawned merges give the same destination in either order |
| `Cilksort.CilkMerge` | benchmarks/cilksort/cilksort-lace.c:301-358 | writes exactly the merge of two sorted ranges, never enters the empty branch again, and terminates |
| `Cilksort.SortQuarters` | benchmarks/cilksort/cilksort-lace.c:386-393 | the four spawned sorts, in any order, sort the quarters and stay within their parts of both arrays |
| `Cilksort.MergePairs` | benchmarks/cilksort/cilksort-lace.c:395-398 | both pair merges land in the scratch array, in either order |
| `Cilksort.CilkSort` | benchmarks/cilksort/cilksort-lace.c:360-402 | the array part is sorted and a permutation of what it was; nothing outside the two parts changes |
| `ParallelMerge.AnyInterleaving` | benchmarks/cilksort/cilksort-lace.c:353-356 | however two sets of stores to disjoint parts interleave, memory ends the same |
| `ParallelMerge.AnySchedule` | benchmarks/cilksort/cilksort-lace.c:301-358 | every order in which parallel workers can make the stores of cilkmerge leaves the merge of its ranges and writes nowhere else |
| `ParallelMerge.SomeSchedule` | benchmarks/cilksort/cilksort-lace.c:301-358 | for sorted ranges of any length there is such an order |
| `Planes.Store` | benchmarks/strassen/strassen-lace.c:55-61 | a store through a pointer to row r and column c of a matrix in memory changes that element and no other |
| `MatrixSpec.SplitRows` | benchmarks/matmul/matmul-lace.c:97-101 | a product can be done in two sets of rows, in either order |
| `MatrixSpec.SplitInner` | benchmarks/matmul/matmul-lace.c:102-105 | or in two halves of the inner dimension, the second adding to the first |
| `MatrixSpec.SplitColumns` | benchmarks/matmul/matmul-lace.c:106-111 | or in two sets of columns, in either order |
| `MatrixSpec.DisjointCommute` | benchmarks/strassen/strassen-lace.c:557-582 | spawned products into disjoint blocks give the same matrix in either order |
| `Matmul.Inner` | benchmarks/matmul/matmul-lace.c:63-68 | the inner loop computes a row times a column |
| `Matmul.Base` | benchmarks/matmul/matmul-lace.c:77-96 | the base case puts or adds the product into its block |
| `Matmul.EndlessCalls` | benchmarks/matmul/matmul-lace.c:97-112 | with an inner dimension of zero, 64 rows or more and a column, a call makes a call of that kind again; any other call makes only smaller calls, none of that kind |
| `Matmul.PositiveCalls` | benchmarks/matmul/matmul-lace.c:97-112 | a call whose dimensions are at least one makes only such calls |
| `Matmul.EndsExactly` | benchmarks/matmul/matmul-lace.c:75-112 | the recursion ends if and only if the call is not of that kind |
| `Matmul.CallsItself` | benchmarks/matmul/matmul-lace.c:106-111 | 100 rows, no inner dimension and one column: the call makes the same call for ever |
| `Matmul.RecMatmul` | benchmarks/matmul/matmul-lace.c:75-112 | for all dimensions for which it ends: the block of C becomes (old C if add) + A x B and the rest of C is untouched |
| `Matmul.SpawnAndCall` | benchmarks/matmul/matmul-lace.c:97-111 | the spawned and the called half may run in either order |
| `StrassenKernels.EightSums` | benchmarks/strassen/strassen-lace.c:129-153 | eight running sums, started with their first products, are eight elements of the product, and the pointer into A is then one row of the block further |
| `StrassenKernels.EightMore` | benchmarks/strassen/strassen-lace.c:215-239 | eight running sums that start from C are old C plus the product, and the pointer into A moves as far |
| `StrassenKernels.FastRow` | benchmarks/strassen/strassen-lace.c:127-165 | one row of a kernel makes one row of the product; the pointer into A runs ahead and comes back to the row start, and the pointer into C ends behind the row |
| `StrassenKernels.FastNaive` | benchmarks/strassen/strassen-lace.c:107-257 | the unrolled kernels, stepping by row widths, put or add the product into their block and change nothing else |
| `StrassenKernels.FourQuadrants` | benchmarks/strassen/strassen-lace.c:315-345 | the quadrant calls, in the program's order, make up one half of the inner dimension |
| `StrassenKernels.DivideAndConquer` | benchmarks/strassen/strassen-lace.c:285-392 | C = A x B or C += A x B on the block, for every power of two from 16 |
| `Winograd.Scalars` | benchmarks/strassen/strassen-lace.c:524-534 | the polynomial identities behind the seven products |
| `Winograd.SumIdentities` | benchmarks/strassen/strassen-lace.c:524-571 | with the eight sums of quadrants, the seven products add up to the quadrants of the product |
| `Winograd.QuadrantDots` | benchmarks/strassen/strassen-lace.c:67-80 | the naive product, quadrant by quadrant |
| `StrassenSums.FillLeft` | benchmarks/strassen/strassen-lace.c:524-534 | one cell of S1 to S4 through quadrant pointers and an offset |
| `StrassenSums.FillRight` | benchmarks/strassen/strassen-lace.c:527-534 | one cell of S5 to S8 likewise |
| `StrassenSums.FillTables` | benchmarks/strassen/strassen-lace.c:501-543 | the first loop nest, whose three offsets step along the rows and over the row increments, leaves eight tables that meet what Winograd's identities need |
| `Strassen.QuadrantCells` | benchmarks/strassen/strassen-lace.c:557-571 | the products that use quadrants of C as temporaries do not disturb each other |
| `Strassen.Target` | benchmarks/strassen/strassen-lace.c:597-628 | what the last loop adds up is the product |
| `Strassen.CombineCell` | benchmarks/strassen/strassen-lace.c:597-628 | the last loop's updates at one place of each quadrant |
| `Strassen.CombineStep` | benchmarks/strassen/strassen-lace.c:597-628 | what the last loop writes at one place of the four quadrants are the elements of the product |
| `Strassen.Combine` | benchmarks/strassen/strassen-lace.c:590-642 | the last loop nest, with pointers that step through all quadrants and tables, turns the seven products into the product |
| `Strassen.PartlyNext` | benchmarks/strassen/strassen-lace.c:557-571 | whichever of the four products into quadrants of C comes next, the matrix is the same as if they had come in the order of the source |
| `Strassen.ProgressNext` | benchmarks/strassen/strassen-lace.c:545-571 | the same for all seven products, three of which have tables of their own |
| `Strassen.SevenProducts` | benchmarks/strassen/strassen-lace.c:545-582 | the seven spawned products, in any order, leave the same C and the same three tables |
| `Strassen.MidHolds` | benchmarks/strassen/strassen-lace.c:545-582 | all seven products are then in their places, and nothing else of C has changed |
| `Strassen.SevenMultiplications` | benchmarks/strassen/strassen-lace.c:455-646 | the recursive case: sums, seven products in any order and the last loop make the product |
| `Strassen.StrassenMultiply` | benchmarks/strassen/strassen-lace.c:415-646 | for every power-of-two size from 16 and any row widths, C's block becomes the naive product and nothing outside it changes |
| `Sha1.ApplyIsF` | benchmarks/uts/rng/brg_sha1.c:164-166 | the rewritten ch and maj are the functions of section 5 of RFC 3174 |
| `Sha1.NextWordIs` | benchmarks/uts/rng/brg_sha1.c:216-218 | the word made in the circular buffer, with the rotation of the source, is the next word of the 80-word schedule |
| `Sha1.Fetch` | benchmarks/uts/rng/brg_sha1.c:208-218 | fetching word i leaves the buffer holding the last sixteen schedule words |
| `Sha1.OneCycle` | benchmarks/uts/rng/brg_sha1.c:183-186 | one cycle with renamed registers is one round of section 6.1 of RFC 3174 |
| `Sha1.FiveCycle` | benchmarks/uts/rng/brg_sha1.c:188-193 | after five cycles every register has its own name again |
| `Sha1.Compile` | benchmarks/uts/rng/brg_sha1.c:195-249 | for every block and chaining value, the block function of section 6.1 of RFC 3174 |
| `Sha1Known.SchedRotated` | benchmarks/uts/rng/brg_sha1.c:216-218 | a schedule word rotated back by one bit is the exclusive or of the four earlier words |
| `Sha1Known.AbcBlock` | benchmarks/uts/rng/brg_sha1.c:195-249 | the block function on the one block of "abc" gives the known answer of section 7.3 of RFC 3174 |
| `Sha1Known.AbcDigest` | benchmarks/uts/rng/brg_sha1.c:251-333 | and the digest of "abc", padding and byte order included, is the known one |
| `Sha1Stream.BswapIs` | benchmarks/uts/rng/brg_sha1.c:133-138 | the byte swap reverses the bytes of a word |
| `Sha1Stream.MarkIs` | benchmarks/uts/rng/brg_sha1.c:297-298 | masking and marking keep the message bytes and put 0x80 and zeros behind them, whatever stale bytes were there |
| `Sha1Stream.OrAdds` | benchmarks/uts/rng/brg_sha1.c:319-319 | the or of the two shifted count words loses no bit |
| `Sha1Stream.LengthWords` | benchmarks/uts/rng/brg_sha1.c:319-320 | the two length words are the message length in bits |
| `Sha1Stream.AbsorbBlock` | benchmarks/uts/rng/brg_sha1.c:272-278 | a full buffer extends the chaining value by one block of the message |
| `Sha1Stream.PaddingShape` | benchmarks/uts/rng/brg_sha1.c:303-320 | one or two last blocks are the padding of section 4 of RFC 3174 |
| `Sha1Stream.Context.Begin` | benchmarks/uts/rng/brg_sha1.c:251-259 | an empty message |
| `Sha1Stream.CarryExact` | benchmarks/uts/rng/brg_sha1.c:269-270 | the low word of the count is always right; the carry is right if and only if the piece is below 2^32 bytes or its sum with the low word below 2^33 |
| `Sha1Stream.CarryLost` | benchmarks/uts/rng/brg_sha1.c:269-270 | one piece of 2^33 bytes is counted as 2^32 |
| `Sha1Stream.Context.Count` | benchmarks/uts/rng/brg_sha1.c:269-270 | in place, the low word becomes the sum modulo 2^32, and the two words are the sum modulo 2^64 if and only if the piece is below 2^32 bytes or its sum with the low word below 2^33 |
| `Sha1Stream.Context.Hash` | benchmarks/uts/rng/brg_sha1.c:264-281 | a piece of any length is appended to the message, on either byte order, and the count stays right if and only if the carry is |
| `Sha1Stream.Context.Finish` | benchmarks/uts/rng/brg_sha1.c:285-321 | the chaining value of the padded message, with or without the extra block |
| `Sha1Stream.Context.End` | benchmarks/uts/rng/brg_sha1.c:285-327 | the digest bytes of everything hashed since begin |
| `Sha1Stream.Stream` | benchmarks/uts/rng/brg_sha1.c:251-333 | however a message is cut into calls that are counted right, the digest is that of the whole by sections 4 to 6.1 of RFC 3174 |

## Left out

- Weak memory: steps are sequentially consistent, so fences and memory orders are not modelled.
- Liveness: no fairness, no termination of spinning loops; the theorems named NeverStuck, NobodyWaitsInVain and WaitsForSomebody are about enabled steps, and those that return a run say that something can happen.
- ForkJoinTheorems.ForkJoinMeaning: task frames do not occur inside the system of that theorem; `Frames`, `NestedFrames` and `Publication` treat them on their own, with a worker's deque moves as in `SplitDeque`.
- NestedFrames.FrameIsolation: says nothing of the private split, which a frame can lose, and this and the other theorems about runs say nothing of what follows the return of an inner frame that has lost it; `NestedFrames.RestoreExact` says when that is.
- Publication.RunInv: the compare-and-swap is strong, no external task arrives inside a frame, and the barrier is used through what `Barrier` proves of it.
- Cilksort.CilkMerge: not for two empty ranges, where the source copies a negative length (`Cilksort.EmptyBranch`); no call has such ranges.
- Matmul.RecMatmul: not for the calls that never return (`Matmul.EndsExactly`).
- Sha1Stream.Stream: not for pieces that the source miscounts as `Sha1Stream.CarryExact` says, nor for pieces of 2^64 bytes; messages are otherwise of any length, with the bit count modulo 2^64.
- Matrices: the temporaries are separate matrices, not parts of one aligned heap block, and offsets count elements, not bytes.
- Strassen.Combine: the loops that the source unrolls are loops over their four or eight columns.
- Floating-point rounding: matrices hold exact reals.
- DROP and lace_drop_slow: a SYNC that does not run its task.
- Tasks of other arities, VOID tasks and the 14-argument variant: the same code with other argument lists.
- lace_stop, lace_quits, thread creation, memory allocation, pinning, hwloc, counters, timing and random victims: victims are arbitrary.
- The other benchmarks, their sequential twins, option parsing and the UTS tree and its random-number wrappers.
