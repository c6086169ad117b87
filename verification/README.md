# mthpc, modelled and verified in Dafny

mthpc is a C library of concurrency building blocks: a user-space RCU with a two-pass grace period,
RCU-protected lists, a pool of workqueues that sleep on a futex, a taskflow scheduler on top of it, a
sense-reversing barrier and clusters of thread groups. This project models the parts of it that are
protocols or pointer surgery and proves what they guarantee.

Two styles are used, each where the source calls for it.

* **Protocols** are transition systems over sequentially consistent interleavings: any number of
  threads, every shared access its own step, no bound on the length of a run. A state is a datatype,
  `Enabled` and `Next` are the steps of the code, `Inv` is an inductive invariant over arbitrary states,
  and every guarantee is a lemma about every state of every run that starts in `Init`. History fields,
  named as such, record when things happened; no step depends on them.
* **Linked structures** are classes on the heap whose methods do the assignments of the C functions in
  their order, with a ghost sequence for what the pointers spell.

`dafny verify dfyconfig.toml` checks everything.

| file | what it is about |
|---|---|
| `RcuWord.dfy` | the reader's word on 64-bit vectors: nest count, phase bit, the two tests of the scan |
| `RcuGrace.dfy` | readers, updaters, registration and the two scans as a transition system; its invariant |
| `RcuSafety.dfy` | what grace periods guarantee: one of them, two of them, and which sections each covers |
| `RcuLimits.dfy` | the exact condition under which a single grace period misses a section |
| `RcuProgress.dfy` | termination of the second scan, who has to move for a grace period to end, and the order of the registry |
| `RcuClient.dfy`, `RcuFree.dfy` | replace, synchronize, free: no reader holds a freed object; what is freed, by whom, and once |
| `RcuRegistry.dfy` | the list of nodes on the heap, relinked through a pointer to a pointer |
| `RcuList.dfy`, `ListProgress.dfy` | lists that readers walk while a writer adds, removes and reclaims nodes; what each can do while the others stand still |
| `Barrier.dfy`, `ThreadCluster.dfy`, `ClusterProgress.dfy` | the barrier over unboundedly many episodes; rendezvous and lifetime of the shared barrier object; every cluster can get to its end |
| `WorkPool.dfy`, `WorkServe.dfy` | submission, workers and shutdown of a pool; workers and submitters that are left alone |
| `WorkRoute.dfy`, `WorkCpus.dfy` | which queue a work goes to; one queue per CPU |
| `WorkWake.dfy`, `WakeProgress.dfy` | sleeping and waking; that it gets to its end |
| `WorkJoin.dfy` | taking queues out with one grace period: late works, and a grace period that cannot end |
| `WorkReap.dfy` | the passes of the joiner, and the freeing of what they have taken out |
| `WorkGrace.dfy`, `WorkMissed.dfy` | the pool and the protocol of `RcuGrace.dfy` together; a run of both to a late work |
| `Ring.dfy` | the circular doubly linked list on the heap |
| `Seqs.dfy` | lists without repetition, and sizes of sets |
| `Phases.dfy`, `PhaseOrder.dfy` | what `precede` and `succeed` make of the phases, and in which order |
| `Taskflow.dfy` | the same on the heap, with the fields of the tasks |
| `TaskAwait.dfy`, `TaskflowAwait.dfy` | `await` against the workers; what it makes of a taskflow on the heap |

## What came out

Some of what the code gives is not what one would expect, and is stated exactly instead.

* **One `mthpc_synchronize_rcu` does not wait for every earlier reader.** The load of `data->gp_seq` and
  the store into the node are two steps (`include/mthpc/rcu.h:65`), and both scans compare with the
  phase before the flip (`src/rcu/rcu.c:63-70`). `RcuLimits.Escapes` says which sections a single grace
  period can miss; `NonEscapingIsWaitedFor` and `EscapingIsMissed` are the two directions, and
  `EscapingSectionWitness` is a run that leads there. Two grace periods always suffice.
  A client that frees after one call, as `src/rcu/test.c` does, is safe exactly for the sections that do
  not escape (`RcuClient.OneSynchronizeIsSafe`); from any state with an escaping section a reader can
  come to hold a freed object (`EscapingReaderHoldsFreed`, `FreedObjectHeldWitness`).
* **The joiner of a pool makes one such call per queue, with the queue locked**
  (`src/workqueue/workqueue.c:380-390`). That has two consequences.
  A section that the call misses can still put a work into the queue, which is then inactive and freed:
  when the call returns this can happen if and only if such a section has found the queue or can still
  find it (`WorkJoin.AddsAfterReturnIff`), it does happen in a run of the pool and the protocol together
  (`WorkMissed.LateWorkReachable`), and without such a section the queue stays empty
  (`TakenOutStaysEmpty`).
  A section that the call waits for and that has found the queue waits for the lock that the joiner
  holds: the call can return if and only if there is none, and otherwise both wait forever
  (`ReturnsIff`, `BlockedWitness`).
* **The first scan is not used in the safety proof.** The invariant says nothing about how far it got;
  what makes two grace periods enough is the second scan together with the alternation of phases.
* **A registered node is shared by two threads** whose `pthread_self()` agree in the low 32 bits, because
  `mthpc_rcu_add` takes an `unsigned int` (`SharedNodeIff`). The protocol is modelled for distinct nodes.
* **The second lookup of a queue compares an unmasked CPU number with a masked one**
  (`src/workqueue/workqueue.c:278`): callers outside -1..3 can create several queues for one CPU, and no
  others can (`DuplicateIff`).
* **After its first wake-up a worker never sleeps again** with the fallback futex, since the word never
  returns to 0 (`NeverParksAgain`).
* **`precede` and `succeed` with several tasks that have to create a main task** make one phase of each
  task and record all of them on the first (`src/taskflow/taskflow.c:258`, `:313`). The tasks are then
  one phase away from the given task, and counts and flags stay right, if and only if one task was moved
  or another task of a later (earlier) phase stays (`SucceedPlaces`, `PrecedePlaces`, `SucceedTasks`,
  `PrecedeTasks`). Otherwise the first new main task counts all of them, and `await` never returns
  (`TaskflowAwait.SucceedHangs`, `PrecedeHangs`).
* **Moving a main task that has sub-tasks leaves stale fields behind**: the sub-task that takes its place
  keeps the flag of a sub-task, and all of them keep the old main task (`src/taskflow/taskflow.c:157-170`).
  `Taskflow.Off` keeps account of them. Later calls that move or name none of these tasks, nor move a
  main task whose count is one when it should not be or the other way round, still do to the rings what
  they should (`Turns`, `RightTask`); moving the task that took the place breaks the rings
  (`DetachStale`). With phases [A] [B C D], `succeed(A, {B, C})` is such a call.
* **The order of moved tasks is not the order of the call.** A task that is the last one of its phase is
  collected at the end, any other one at the front (`src/taskflow/taskflow.c:144`, `:155`, `:170`):
  `CollectedOrder` says which of two moved tasks comes first, `SucceedOrder`, `PrecedeOrder` and
  `PhasesOrder` what that makes of the phases.
* **A count that is too small can make `await` hang as well**, not only return early: the wait ends on
  equality, and the counter can pass the count before it is looked at (`SmallCanHang`, `PassedHangs`).
* **A sub-task created under a sub-task** is counted by its parent and not by the main task of the phase,
  whose count is then too small (`SubTaskCreate`).

## Model

| member | source | states |
|---|---|---|
| RcuWord.ActiveIsDepth | src/rcu/rcu.c:44 | the nest-mask test holds exactly when the nesting depth kept in the low half is not zero |
| RcuWord.OtherPhaseIsBit | src/rcu/rcu.c:47 | the xor test holds exactly when the two words differ in the phase bit |
| RcuWord.IncWord | include/mthpc/rcu.h:68-69 | below the maximal depth a nested lock raises the depth by one and leaves the phase bit alone |
| RcuWord.DecWord | include/mthpc/rcu.h:80-85 | an unlock lowers the depth by one and leaves the phase bit alone |
| RcuWord.GpWords | src/rcu/rcu.c:67 | after n flips the global word is 1, with the phase bit exactly when n is odd |
| RcuGrace.NextInv | src/rcu/rcu.c:34-168 | every step of every reader, updater, registration and removal keeps the invariant of the protocol |
| RcuGrace.FlipGpInv | src/rcu/rcu.c:65-68 | the flip, after the first and before the second scan, keeps the invariant |
| RcuGrace.ScanKeepsSection | src/rcu/rcu.c:40-50 | the second scan cannot pass a node whose section the running grace period has to wait for |
| RcuSafety.RunInv | src/rcu/rcu.c:53-75 | the invariant holds in every state of every run |
| RcuSafety.Waited | src/rcu/rcu.c:61-70 | a section that a completed later grace period did not wait for stored the opposite phase, and that grace period is the only such one |
| RcuSafety.TwoGracePeriodsSuffice | src/rcu/rcu.c:53-75 | of two grace periods called after a section's outermost store, the later one returns only after the section has ended |
| RcuSafety.OneGracePeriodSuffices | src/rcu/rcu.c:61-70 | one is enough for a section whose store found its own sample current |
| RcuSafety.NoFlipBetweenLoadAndStore | include/mthpc/rcu.h:63-66 | one is enough if no flip falls between the section's own load and its own store |
| RcuSafety.ConsecutivePhasesDiffer | src/rcu/rcu.c:61-67 | consecutive grace periods wait for opposite phases |
| RcuSafety.GlobalWord | src/rcu/rcu.c:67 | in every run `data->gp_seq` is 1 or 1 with the phase bit, and the bit is the parity of the flips |
| RcuSafety.SectionDepth | include/mthpc/rcu.h:55-86 | throughout a section the low half of the node's word is the nesting depth and the phase bit is that of the outermost store |
| RcuSafety.SoloGracePeriod | src/rcu/rcu.c:53-75 | with the lock free and no registered reader in a section of the current phase, an updater alone can complete a grace period |
| RcuLimits.NonEscapingIsWaitedFor | src/rcu/rcu.c:53-75 | every grace period called during a section that does not escape waits for it |
| RcuLimits.CoveredIsWaitedFor | src/rcu/rcu.c:53-75 | the same state by state: what a store that does not escape establishes lasts as long as the section (`CoveredAtStore`, `CoveredStep`), and no completed grace period called during the section has missed it |
| RcuLimits.EscapingIsMissed | src/rcu/rcu.c:53-75 | from every reachable state with an escaping section, a whole grace period can be called and return during it |
| RcuLimits.EscapingSectionWitness | include/mthpc/rcu.h:63-66 | a run in which a thread sleeps between its load and its store through a whole grace period and then is in an escaping section |
| RcuProgress.OldReadersShrink | src/rcu/rcu.c:66-70 | during a second scan no step of any thread makes a reader one of the old phase |
| RcuProgress.SecondScanEnds | src/rcu/rcu.c:66-70 | during a second scan the old readers never grow; once there are none every scan step advances over the fixed registry |
| RcuProgress.RegistryIsFixed | src/rcu/rcu.c:59-72 | the registry does not change while an updater holds the lock, so both scans walk the same list |
| RcuProgress.NoGracePeriodWithoutReader | src/rcu/rcu.c:40-50 | while a registered reader of the current phase does not move, no grace period ends, whatever all updaters do |
| RcuProgress.SoloGracePeriodIff | src/rcu/rcu.c:53-75 | updaters alone can complete a grace period if and only if no registered reader is in a section of the current phase |
| RcuProgress.RegistrationOrder | src/rcu/rcu.c:113-125 | threads stand in the registry, and so are met by the scans, in the order in which they registered |
| RcuProgress.LeavesAlone | src/rcu/rcu.c:130-152 | with the lock free a thread outside a section leaves the registry in three steps of its own, and nothing else changes |
| RcuProgress.JoinsAlone | src/rcu/rcu.c:96-128 | and one that is not registered joins it in three, at the end and with an empty word |
| RcuClient.FreedObjectHeld | src/rcu/test.c:52-60 | a freed object that a reader still holds was freed after one synchronize only, and the reader's section escaped when it stored its sample |
| RcuClient.OneSynchronizeIsSafe | src/rcu/test.c:52-60 | with the one synchronize of that client, no reader whose section does not escape holds a freed object |
| RcuClient.OneSynchronizeIsSafeForCurrent | src/rcu/test.c:52-60 | in particular no reader whose section stored the then current phase |
| RcuClient.EscapingReaderHoldsFreed | src/rcu/test.c:52-60 | from every state with an escaping section that is about to dereference, and an idle writer, a run leads to that reader holding a freed object |
| RcuClient.FreedObjectHeldWitness | src/rcu/test.c:52-60 | a run of that client, from the beginning, in which a reader holds a freed object |
| RcuClient.TwoSynchronizesAreSafe | include/mthpc/rcu.h:100-112 | of a client that calls synchronize twice between replacing and freeing, no reader holds a freed object |
| RcuFree.FreedAfterCalls | src/rcu/test.c:52-60 | an updater frees the object that it replaced last, which was not freed before, after exactly the synchronize calls that it has made in between; that is recorded for good |
| RcuFree.FreedOnce | src/rcu/test.c:52-60 | no two frees of a run, by whatever updaters, free the same object |
| RcuFree.TwoCallsAreSafe | include/mthpc/rcu.h:100-112 | if an updater has made two synchronize calls between replacing an object and freeing it, no reader holds the object ever after |
| RcuRegistry.RcuNode.ReadLock | include/mthpc/rcu.h:55-70 | nested: depth one more, same phase; outermost: the global word is stored |
| RcuRegistry.RcuNode.ReadUnlock | include/mthpc/rcu.h:72-86 | depth one less, same phase |
| RcuRegistry.RcuNode.LockUnlock | include/mthpc/rcu.h:88-98 | a lock and an unlock leave the depth as it was and, inside a section, the phase too |
| RcuRegistry.RcuData.Walk | src/rcu/rcu.c:114-123 | the pointer-to-pointer walk ends at the first node with the id, or at the terminating null pointer |
| RcuRegistry.RcuData.Add | src/rcu/rcu.c:96-128 | appends a fresh node with word 0, or returns the node that has the id already; ids stay distinct, no word and no other node changes |
| RcuRegistry.RcuData.Del | src/rcu/rcu.c:130-152 | removes exactly the node with the id and keeps the order of the others, or reports that there is none |
| RcuRegistry.RcuData.ThreadInit | src/rcu/rcu.c:153-159 | the thread's node is in the list, under an id below 2^32 that differs from the thread's own by a multiple of 2^32 |
| RcuRegistry.FindIs | src/rcu/rcu.c:137-148 | the walk stops at the first occurrence of the id and nowhere else |
| RcuRegistry.SharedNodeIff | src/rcu/rcu.c:96-159 | two registering threads share a node if and only if their ids differ by a multiple of 2^32 |
| RcuList.RunInv | include/mthpc/rculist.h:20-55 | the invariant of the ring, of the removed nodes and of all walkers, in every state of every run |
| RcuList.NeverReclaimed | include/mthpc/rculist.h:14-18 | a reader never stands at, nor hops to, a reclaimed node |
| RcuList.SeenInOrder | include/mthpc/rculist.h:14-18 | a reader sees nodes in list order and none twice |
| RcuList.SeesAllListed | include/mthpc/rculist.h:14-55 | a reader back at the head has seen every node that was listed throughout its walk |
| RcuList.HopBound | include/mthpc/rculist.h:14-55 | over any run, whatever is added and removed meanwhile, a reader sees at most as many nodes in its section as have been published, and hops at most once more |
| RcuList.ReachesHead | include/mthpc/rculist.h:14-55 | at any moment a reader is finitely many hops from the head, at most one per node further on |
| RcuList.RestingRing | include/mthpc/rculist.h:20-55 | with the writer at rest `next` and `prev` are inverse all round the ring, which links the listed nodes in order |
| RcuList.TailAddPlace | include/mthpc/rculist.h:20-41 | a node added before `h`, after its four stores and whatever readers did meanwhile, is between the former `prev` of `h` and `h`, and everything else is as before; at the head it is the last one in the order in which readers see the nodes |
| RcuList.HeadAddPlace | include/mthpc/rculist.h:20-35 | a node added after `h` is between `h` and the former `next` of `h`; at the head it is the first one |
| RcuList.DelPlace | include/mthpc/rculist.h:43-55 | after the three stores of a removal the neighbours of the node link to each other, the node still leads on but not back, and everything else is as before |
| RcuList.ReclaimedStays | include/mthpc/rculist.h:43-55 | a reclaimed node has no link in any later state |
| ListProgress.WalksAlone | include/mthpc/rculist.h:14-18 | at any moment, in the middle of an addition or removal too, a reader alone can enter, walk and leave, and sees exactly the listed nodes |
| ListProgress.WritesAlone | include/mthpc/rculist.h:20-55 | no reader keeps the writer from adding next to any node of the ring or removing any listed one, in four or three stores |
| ListProgress.CanReclaimAll | include/mthpc/rculist.h:43-55 | from every state some run ends with every removed node reclaimed |
| Barrier.RunInv | src/centralized_barrier/centralized_barrier.c:13-35 | the invariant over unboundedly many episodes, with `flag` stored after the unlock |
| Barrier.NoEarlyReturn | src/centralized_barrier/centralized_barrier.c:13-29 | nobody has returned from a k-th call before all have entered theirs |
| Barrier.CallsInStep | src/centralized_barrier/centralized_barrier.c:13-29 | the numbers of completed calls differ by at most one |
| Barrier.CountBounded | src/centralized_barrier/centralized_barrier.c:29-34 | the counter never exceeds the participants and the warning is unreachable |
| Barrier.SomeThreadAdvances | src/centralized_barrier/centralized_barrier.c:17-29 | until all have returned from the same number of calls some thread can advance without a further call |
| Barrier.AdvanceCounts | src/centralized_barrier/centralized_barrier.c:17-29 | each advancing step shortens what is left of a call or completes one |
| Barrier.TooMany | src/centralized_barrier/centralized_barrier.c:29-34 | a caller that names fewer participants than have been counted gives up the lock, warns once and returns without waiting, and leaves count and flag as they are |
| ThreadCluster.RunInv | src/thread/thread.c:36-231 | the invariant over lister, threads, barrier, auto-join work and waiters |
| ThreadCluster.Rendezvous | src/thread/thread.c:85-99 | no thread runs `func` before every thread of every group has finished `init` |
| ThreadCluster.FullTotal | src/thread/thread.c:90-95 | at each of its three accesses, which are steps of their own, a thread finds the barrier object; the number that it loads and later passes to the barrier is the number of threads |
| ThreadCluster.Lifetime | src/thread/thread.c:36-99 | `refcount` is the sum of `nr` over the groups not yet put; each group is put at most once, after all its cleanups; the object is freed at most once, after all of them |
| ThreadCluster.NoUseAfterFree | src/thread/thread.c:36-99 | no thread is in the barrier when the object has been freed |
| ThreadCluster.FreedInTheEnd | src/thread/thread.c:154-231 | when all groups have been put the object has been freed |
| ThreadCluster.PutAtReturn | src/thread/thread.c:36-231 | when `mthpc_thread_async_wait` has dealt with a group, or the joiner has, the group has been put exactly once and no longer has the object |
| ThreadCluster.PutByJoiner | src/thread/thread.c:52-75 | the same in the state in which a put by the joiner ends |
| ThreadCluster.FreedWhenAllReturned | src/thread/thread.c:36-50 | when every group has been waited for or dealt with by the joiner, the object has been freed |
| ThreadCluster.CanBeFreed | src/thread/thread.c:36-231 | from every state in which all threads have run, some run frees the object, however joiner and waiters stand |
| ClusterProgress.CanComplete | src/thread/thread.c:36-231 | from every state whatever some run lists the groups, takes all threads through the barrier and their cleanup, and frees the object |
| ClusterProgress.WaitsAlone | src/thread/thread.c:197-231 | once the threads have run and with the lock free, the steps of the waiter of a group alone bring it to its return, with the group put |
| ThreadCluster.TotalOfCluster | src/thread/thread.c:119-136 | the sum over the groups is the number of threads |
| WorkPool.RunInv | src/workqueue/workqueue.c:181-418 | the invariant over submitters, workers and joiner, whose grace period waits for the sections that do not escape or have been missed once, in every state of every run |
| WorkPool.OnePlace | src/workqueue/workqueue.c:233-304 | every submission is with one submitter or in one queue of the pool; the loser of a creation race leaves its work in the winner's queue only |
| WorkPool.FifoQueue | src/workqueue/workqueue.c:191-230 | done works, the one with the worker and the waiting ones are, in this order, the works put in, each once |
| WorkPool.Counters | src/workqueue/workqueue.c:195-230 | `wq->count` and `wp->count` are exact whenever their locks are free, so the worker's warning is unreachable; a submitter about to add a work finds the queue inactive exactly if its section is one that the joiner's grace period did not wait for |
| WorkServe.IdleSleeps | src/workqueue/workqueue.c:191-199 | at the top of its loop, with the queue active, empty and unlocked: any four steps of the worker leave it asleep and the queue as it was |
| WorkServe.ServesAlone | src/workqueue/workqueue.c:191-209 | the same with works in the queue: any six steps of the worker run the first one, the others stay in order, and it is at the top again |
| WorkServe.NothingLeaks | src/workqueue/workqueue.c:255-301 | a queue that is neither in the pool, nor taken out, nor freed is in the hands of a submitter on the slow path |
| WorkServe.FinishesAlone | src/workqueue/workqueue.c:233-304 | with no lock held by others a submitter finishes on its own, wherever it is; its work is then in a queue |
| WorkRoute.RoutedRight | src/workqueue/workqueue.c:233-304 | in every run a work is only ever in a queue whose CPU is congruent modulo 4 to the one that it was submitted for, unless it was submitted for -1; by the fast hit, the slow hit and creation |
| WorkRoute.HitIff | src/workqueue/workqueue.c:240-250 | a submitter on its walk can take a listed queue if and only if it was asked for -1 or for the queue's CPU modulo 4 |
| WorkJoin.LateWorks | src/workqueue/workqueue.c:233-250 | every work that comes into a queue after it has been taken out is of a section in progress at the unlink that the grace period did not wait for |
| WorkJoin.TakenOutStaysEmpty | src/workqueue/workqueue.c:376-413 | a queue taken out by the joiner is empty, never receives work again and has count 0 when its worker has exited, unless such a section has found it |
| WorkJoin.AddsAfterReturnIff | src/workqueue/workqueue.c:384-390 | when the joiner's grace period has returned, some run puts a work into the queue, inactive by then, if and only if such a section has found it or can still find it |
| WorkJoin.LateWitness | src/workqueue/workqueue.c:384-390 | a run of the pool at whose end a queue taken out and inactive has got a work |
| WorkJoin.ReturnsIff | src/workqueue/workqueue.c:380-386 | the joiner's grace period can return if and only if no section that it waits for has found the queue that the joiner keeps locked |
| WorkJoin.BlockedForever | src/workqueue/workqueue.c:380-386 | otherwise neither of the two ever moves again, in any run |
| WorkJoin.BlockedWitness | src/workqueue/workqueue.c:380-386 | a run from the beginning that ends so |
| WorkRoute.ThreatIff | src/workqueue/workqueue.c:240-250 | which submitters can still put a work into a queue taken out, as `AddsAfterReturnIff` has it, in terms of the CPU that they were asked for |
| WorkReap.PassSeesAll | src/workqueue/workqueue.c:376-392 | when a pass of the joiner ends, it has examined every queue that is still in the pool, and left it there because of its works |
| WorkReap.PassShortens | src/workqueue/workqueue.c:376-392 | every step of the joiner brings the end of its pass closer and nobody else moves it away |
| WorkReap.PassAlone | src/workqueue/workqueue.c:376-392 | with nobody in a section and no lock held, a pass runs to its end and takes out exactly the queues without works |
| WorkReap.FreedIsStill | src/workqueue/workqueue.c:394-413 | the worker of a freed queue takes no step |
| WorkReap.CanFreeAll | src/workqueue/workqueue.c:394-413 | from every state after a pass some run frees all queues that have been taken out |
| WorkGrace.ReturnWaits | src/rcu/rcu.c:53-75 | with the grace periods of the protocol: when the joiner's call returns, the sections that it is said to wait for have ended |
| WorkGrace.RunRefines | src/workqueue/workqueue.c:376-413 | every run of the pool together with the protocol, a section being stale if it escapes, is a run of the pool as modelled in `WorkPool` |
| WorkMissed.LateWorkReachable | src/workqueue/workqueue.c:376-413 | a run of both together, from the beginning, at whose end a work is in a queue that has been taken out and marked inactive |
| WorkCpus.UniqueQueues | src/workqueue/workqueue.c:240-304 | at most one listed queue per CPU if all callers name a CPU in -1..3 |
| WorkCpus.DuplicateIff | src/workqueue/workqueue.c:243-286 | callers naming one CPU can get two listed queues for it if and only if it is outside -1..3 |
| WorkWake.RunInv | src/workqueue/workqueue.c:133-162 | the invariant over words, workers, producers and the mutex |
| WorkWake.NoLostWakeUp | src/futex.c:22-40 | a parked worker, or one about to park, is owed the write of 1 by the creator of its queue, or a broadcast by somebody who wrote it |
| WorkWake.NeverParksAgain | src/workqueue/workqueue.c:133-162 | the word never returns to 0, and a worker outside the wait then never parks again |
| WorkWake.EverybodyWakes | src/futex.c:22-40 | once no producer is in the middle of anything, every step of a waiting worker shortens its wait and some worker can take one until all are out |
| WorkWake.WaitsForTheWord | src/workqueue/workqueue.c:133-155 | a worker that has entered the wait is out of it again only when its word is 1 |
| WorkWake.ParksAlone | src/futex.c:22-40 | with the word 0 and the mutex free a worker that reads the word can take four steps, and any four of its own leave it parked and everything else as it was |
| WorkWake.WordIsWritten | src/workqueue/workqueue.c:157-162 | the word of a queue is 1 if and only if somebody has written it |
| WorkWake.SubmissionWakes | src/workqueue/workqueue.c:306-319 | every submission, to an old queue or a new one, has written the word and then broadcast before it returns |
| WakeProgress.GoesToSleep | src/workqueue/workqueue.c:133-155 | any five steps of a worker outside the wait, with the word 0 and the mutex free, leave it parked |
| WakeProgress.SpuriousParksAgain | src/futex.c:28-29 | a spurious wake-up with the word 0 ends, after four steps, in the very same state |
| WakeProgress.SubmitsAlone | src/workqueue/workqueue.c:157-162 | a submission left alone sets the word of its queue, wakes all parked workers, and changes nothing else |
| WakeProgress.CreatesAlone | src/workqueue/workqueue.c:286-319 | so does one that creates its queue, with a new word 1 and a worker awake |
| WakeProgress.AllSettle | src/futex.c:22-40 | from every state some run ends with no submission under way and no worker in the wait |
| Ring.Inverse | include/mthpc/list.h:17-20 | `next` and `prev` are inverse to each other around a linked ring |
| Ring.Unique | include/mthpc/list.h:17-20 | the pointers determine the ring: from a given node on there is one sequence |
| Ring.Insert | include/mthpc/list.h:33-41 | the node comes between the last and the first node of the ring |
| Ring.Add | include/mthpc/list.h:43-47 | the node comes right after the head |
| Ring.AddTail | include/mthpc/list.h:49-53 | the node comes right before the head |
| Ring.Del | include/mthpc/list.h:55-66 | the rest of the ring closes up and the node is a ring of its own |
| Ring.Replace | include/mthpc/list.h:68-75 | the new node takes the exact place of the old one, also in a ring of one |
| Ring.ReplaceInit | include/mthpc/list.h:77-82 | the same, and the old node is a ring of its own |
| Ring.Move | include/mthpc/list.h:84-89 | the node leaves its ring and comes first in the other one |
| Ring.MoveWithin | include/mthpc/list.h:84-89 | the node comes first in its own ring |
| Ring.Splice | include/mthpc/list.h:91-110 | the nodes of one ring but its head come right after the head of the other, in order |
| Ring.SpliceTail | include/mthpc/list.h:112-117 | they come right before it |
| Phases.OthersStay | src/taskflow/taskflow.c:232-339 | `precede` and `succeed` leave order and grouping of all other tasks as they were |
| Phases.SucceedPlaces | src/taskflow/taskflow.c:287-339 | no task is lost or doubled; each new task is exactly one phase after the given one if and only if one was moved or a task of a later phase stays |
| Phases.PrecedePlaces | src/taskflow/taskflow.c:232-285 | the same, one phase before, or a task of an earlier phase |
| Phases.GatherOrder | src/taskflow/taskflow.c:129-176 | collecting tasks keeps the order of the phases of the others, and main tasks remain main tasks |
| Phases.KeepRemoved | src/taskflow/taskflow.c:153-171 | taking one task out, be it a main task with sub-tasks, keeps the others in order and grouping |
| PhaseOrder.CollectedOrder | src/taskflow/taskflow.c:129-176 | of two collected tasks the later one of the call comes later if and only if all others of its phase were taken out before it |
| PhaseOrder.SucceedOrder | src/taskflow/taskflow.c:325-338 | with a later task that stays, the moved tasks come right after the main task of the next phase, before its other tasks, in that order |
| PhaseOrder.PrecedeOrder | src/taskflow/taskflow.c:270-284 | with an earlier task that stays, they come after all others of the previous phase, in that order |
| PhaseOrder.PhasesOrder | src/taskflow/taskflow.c:249-324 | otherwise they are phases of their own, in that order |
| Taskflow.UnlinkSub | src/taskflow/taskflow.c:141 | a sub-task leaves the ring of its phase; all other rings are untouched |
| Taskflow.UnlinkMain | src/taskflow/taskflow.c:153-156 | a main task without sub-tasks leaves the main ring |
| Taskflow.Promote | src/taskflow/taskflow.c:157-170 | when a main task with sub-tasks leaves, the first sub-task takes its exact place in the main ring and leads the others in order |
| Taskflow.Detach | src/taskflow/taskflow.c:137-175 | one round, for a task whose flag, main task and count tell its place: rings exact afterwards, fields as `OffPut` has them |
| Taskflow.DetachStale | src/taskflow/taskflow.c:140-144 | one round for a main task whose flag is stale: the rings are not those of the phases without it |
| Taskflow.TurnOk | src/taskflow/taskflow.c:137-175 | a round makes no count wrong, and flags and main tasks exactly if it moves a main task away from its sub-tasks |
| Taskflow.RlistDel | src/taskflow/taskflow.c:129-176 | the loop: the collected tasks hang in the local list in the order given by `Phases.Gather`, and the fields are as `OffGather` has them |
| Taskflow.GatherFlags | src/taskflow/taskflow.c:129-176 | after the loop counts are right exactly if they were, flags and main tasks exactly if moreover no main task was moved away from its sub-tasks |
| Taskflow.SucceedTasks | src/taskflow/taskflow.c:287-339 | the rings become those of `Phases.Succeed` and the fields those of `OffMoved`; counts are right exactly if they were and at most one task was moved or a later task stays, flags and main tasks exactly if moreover no main task was moved away from its sub-tasks; the number of tasks stays |
| Taskflow.PrecedeTasks | src/taskflow/taskflow.c:232-285 | the same for `Phases.Precede` and earlier tasks |
| Taskflow.AddToPhase | src/taskflow/taskflow.c:321-338 | the branch with a neighbouring main task: the tasks learn it, join its sub-tasks, and it counts them |
| Taskflow.AddAsPhases | src/taskflow/taskflow.c:305-320 | the branch without: every task becomes a phase; the first one counts all of them, and the others keep the flag of a sub-task (`OffSpread`) |
| Taskflow.Relink | src/taskflow/taskflow.c:315-322 | the loop moves all tasks from one local list to the other, in order |
| Taskflow.TaskCreate | src/taskflow/taskflow.c:341-355 | a new phase at the end, counted in `nr_task`; nothing else becomes right or wrong |
| Taskflow.SubTaskCreate | src/taskflow/taskflow.c:357-376 | a new sub-task before its parent in the ring, at the end for a main task; counts, flags and main tasks stay right exactly if the parent is a main task |
| TaskflowAwait.AwaitIff | src/taskflow/taskflow.c:400-447 | on a taskflow without a count too small `await` never leaves a phase early, and it can return if and only if all counts are right |
| TaskflowAwait.AwaitClean | src/taskflow/taskflow.c:433-446 | with right counts and a right `nr_task` no run of it gives a warning, and on return all tasks have completed |
| TaskflowAwait.SucceedHangs | src/taskflow/taskflow.c:305-320 | after `succeed` of several tasks with no later task that stays, `await` never gets beyond the first new phase |
| TaskflowAwait.PrecedeHangs | src/taskflow/taskflow.c:250-268 | the same after `precede` with no earlier task that stays |
| TaskAwait.RunInv | src/taskflow/taskflow.c:400-447 | the invariant over the awaiting thread, the counter and all tasks |
| TaskAwait.PhaseOrder | src/taskflow/taskflow.c:410-433 | unless the first inexact count is too small, no task is handed out or has begun before all tasks of the earlier phases have completed |
| TaskAwait.CountExact | include/mthpc/completion.h:19-37 | under the same condition `cnt` is the number of finished tasks of the current phase and not above `nr` |
| TaskAwait.NoLateCompletion | include/mthpc/completion.h:19-30 | under the same condition no task is under way while the counter is initialised again |
| TaskAwait.OnReturn | src/taskflow/taskflow.c:433-446 | under the same condition a phase is left only if its count is exact, and on return every task has been started exactly once, in the order of the phases, and has completed, their number being `nr_completed`; the first warning is never given, the second one exactly if `nr_task` is another number |
| TaskAwait.Stuck | src/taskflow/taskflow.c:414-433 | a phase whose recorded count is too large is never left |
| TaskAwait.ReturnsIff | src/taskflow/taskflow.c:410-446 | under the same condition `await` can return if and only if all counts are exact |
| TaskAwait.LeavesEarlyIff | src/taskflow/taskflow.c:410-433 | some run leaves a phase with a task unfinished if and only if the first count that differs from the size of its phase is too small |
| TaskAwait.Warnings | src/taskflow/taskflow.c:433-446 | whatever the counts, `nr_completed` is the number of tasks of the phases left behind, and a warning is given for each of these with another count, and at the end if the sum is not `nr_task` |
| TaskAwait.PassedHangs | include/mthpc/completion.h:31-37 | once the counter has gone beyond a count the phase is never left |
| TaskAwait.SmallCanHang | src/taskflow/taskflow.c:410-433 | if the first count that differs from the size of its phase is too small, some run of `await` gets there |

## Left out

- Weak memory: `consume`, `relaxed` and the fences; all interleavings are sequentially consistent.
- `src/safe_ptr/safe_ptr.c`, `src/mlrcu/mlrcu.c`, `mthpc_call_rcu` and the benchmarks.
- `mthpc_synchronize_rcu_all` and several `mthpc_rcu_data` at once; each one is a protocol of its own.
- Exhaustion of memory, and pthread calls that fail; printing, stack dumps, constructors and destructors.
- The futex system call of Linux, CPU affinity and `sched_getcpu`, whose result is a parameter.
- Nodes of readers are told apart by their thread, not by their id: the truncation of ids to 32 bits appears in `RcuRegistry` only.
- A reclaimed list node that is used again counts as a new node.
- The grace period before a list node is reclaimed in `RcuList` is the client's, and waits for all sections running at the unlink; `RcuLimits` says when a single call does.
- Where a walk over the pool stands: a submitter may meet any listed queue, and any queue that was unlinked during its section. What threads do with the memory of a queue after it has been freed: it is modelled as if it stayed as it was.
- Sections of a submitter that are nested in a section of its caller.
- Termination of `mthpc_workqueues_join` over all its passes: it polls until the pool is empty, so it need not end while works come in. One pass is covered (`WorkJoin.ReturnsIff`, `WorkReap.PassShortens`, `PassAlone`), and so is the freeing after it (`CanFreeAll`).
- A wake-up of a queue that the joiner has freed meanwhile: queue numbers are never reused, so `mthpc_wq_futex_wake` always finds its word.
- Works that are submitted again while they are still queued, or from inside another work.
- `nr_group`, the requeueing of the auto-join work, and running an async group twice.
- The tagging of the taskflow pointer with the sub-task bit: two fields of `Taskflow.Task`.
- Taskflow.SucceedTasks: every moved task has to be in the taskflow, named once and not the given task or its main task, and its own fields right on its turn (`Turns`); a task with a stale flag or main task decides by them about pointers of other phases, and `DetachStale` shows what comes of it.
- Taskflow.PrecedeTasks: the same condition.
- Taskflow.DetachStale: for a stale flag with a main task; without one the source writes through a null pointer.
