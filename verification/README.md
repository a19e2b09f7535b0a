# A verified model of libut

libut is a user-level threading runtime with a core-allocation daemon. Processes register with the daemon, which hands
them cores, takes cores back by preemption and gives idle ones away; inside a process, kthreads run user-level threads
from work-stealing queues, fire timers and allocate from per-thread caches over slabs.

This project models the parts of libut whose correctness depends on several structures agreeing, and proves that they
do: over every run, every interleaving or every input. `dafny verify dfyconfig.toml` checks all of it.

| part | files |
|---|---|
| core allocator of the daemon | `core_*.dfy` |
| admission across the daemon's control and dataplane threads | `control.dfy` |
| shared-memory message channels (LRPC) | `lrpc*.dfy` |
| run queues, work stealing, targeted queues, the scheduler as a whole | `runqueue*.dfy`, `targeted.dfy`, `sched.dfy` |
| parking with a floor of spinning kthreads | `park.dfy` |
| timers | `timer*.dfy` |
| per-thread item cache | `tcache*.dfy`, `chains.dfy` |
| slabs | `slab*.dfy`, `chains.dfy` |
| mutex, read-write mutex, barrier | `sync_*.dfy` |
| bitmaps | `bitmap.dfy` |
| page addressing and NUMA nodes | `page.dfy`, `page_nodes.dfy` |
| sequences, sums, 32-bit wrap-around | `collections.dfy`, `wrapping.dfy` |

Each stateful part has three layers. A value-level layer gives the steps as functions on a datatype. A proof layer
shows what every step keeps and concludes about whole runs. An object layer has classes whose fields, arrays and loops
follow the C code, each method proved equal to the value-level step. Lock-free protocols (LRPC, pushing against
stealing, the targeted queue, parking, a slab free under another node's lock) are split into the micro-steps between
which other threads may act; operations that hold the lock they need are one step. Loads and stores are sequentially
consistent, which the acquire and release operations of the source are there to justify. Positions that are `uint32_t`
in the source wrap modulo 2^32 in the model.

## What the code does not do

Some promises hold only under a condition; the model follows the code and states the exact condition.

- Attaching a process adds a core unconditionally (`hwalloc/cores.c`, lines 638-669). Without a guarantee and without an
  idle core this can use up the core a later process's guarantee relies on: `CoreLimits.AttachExact`,
  `CoreCounterexample.GuaranteeLost`. Runs in which every process joins with a guarantee or onto an idle core never
  reach the BUG: `CoreRuns.RunSafe`.
- The bursting flag ignores preemptions in flight, so a process can be preempted below its guarantee:
  `CoreOvertaken.PreemptExact`, `CoreOvertaken.BelowGuarantee`.
- A core ceded while the process waiting for it has been removed is not passed on properly: `CoreLimits.ParkExact`,
  `CoreDetach.ParkFails`. For the same reason not every removed process can be detached: `CoreDetach.DetachExact`,
  `CoreDetach.DetachFails`.
- The admission test adds in 32 bits: `CoreLimits.AdmissionExact`. It is made by the control thread, whose messages the
  dataplane thread reads in batches; a batch drops a message when more are queued than it handles:
  `Control.ReceiveBatch`, `Control.RunAdmitted`, `Control.BurstLosesRemoval`.
- Channel initialisation clears neither the table nor the write-back word: `LrpcMemory.InitialMemoryExact`.
- Joining a kthread compares positions plainly, and the targeted queue indexes seven slots with a wrapping position:
  `RunQueueProof.JoinExact`, `RunQueueRuns.JoinLosesThread`, `Targeted.StoreExact`, `Targeted.ThrowLosesThread`.
- Firing a timer leaves its entry marked armed, so a later cancel takes out another timer, or leaves an empty heap's
  bounds: `TimerRuns.RunDropsExact`, `TimerRuns.CancelExact`, `TimerRuns.BoundsExact`. The source's heap check skips
  position 1: `TimerHeap.CheckExact`.
- Freeing an item to the calling thread's slab node takes the wrong lock when the item belongs to another node. Items
  can then be lost or handed out twice: `SlabRace.FreeSafeExact`, `SlabRace.HandsOutTwice`. Even undisturbed, the page
  may be filed with the wrong node: `Slab.FreeThroughExact`, `SlabRace.FreeThroughSteals`.
- Creating a slab of size zero divides by zero: `SlabMemory.CreateFits`.

## Model

| member | source | states |
|---|---|---|
| CoreGuarantee.ChargesFit | hwalloc/control.c:62-67 | pigeonhole: cores charged to clients, none beyond its guarantee, number at most the admitted sum, and strictly fewer when one client is below its guarantee |
| CoreGuarantee.GuaranteeHolds | hwalloc/cores.c:379-410 | with no idle core and a client below its guarantee, some core of a bursting process is not being preempted yet |
| CoreGuarantee.PickCoreExact | hwalloc/cores.c:354-411 | an idle core is chosen if there is one, otherwise a bursting owner's core nobody waits for; in either case the core the process ran on last if it will do, else the lowest-numbered; the BUG is reached if and only if there is no such core |
| CoreGuarantee.PickCoreSucceeds | hwalloc/cores.c:354-411 | below its guarantee, or with an idle core, a client always gets a core: the BUG is unreachable |
| CoreAdd.PickThreadExact | hwalloc/cores.c:308-346 | which kthread: the front of the idle list for a process that starts or was preempted down to no core, else the core's last or second to last occupant if it is a parked one of the process, else the one parked longest; fails exactly when the idle list is empty |
| CoreAdd.AddCoreSafe | hwalloc/cores.c:569-610 | in the cases its callers allow, adding a core never fails, keeps every invariant, and gives the chosen core to the chosen kthread unless all kthreads are active: at once if the core was idle, and only with no core idle by preempting it |
| CoreMoves.GrantBase | hwalloc/cores.c:474-504 | waking a kthread on an idle core keeps ownership, lists, counters and reference counts consistent |
| CoreMoves.HandOverBase | hwalloc/cores.c:474-504 | handing a ceded core to the kthread waiting for it keeps them consistent, including the count of preemptions in flight |
| CoreMoves.PreemptBase | hwalloc/cores.c:569-610 | starting a preemption keeps them consistent; the victim is another, bursting process |
| CoreMoves.CedeBase | hwalloc/cores.c:257-275 | taking a kthread off its core keeps them consistent |
| CoreMoves.ForgetPrevBase | hwalloc/cores.c:68-84 | dropping a core's previous owner keeps them consistent, releasing the process when that was the last reference |
| CoreMoves.LastReference | hwalloc/ref.h:45-51 | a count that falls to zero belongs to a process that no table, list, core or poll slot names any more |
| CorePark.ParkSafe | hwalloc/cores.c:513-561 | parking a running kthread keeps every invariant and passes its core on: to the waiter, else to the last occupant's process, the one before, or the head of the overloaded list, whichever wants it first, if it has a kthread to spare; it stays idle only otherwise |
| CoreLimits.AttachExact | hwalloc/cores.c:638-669 | attaching an admissible process succeeds and keeps every invariant if and only if it has a guarantee of its own, or a core is idle, or it has no kthread |
| CoreLifecycle.FirstKthread | hwalloc/cores.c:311-327 | the first kthread woken for a new process is its kthread 0 |
| CoreLifecycle.FreeKthreadsSafe | hwalloc/cores.c:674-684 | the loop of cores_free_proc parks every kthread of a leaving process without a BUG |
| CoreDetach.DetachExact | hwalloc/dataplane.c:37-60 | detaching a process that has been marked removed succeeds and keeps every invariant if and only if none of its kthreads waits for a core and no removed process waits for one of its cores |
| CoreDetach.DetachFails | hwalloc/dataplane.c:37-60 | a run from boot after which detaching a client that has just been marked removed ends in a BUG or breaks the invariant |
| CoreOvertaken.PreemptExact | hwalloc/cores.c:596-602 | a preemption leaves its victim, counting preemptions in flight, at or above its guarantee if and only if the victim was to keep more than its guarantee before |
| CoreOvertaken.BelowGuarantee | hwalloc/cores.c:379-410 | a run from boot on three cores after which a client with guarantee 1 has both its cores preempted |
| CoreAdd.SetOverloadedInv | hwalloc/cores.c:127-135 | marking a client overloaded keeps list, flag and every other structure in agreement, whether or not it was marked |
| CoreAdd.ClearOverloadedInv | hwalloc/cores.c:140-147 | so does taking the mark away |
| CoreAdd.WakeParked | hwalloc/cores.c:474-504 | waking a parked kthread on an idle core nobody waits for reaches no BUG and is a grant of that core |
| CorePark.NobodyPasses | hwalloc/cores.c:420-467 | a ceded core nobody waits for is taken exactly when some process is overloaded and the one it is offered to has an idle kthread, by the kthread PickThreadExact describes |
| CorePark.NobodySettles | hwalloc/cores.c:420-467 | whatever the choice for a ceded core nobody waits for, no BUG is reached, everything is consistent afterwards and no other core's history has changed |
| CorePark.HandOverSettles | hwalloc/cores.c:420-504 | passing on a ceded core whose waiter stays reaches no BUG, ends the wait, keeps everything consistent and changes no other core's history |
| CoreMoves.CedePolled | hwalloc/defs.h:143-151 | after the last poll slot moves into the freed one, the polling array again holds exactly the unparked kthreads, each at its index |
| CoreMoves.ReservePolled | hwalloc/defs.h:130-137 | so it does after a kthread is appended |
| CoreInvariant.ActivateOk | hwalloc/cores.c:226-250 | activating a parked kthread keeps active list, idle list and availability bitmap a partition with exact indices |
| CoreInvariant.DeactivateOk | hwalloc/cores.c:257-275 | so does taking an active one out by moving the last into its place; it goes to the front of the idle list |
| CoreBits.WithBitCores | hwalloc/cores.c:68-96 | setting or clearing a bit of the 256-bit availability map adds or removes exactly that core |
| CoreBits.SearchCores | hwalloc/cores.c:392-395 | the word-wise bitmap search finds the lowest available core |
| CoreRuns.StepSafe | hwalloc/cores.c:738-770 | each of the daemon's steps succeeds and keeps the invariant in every state that satisfies it |
| CoreRuns.RunSafe | hwalloc/cores.c:354-610 | in every run from boot no step reaches a BUG and every state satisfies the invariant |
| CoreRuns.ExactlyOnePlace | hwalloc/cores.c:420-610 | an unparked kthread either runs on its core or waits for it, not both, and is on no other core |
| CoreRuns.SpareExact | hwalloc/cores.c:750-750 | active minus in-flight preemptions never wraps in unsigned 32-bit arithmetic |
| CoreRuns.PolledCount | hwalloc/defs.h:130-151 | the number of polled kthreads is the number of busy cores plus the number of pending preemptions |
| CoreRuns.InMemoryWhileNamed | hwalloc/defs.h:104-117 | the reference count is exactly table membership plus naming history slots plus polled kthreads, and the process is in memory exactly while it is positive |
| CoreRuns.SendSafe | hwalloc/rx.c:22-41 | a packet for a process without a core gives it one if it has a guarantee or a core is idle, and marks it overloaded otherwise; a process with a core is left alone |
| CoreRuns.SendTarget | hwalloc/rx.c:22-41 | a packet is queued to a kthread of the process that has a core or waits for one, or else to the one that is woken next, whichever core it is given |
| CoreLimits.ParkExact | hwalloc/cores.c:513-561 | parking keeps the invariant if and only if the process waiting for the core has not been removed |
| CoreLimits.RemovedWaiterBreaks | hwalloc/cores.c:420-467 | passing on a core whose waiter was removed ends in a BUG or leaves an idle core with a waiter |
| CoreDetach.ParkFails | hwalloc/cores.c:513-561 | a run from boot after which a running kthread cannot be parked safely |
| Control.RunAdmitted | hwalloc/control.c:62-67 | in every run of control and dataplane threads in which no disconnection was lost, the guarantees of the dataplane's clients, with those of the next to attach, fit the cores |
| Control.ReceiveBatch | hwalloc/dataplane.c:65-92 | a batch handles every message it takes if and only if at most four are queued; otherwise it takes one more and drops it |
| Control.BurstLosesRemoval | hwalloc/dataplane.c:72-73 | for every number of cores a run in which a dropped disconnection lets the guarantees exceed the cores |
| CoreLimits.JoinWithoutGuaranteeExact | hwalloc/cores.c:638-669 | without a guarantee and without an idle core, attaching succeeds if and only if some core can be preempted |
| CoreLimits.AdmissionExact | hwalloc/control.c:62-67 | the 32-bit admission test admits only what fits if and only if its sum does not wrap |
| CoreLimits.AdmissionWraps | hwalloc/control.c:62-67 | a guarantee of 2^32 - 1 is admitted on four cores |
| CoreCounterexample.GuaranteeLost | hwalloc/cores.c:638-669 | three admissible processes with guarantees 0, 0 and 1 attached in turn to one core reach the BUG |
| CoreAllocator.Allocator.PickCore | hwalloc/cores.c:354-411 | on the bitmap words, the bitmap search and the scan for a victim find what the specification finds; none is the BUG |
| CoreAllocator.Allocator.AddCoreTo | hwalloc/cores.c:569-610 | cores_add_core fails exactly where its specification reaches a BUG, otherwise equals it; below the guarantee or with an idle core it succeeds and keeps the invariant |
| CoreAllocator.Allocator.ParkKthread | hwalloc/cores.c:513-561 | cores_park_kthread equals its specification, and keeps the invariant when whoever waits for the core has not been removed |
| CoreAllocator.Allocator.AdjustAssignments | hwalloc/cores.c:738-770 | the first loop is a run of one step per client, the second a run of one step per process on the overloaded list the first one left |
| CoreAllocator.Allocator.Join | hwalloc/cores.c:638-669 | dp_clients_add_client and cores_init_proc equal their specification, BUG included; they keep the invariant exactly under the condition of AttachExact |
| CoreAllocator.Allocator.Depart | hwalloc/dataplane.c:37-60 | the client table is compacted by swap-removal and the process marked killed |
| CoreAllocator.Allocator.FreeProc | hwalloc/cores.c:674-684 | the loop of cores_free_proc equals its specification |
| CoreAllocator.Allocator.Send | hwalloc/rx.c:22-41 | equals its specification and keeps the invariant |
| CoreAllocator.Allocator.AdjustOne | hwalloc/cores.c:745-760 | one turn of the first loop of cores_adjust_assignments is an allowed step |
| CoreAllocator.Allocator.GrantOne | hwalloc/cores.c:764-769 | so is one turn of the second |
| CoreAllocator.Allocator.Leave | hwalloc/dataplane.c:25-60 | dp_clients_remove_client as a whole equals its specification, keeps the invariant and forgets the client |
| CoreRuns.BootInv | hwalloc/cores.c:775-851 | the state after cores_init satisfies the invariant |
| CoreRuns.AdjustSafe | hwalloc/cores.c:738-760 | serving a client succeeds and keeps the invariant; a congested one below its guarantee with a kthread to spare is given a core, one at or above it is put in front of the overloaded list, and otherwise nothing changes |
| CoreRuns.CalmedExact | hwalloc/cores.c:746-752 | before that the overloaded mark is taken away exactly when the client keeps at least one core once the preemptions in flight are carried out |
| CoreRuns.SpareSafe | hwalloc/cores.c:762-769 | while a core is idle an overloaded process with a kthread to spare is given one, with the invariant kept; with none idle nothing changes |
| CoreRuns.InflightWithinActive | hwalloc/cores.c:750-750 | preemptions in flight never exceed active kthreads |
| CoreGuarantee.NextPreemptableFirst | hwalloc/cores.c:397-406 | the search for a victim finds the first core of a bursting owner nobody waits for, whenever there is one |
| LrpcProof.NeverOverwritesUnread | inc/base/lrpc.h:52-67 | the slot a sender is writing is none of the unread ones |
| LrpcProof.ParityExact | inc/base/lrpc.h:133-150 | the receiver's parity test succeeds exactly when a published message is unread, also after the positions wrap |
| LrpcProof.SlowPathAssertion | base/lrpc.c:10-27 | when the slow path finds the window still closed it is closed by exactly the table size |
| LrpcProof.StepKeeps | inc/base/lrpc.h:52-162 | every micro-step of sender and receiver keeps the channel's invariant |
| LrpcProof.RunRefinesFifo | inc/base/lrpc.h:52-150 | under every interleaving the messages received are a prefix of those sent, unaltered and in order |
| LrpcProof.PolledLengthExact | inc/base/lrpc.h:93-108 | right after a poll the cached length is the exact number of unconsumed messages, so zero means all were consumed |
| LrpcProof.CachedValuesSafe | inc/base/lrpc.h:79-96 | without a poll the cached length is never too small and the cached window never too large |
| LrpcMemory.InitialMemoryExact | base/lrpc.c:38-71 | every run from initialisation delivers in order exactly what was sent if and only if all parity bits of the table and the write-back word were clear |
| LrpcMemory.DirtySlotDelivers | base/lrpc.c:38-71 | whichever slot has its parity bit set, some run delivers more messages than were sent |
| LrpcMemory.DirtyWriteBackDelivers | base/lrpc.c:38-71 | whatever non-zero value the write-back word has, some run overwrites the first message before it is read and delivers a mixture |
| LrpcChannel.Channel.Send | inc/base/lrpc.h:52-67 | an undisturbed send appends to the queue or reports a full one |
| LrpcChannel.Channel.SendSlow | base/lrpc.c:10-27 | the slow path appends exactly when the refreshed window is open |
| LrpcChannel.Channel.Recv | inc/base/lrpc.h:133-150 | an undisturbed receive takes the head of the queue, or reports an empty one |
| LrpcChannel.Channel.Empty | inc/base/lrpc.h:156-162 | the emptiness test tells whether the queue is empty |
| LrpcChannel.Channel.PolledLength | inc/base/lrpc.h:93-108 | poll and cached length give the queue's length |
| Wrapping.WrapsLtExact | inc/base/stddef.h:139-142 | the wrap-safe comparison is the plain one for values at most 2^31 apart |
| RunQueueProof.LengthExact | runtime/sched.c:156-183 | head minus tail modulo 2^32 is the number of queued threads, between 0 and 32 |
| RunQueueProof.FillMissesWindow | runtime/sched.c:536-559 | the slot an unlocked push writes is none of those a thief may be copying |
| RunQueueProof.CommitKeeps | runtime/sched.c:182-198 | a steal takes exactly the oldest half rounded up of what the thief saw, in order, and leaves the rest in order |
| RunQueueRuns.OverflowIsQueue | runtime/sched.c:150-222 | the overflow list is a queue: spilled and thrown threads go to its back, drained, stolen and collected ones come off its front |
| RunQueueProof.DrainKeeps | runtime/sched.c:150-163 | draining moves the front of the overflow list behind the queued threads until the list is empty or the ring full |
| RunQueueProof.StepKeeps | runtime/sched.c:150-222 | every micro-step of owner, thieves, throwers and joiners keeps the ring sound |
| RunQueueProof.JoinExact | runtime/sched.c:410-418 | join_kthread's plain comparison drains the whole ring if and only if the head has not wrapped past the tail |
| RunQueueRuns.JoinLosesThread | runtime/sched.c:410-418 | a run reaches a ring with one queued thread that a join does not collect |
| RunQueueRuns.StepIsQueue | runtime/sched.c:150-222 | each step takes threads off the front and adds them at the back only |
| RunQueueRuns.RunIsFifo | runtime/sched.c:150-222 | in every run the threads that left, then those queued, are those that entered, in order |
| RunQueueRuns.Balance | runtime/sched.c:150-222 | each step changes what the ring holds by exactly the threads given and taken |
| RunQueueRuns.ShadowDifference | runtime/sched.c:298-298 | between operations the published counters' difference equals the ring's, whatever resets happened |
| RunQueueRuns.CongestionExact | hwalloc/cores.c:697-718 | whenever the polls come, the congestion test is true exactly when a thread counted as queued at the previous poll is still counted as queued, if fewer than 2^31 younger ones left |
| RunQueueRuns.CountedExact | runtime/sched.c:182-195 | the counters miss at most the thread just pushed and include at most those a thief has just taken |
| RunQueueRuns.CongestionBetween | hwalloc/cores.c:697-718 | between such updates, counted as queued is queued |
| RunQueueKthread.RobbedExact | runtime/sched.c:165-222 | an undisturbed steal removes exactly the loot from the victim |
| RunQueueKthread.RunQueueObject.Ready | runtime/sched.c:536-559 | appends to the ring, or to the overflow list exactly when the ring is full |
| RunQueueKthread.RunQueueObject.TakeNext | runtime/sched.c:463-468 | pops the oldest thread |
| RunQueueKthread.RunQueueObject.DrainOverflow | runtime/sched.c:150-163 | the loop equals the specified drain |
| RunQueueKthread.RunQueueObject.CopyFrom | runtime/sched.c:188-190 | the copy loop brings over the victim's oldest threads in order |
| RunQueueKthread.RunQueueObject.StealFrom | runtime/sched.c:165-222 | loot, remaining ring and remaining overflow list together are the victim's threads, in order |
| RunQueueKthread.RunQueueObject.CollectRing | runtime/sched.c:410-418 | the drain loop of join_kthread collects the threads from tail to head by plain comparison |
| RunQueueKthread.RunQueueObject.Surrender | runtime/sched.c:410-418 | a join returns ring and overflow list in order when the head has not wrapped past the tail; otherwise only the overflow list, leaving queued threads behind |
| Targeted.StepKeeps | runtime/sched.c:587-597 | the targeted queue stays a queue, across wraps of its positions, when the owner's unlocked pop comes between a thrower's test and publication and no store clashes |
| Targeted.Balance | runtime/sched.c:441-449 | its steps conserve threads |
| Targeted.FullExact | runtime/sched.c:590-594 | a throw finds the targeted queue full exactly when seven threads are in it |
| Targeted.WrappedSlotExact | runtime/sched.c:590-594 | a wrapped position names the right one of seven slots exactly when the number of wraps is a multiple of seven |
| Targeted.SharedSlot | runtime/sched.c:590-594 | two positions fewer than seven apart share a slot if and only if they are four apart and the later one is among the first four after a wrap |
| Targeted.StoreExact | runtime/sched.c:590-594 | a push of a thread that is not queued keeps the queue intact if and only if the head is not among the first four after a wrap with four or more queued |
| Targeted.ThrowLosesThread | runtime/sched.c:590-594 | a run reaches a queue of four whose oldest thread the next push overwrites |
| Sched.StepConserves | runtime/sched.c:279-369 | each step of each kthread (ready, throw, drain, steal, pop, switch, park, join) conserves every thread |
| Sched.FreshHoldsOnce | runtime/sched.c:240-260 | a system at start-up is sound and holds each sleeping thread exactly once |
| Sched.StepSound | runtime/sched.c:279-369 | each step keeps every kthread's ring and targeted queue sound |
| Sched.ExactlyOnePlace | runtime/sched.c:150-603 | in every run each thread is in exactly one place, and a running one in no queue |
| Park.SpinningFloor | runtime/kthread.c:221-228 | the counter is the number of kthreads counted as running; a decremented value is never negative, so the mixed comparison is sound; while any kthread is parked or about to, at least spinks others run or are on their way back |
| Park.QuietFloor | runtime/kthread.c:261-263 | with nobody between decrement and undo, a parked kthread means at least spinks are counted as running |
| Park.StepKeeps | runtime/kthread.c:208-282 | every interleaving of read, decrement, undo, wake and attach keeps this |
| Park.ParksExact | runtime/kthread.c:222-229 | undisturbed, a kthread parks if and only if more than spinks are running |
| Park.DecideExact | runtime/kthread.c:224-228 | after its decrement it parks if and only if at least spinks remain |
| TimerHeap.RootIsMin | runtime/timer.c:303-306 | the root of a heap is a minimum |
| TimerHeap.RiseEnds | runtime/timer.c:53-68 | after sifting up, only the place the slot came from may be above its children |
| TimerHeap.SinkStep | runtime/timer.c:70-95 | exchanging with the least child moves the only disorder one level down |
| TimerHeap.FilledHole | runtime/timer.c:237-240 | after the last slot takes a removed one's place, it alone may be out of order, in either direction |
| TimerRuns.StepKeeps | runtime/timer.c:101-322 | initialising, starting, cancelling, firing and merging keep all kthreads' heaps ordered and linked; an entry that left its heap while marked armed keeps the index 0 |
| TimerRuns.RunArmedExact | runtime/timer.c:157-322 | in every run `armed` is set exactly for entries in their heap, fired since their start, or dropped by another's cancel; the last only after a fired timer was cancelled |
| TimerRuns.RunDropsExact | runtime/timer.c:205-322 | a run loses no timer if and only if it cancels no timer that has fired since its start |
| TimerRuns.RunCancelExact | runtime/timer.c:205-245 | until then, cancelling an armed entry takes out its own slot if and only if the entry has not fired since its start |
| TimerRuns.CancelExact | runtime/timer.c:223-244 | at any point of a run, cancelling an armed entry takes out its own slot if and only if the entry has neither fired nor been dropped |
| TimerRuns.BoundsExact | runtime/timer.c:230-237 | a cancel goes outside the heap if and only if the entry has fired or been dropped and its heap is empty |
| TimerRuns.StaleCancelDrops | runtime/timer.c:230-240 | any other cancel of such an entry takes the earliest timer out of the heap, still marked armed |
| TimerRuns.FiredAlone | runtime/timer.c:157-322 | a single timer, started and fired, is armed with an index at the end of its heap |
| TimerRuns.StartOn | runtime/timer.c:157-179 | on the heaps in memory a start is the specified step, or refused exactly at its BUGs |
| TimerRuns.FireOn | runtime/timer.c:303-311 | so is the pop of a due timer |
| TimerRuns.CancelOn | runtime/timer.c:205-245 | so is a cancel, unless it goes outside the heap |
| TimerRuns.MergeOn | runtime/timer.c:101-137 | so is a merge |
| TimerHeap.CheckExact | runtime/timer.c:28-41 | the source's own check equals heap order but for position 1 |
| TimerHeap.CheckMisses | runtime/timer.c:28-41 | two timers out of order pass the check |
| TimerHeap.IsValidHeap | runtime/timer.c:28-41 | the loop computes that check |
| TimerSift.SiftUp | runtime/timer.c:53-68 | from any single disorder, leaves disorder only below the start; same slots, back-pointers follow, others untouched |
| TimerSift.PickChild | runtime/timer.c:79-86 | finds the least child that comes before the slot, or that there is none |
| TimerSift.SiftDown | runtime/timer.c:70-95 | restores heap order from the given level on; same slots, back-pointers follow |
| Timer.Timers.Start | runtime/timer.c:157-179 | fails exactly on an armed entry or a full heap; otherwise adds exactly that timer, in heap order, armed, indexed and owned |
| Timer.Timers.RemoveAt | runtime/timer.c:230-240 | sift_up then sift_down at the old index restores order, whichever way it was violated |
| Timer.Timers.Cancel | runtime/timer.c:205-245 | leaves everything alone exactly when the entry is not armed; otherwise clears the flag and takes out exactly the slot the entry's index names, unless that is outside the heap |
| Timer.Timers.PopMin | runtime/timer.c:303-311 | removes exactly a minimum |
| Timer.Timers.Heapify | runtime/timer.c:132-133 | the bottom-up pass makes a heap of any array |
| Timer.Timers.Merge | runtime/timer.c:101-137 | this heap gains exactly the other's timers, the other ends empty, indices and owners follow; fails exactly when the array would fill |
| TimerSoftirq.Softirq | runtime/timer.c:293-322 | whatever is initialised, started, cancelled, fired or merged on any heap while handlers run, no timer fires early, each is the earliest at that moment, and with budget left no due timer remains |
| TimerFiring.StartKeepsOther | runtime/timer.c:157-179 | starting a timer leaves every other kthread's heap intact |
| TimerFiring.RemoveKeepsOther | runtime/timer.c:205-245 | so does removing one |
| TimerFiring.MergeKeepsOther | runtime/timer.c:101-137 | so does a merge, for third heaps |
| TimerFiring.FiredCancelDropsOther | runtime/timer.c:303-315 | firing leaves the entry armed: cancelling it afterwards removes another timer |
| Tcache.AllocNearest | base/tcache.c:62-98 | allocation takes the first item of the loaded magazine, else of the previous one, else of the depot's first, else of a new magazine from the backing store; what remains within reach keeps its order |
| Tcache.NewMagazineLast | base/tcache.c:78-91 | a magazine is taken from the backing store exactly when the handle's magazines and the depot are empty and there is a supply |
| Tcache.FreeNearest | base/tcache.c:101-128 | a freed item becomes the first within reach; a magazine goes to the front of the depot exactly when both of the handle's are full |
| Tcache.FreeThenAlloc | base/tcache.c:62-128 | allocating right after a free gives the same item back and restores what was within reach |
| Tcache.AllocKeeps | base/tcache.c:62-98 | an allocated item was not outstanding and is now; allocation fails only with both magazines and the depot empty and no supply; all invariants hold |
| Tcache.AllocTotals | inc/base/tcache.h:63-73 | allocation conserves every item, adding exactly the supply when it takes a new magazine |
| Tcache.FreeTotals | inc/base/tcache.h:80-90 | freeing conserves every item |
| Tcache.FreeKeeps | base/tcache.c:101-128 | freeing keeps all invariants: loaded chain bounded, previous empty or full, shared magazines full |
| Tcache.ReclaimKeeps | base/tcache.c:188-202 | reclaiming returns exactly the depot's items and lowers the magazine count by exactly its magazines |
| Tcache.RunKeeps | base/tcache.c:62-202 | in every run over any number of handles no item is lost, duplicated or cached while outstanding, and outstanding plus cached is magazines times size |
| TcacheBound.TouchExact | base/tcache.c:62-128 | depot or backing store are touched only with both magazines empty or both full |
| TcacheBound.AmortisedBound | base/tcache.c:62-128 | n operations on one handle touch depot or backing store at most ceil(n / size) times |
| TcacheChains.HeadersFrame | base/tcache.c:24-44 | headers of items in no chain may be overwritten without disturbing any chain |
| TcacheChains.ReturnRepresents | base/tcache.c:116-121 | linking a full magazine into the depot keeps chains and abstract magazines in agreement |
| TcacheObject.CacheObject.Scribble | inc/base/tcache.h:21-24 | a client may write the headers of items it holds |
| TcacheObject.CacheObject.BuildChain | base/tcache.c:24-44 | the loop links the supplied items into one chain and writes no other header |
| TcacheObject.CacheObject.CollectChain | base/tcache.c:46-59 | the walk returns exactly the magazine's items |
| TcacheObject.CacheObject.Alloc | base/tcache.c:62-98 | allocation on linked memory equals allocation on magazines |
| TcacheObject.CacheObject.Free | base/tcache.c:101-128 | freeing on linked memory equals freeing on magazines |
| TcacheObject.CacheObject.Reclaim | base/tcache.c:188-202 | the loop returns exactly the depot's items |
| Slab.RefillKeeps | base/slab.c:266-305 | after refilling the current page has an item to give, or there is no partial page and no new memory |
| Slab.TakeKeeps | base/slab.c:307-319 | the shared bump offset is used only when it belongs to the current page's next fresh slot |
| Slab.AllocKeeps | base/slab.c:290-320 | exactly one item becomes live, one that was not; page classes stay exact |
| Slab.AllocNearest | base/slab.c:266-320 | which item: the current page gives while it can, then the first partial page, then new memory; the item freed last comes first, and a slot is cut only with the free list empty |
| Slab.FreeNearest | base/slab.c:343-377 | a freed item is the next its page gives, and a page that becomes partial the next to be adopted |
| Slab.FreeKeeps | base/slab.c:343-377 | a page is given back exactly when it is not current and all free; full pages have 0..3 free items, partial ones 4..nr-1 |
| Slab.FreeLive | base/slab.c:343-377 | exactly the freed item stops being live |
| SlabRace.FreeSafeExact | base/slab.c:322-424 | in every state, and under every interleaving of its loads and stores with the owner's locked operations, a free leaves everything consistent if and only if the item's node is the freeing thread's |
| SlabRace.HandsOutTwice | base/slab.c:343-349 | when the page is current and has a free list, an allocation between the load and the store of its head makes the owner hand out one item twice |
| SlabRace.GiveShows | base/slab.c:290-320 | on page structs with free lists threaded through the items, an allocation returns the specified item and leaves the specified state |
| SlabRace.TakeBackShows | base/slab.c:343-377 | so does a free under the owner's lock |
| Slab.FreeThroughExact | base/slab.c:415-424 | a free through another node that nobody disturbs keeps both nodes' page lists exact if and only if it neither turns the page from full to partial nor makes the owner's current page all free; disturbed it may break them in any case, by FreeSafeExact |
| SlabRace.FreeThroughSteals | base/slab.c:415-424 | a run after which an undisturbed free puts an item's page on the partial list of a node that does not own it |
| SlabMemory.InsidePage | base/slab.c:349-352 | an item lies inside its page and its address leads back to the page |
| SlabMemory.ItemsApart | base/slab.c:313-315 | different items never overlap |
| SlabMemory.RunSound | base/slab.c:290-377 | in every run the invariant holds, live items are pairwise disjoint, and each lies inside its own page |
| SlabMemory.CountExact | base/slab.c:354-357 | item_count is the number of slots of the page that are not live |
| SlabMemory.CreateFits | base/slab.c:172-189 | for every size: an accepted slab has room for its items in a page; refused exactly above 262144 bytes after alignment; divides by zero exactly for size zero and sizes whose alignment wraps |
| SlabMemory.SmallPageSlabFits | base/slab.c:499-502 | the slab of small pages fits 504 of them behind the metadata |
| SlabNode.NodeObject.Scribble | base/slab.c:31-33 | a client may write to items it holds |
| SlabNode.NodeObject.GetPage | base/slab.c:266-288 | equals the specified choice of page |
| SlabNode.NodeObject.Alloc | base/slab.c:290-320 | allocation through in-band free lists returns the specified item's address |
| SlabNode.NodeObject.Free | base/slab.c:343-377 | freeing finds the page from the address and equals the specification |
| SlabNode.NodeObject.AllocMany | base/slab.c:391-413 | all the items wanted, or none with the live items unchanged |
| Mutexes.RunFair | runtime/sync.c:23-71 | in every run the lock is granted in exactly the order it was asked for and to one thread at a time |
| Mutexes.RunTold | runtime/sync.c:23-71 | in every run the threads told to go on or woken, and not yet unlocked, are the holder alone, and those told to wait and not yet woken are exactly the waiters in order |
| Mutexes.LockExact | runtime/sync.c:39-52 | a caller goes on if and only if the lock was free, and then holds it; otherwise it is last in line |
| Mutexes.TryLockExact | runtime/sync.c:23-33 | an attempt succeeds if and only if the lock was free; a failed one leaves no trace |
| Mutexes.StepKeeps | runtime/sync.c:23-71 | nobody waits for a free lock, and an unlock passes a contended one on |
| RwMutexes.UnlockKeeps | runtime/sync.c:180-221 | a freed lock goes to all waiting readers, else to the longest waiting writer, and becomes free only when nobody waits |
| RwMutexes.RunExcludes | runtime/sync.c:105-221 | in every run the count is -1 for one writer or the exact number of readers, waiting readers are counted exactly and exist only under a writer, a free lock has no waiters |
| RwMutexes.RunTold | runtime/sync.c:105-221 | in every run the threads told to go on or woken, and not yet unlocked, are exactly the holders, and those told to wait and not yet woken exactly the waiters |
| RwMutexes.WriterAlone | runtime/sync.c:105-221 | in every run, while a writer believes to have the lock nobody else does |
| RwMutexes.RdLockExact | runtime/sync.c:105-137 | a reader goes on, and an attempt succeeds, if and only if no writer holds the lock |
| RwMutexes.WrLockExact | runtime/sync.c:143-174 | a writer goes on, and an attempt succeeds, if and only if nobody holds the lock |
| Barriers.RoundsExact | runtime/sync.c:400-426 | however many threads arrive, each round releases exactly the party, in order of arrival |
| Barriers.WaitKeeps | runtime/sync.c:400-426 | exactly the caller that completes a party releases it |
| SyncObjects.MutexObject.Lock | runtime/sync.c:39-52 | a caller goes on exactly when the lock was free, and is otherwise put last in line; follows the step of the model |
| SyncObjects.MutexObject.TryLock | runtime/sync.c:23-33 | succeeds exactly when the lock was free; follows the step of the model |
| SyncObjects.MutexObject.Unlock | runtime/sync.c:58-71 | hands the lock to the first waiter, and frees it exactly when there is none; follows the step of the model |
| SyncObjects.RwMutexObject.RdLock | runtime/sync.c:105-119 | a reader goes on exactly when no writer holds the lock; follows the step of the model |
| SyncObjects.RwMutexObject.TryRdLock | runtime/sync.c:127-137 | succeeds exactly when no writer holds the lock; follows the step of the model |
| SyncObjects.RwMutexObject.WrLock | runtime/sync.c:143-156 | a writer goes on exactly when nobody holds the lock; follows the step of the model |
| SyncObjects.RwMutexObject.TryWrLock | runtime/sync.c:164-174 | succeeds exactly when nobody holds the lock; follows the step of the model |
| SyncObjects.RwMutexObject.Unlock | runtime/sync.c:180-221 | equals the specified step, with the wake loop |
| SyncObjects.BarrierObject.Wait | runtime/sync.c:400-426 | equals the specified step and wakes exactly the earlier members of the party |
| SyncObjects.WakeAll | runtime/sync.c:413-418 | the pop loop wakes every thread on the list, in order |
| Bitmap.MaskBits | base/bitmap.c:11-11 | the mask expression has exactly the bits from the start position up |
| Bitmap.FindNext | base/bitmap.c:8-26 | the word-wise search equals the bit-by-bit search for both modes, every size and every start, also past the end |
| Bitmap.FirstFromExact | base/bitmap.c:36-52 | the bit-by-bit search finds the least match at or after the start, or the size |
| Bitmap.ForEach | inc/base/bitmap.h:129-143 | the for-each loops visit every matching bit once, in order, and end |
| Bitmap.AllFromExact | inc/base/bitmap.h:129-143 | the bits visited are exactly the matching ones |
| PageTable.LargeRoundTrip | inc/base/page.h:75-105 | address to large page and back rounds down to the page, and agrees on the NUMA node |
| PageTable.LargeRoundTripBack | inc/base/page.h:91-105 | large page to address and back is the identity |
| PageTable.SmallStructPlace | inc/base/page.h:113-182 | a small page's struct lies in its own large page's metadata and maps back to that large page |
| PageTable.SmallRoundTrip | inc/base/page.h:113-129 | address to small page and back rounds down to the page |
| PageTable.SmallRoundTripBack | inc/base/page.h:113-129 | small page to address and back is the identity |
| PageTable.ContentsBehindMetadata | inc/base/page.h:36-37 | no small page handed out overlaps any small page struct |
| PageNodes.AllocLargeKeeps | base/page.c:118-149 | an allocation hands out an unused page of the node asked for, the one freed last and a new one only when none is left, and fails only when it must |
| PageNodes.FreeLargeKeeps | base/page.c:151-161 | a freed large page returns to the node that allocated it |

## Left out

- System calls, shared-memory set-up, eventfds, signals, pinning of threads to cores, logging and configuration: no
  semantics visible to the program. A context switch is an abstract change of the running thread.
- The packet and soft-interrupt paths, RCU, stacks, `base/mempool.c`, hashes, C++ bindings and benchmarks: they share no
  state with the modelled structures beyond the threads they wake and the memory they allocate.
- Wait groups and condition variables (`runtime/sync.c`, lines 232-363): each keeps one waiter list under its own lock,
  apart from the mutex, read-write mutex and barrier.
- In the core allocator: the waking flag, pending timers and the deadline of the last parked kthread, fixed array
  capacities, and reuse of process numbers. Whether a process is congested is an input of each adjustment step.
  The list of online cores is assumed not to be empty.
- CoreAllocator.Allocator.Leave: requires that no kthread of the process waits for a core and no removed process waits
  for one of its cores; by `DetachExact` detaching breaks the invariant in every other case.
- CoreAllocator.Allocator.FreeProc: requires the same, for the process that is leaving.
- CoreRuns.RunSafe: runs do not go on after an attach, park or detach that `AttachExact`, `ParkExact` and `DetachExact`
  show to break the invariant. A process is attached when its guarantee fits beside those of the table, which
  `RunAdmitted` gives while no disconnection is lost.
- Control.RunAdmitted: the queue between the threads is a FIFO, as `RunRefinesFifo` shows of the channel; its capacity
  appears only as sends that fail.
- SlabRace.FreeSafeExact: one such free at a time. The freeing node's own lists matter only for the page it may gain,
  and unlinking a page from a list is one step.
- Threads that stealing or scheduling obtains from soft interrupts enter the model as woken threads.
- Progress of threads in a parked kthread's targeted queue: neither stealing nor joining drains it, so only conservation
  is claimed.
- Sched.ExactlyOnePlace: runs do not go on after a store that clashes in a targeted queue or a join of a kthread whose
  head has wrapped past its tail, the two cases shown to lose threads.
- TimerRuns.RunDropsExact: runs do not go on after a cancel outside the heap. An entry is initialised only while it is
  in no heap, and cancelled only once it has been started, since timer_init does not set the kthread a cancel looks up.
  The retry when an entry moves between heaps is not modelled.
- TimerSoftirq.Softirq: calls that would be a BUG, leave a heap's bounds or initialise an entry inside a heap do not
  happen while handlers run; the clock is an input.
- Tcache.AllocKeeps: the backing store is an input that hands out unused items; a magazine size of zero is excluded,
  since the source then reads an uninitialised array.
- The bootstrap slab of slab nodes, which divides by its unaligned size.
- Slab statistics: `nr_pages` counts a page again each time it is adopted, so it is not modelled.
- PageNodes.AllocLargeKeeps: mapping memory is a yes-or-no input; as in the source, a page that cannot be mapped is not
  put back.
- Words of a bitmap are sequences of 64 bits and `__builtin_ffsl` is its documented meaning; `MaskBits` relates the mask
  to machine arithmetic.
