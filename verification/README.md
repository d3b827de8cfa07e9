# Verified models of a concurrency library and its model checker

The library (`src/exe`) offers lock-free containers, fibers with synchronisation, thread pools and
lazy futures; the model checker (`deps/twist`) runs such code under a deterministic simulator. This
project models the protocols in them whose correctness depends on every interleaving, together with
the imperative code they rest on, and proves what they promise.

Concurrent code is a transition system: any number of threads or fibers with program counters, one
atomic operation per step, sequentially consistent memory, weak compare-exchange that may fail without
cause, and memory that is reused after it is freed. History variables record what happened and never
guard a step. Each proof consists of an invariant, one lemma per action, a frame lemma for what other
threads may do, and an induction over the steps of a run; what callers see is stated as a refinement of
an atomic object whose steps name the arguments and results of calls. Sequential code is written as classes and
methods with loops, proved against specification functions.

| files | component |
|---|---|
| `LockFreeQueue*.dfy` | Michael-Scott queue with a stamped pool of recycled nodes |
| `Strand*.dfy`, `TaggedWords.dfy` | the strand (flat combining), and the packing of tags and stamps into words |
| `AtomicSharedPtr*.dfy` | split reference counting |
| `StealRing*.dfy`, `FastPool*.dfy`, `GlobalQueue.dfy` | work stealing, the scheduler's queues, parking and waking |
| `HazardStack*.dfy`, `HazardScan.dfy` | Treiber stack with hazard pointers |
| `Race*.dfy`, `MemoryModel.dfy` | vector clocks, the race detector, and how it relates to the C++ standard |
| `Futures*.dfy`, `Contract.dfy` | compilation and execution of future expressions; the contract state |
| `DfsExploration.dfy`, `DfsRunQueue.dfy` | exhaustive exploration of schedules |
| `BufferedChannel*.dfy` | the buffered channel of fibers |
| `SimulatedHeap.dfy` | the simulator's heap and its block index |
| `Sums.dfy` | sums over threads, used by the counting invariants |

Results that a reader of the code would not expect:

- `Grab` of the work-stealing ring reads tail before head. It can therefore return nothing although the
  ring was never empty (`StealRing.GrabMayMiss`). It is right exactly if nothing was pushed between the
  two loads, hence always for the producer itself (`StealRing.GrabRefusesIff`).
- Freeing a block can dereference a null pointer: the buffer of a full free list is replaced without a
  check for an exhausted segment. `SimulatedHeap.Allocator.Free` states exactly when,
  `SimulatedHeap.FreeMayCrash` shows a heap on which it happens.
- A wake-up transfers the waker's last release point, not its present clock, to the waiter. The relation
  that the race detector decides is defined accordingly (`HappensBeforeOrder.Edge`).
- A release store acts like a release fence followed by a relaxed store, and an acquire load like a
  relaxed load followed by an acquire fence: later relaxed stores and earlier relaxed loads of the same
  thread synchronise too. The detector's order is therefore larger than that of the C++ standard. It
  raises no false alarms (`StandardOrder.ReportIsStandardRace`), misses some races of the standard
  (`StandardOrder.MissedRaces`), and misses none if no thread makes a relaxed store after a release store
  or a relaxed load before an acquire load (`StandardOrder.TidyReportIffRace`).
- A worker of the pool may pop its own stale entry from the list of waiters and wake itself; no wake-up
  is lost all the same.

## Model

| member | source | states |
|---|---|---|
| `LockFreeQueueTheorems.RunRefines` | src/exe/lf/lock_free_queue.hpp:94-168 | every run, seen from outside, is a run of an atomic FIFO queue: a successful link is an enqueue, a successful head swing takes the oldest value, and `nullopt` needs an instant of the call at which the queue was empty |
| `LockFreeQueueTheorems.StepRefines` | src/exe/lf/lock_free_queue.hpp:94-168 | each atomic step is one step of the atomic queue or invisible to all callers |
| `LockFreeQueueProof.RunKeeps` | src/exe/lf/lock_free_queue.hpp:42-65 | the invariant of queue and pool holds in every state of every run: the chain from head is ordered, tail is at most one behind its end and never behind head, nodes have one role each |
| `LockFreeQueueProof.ActionKeeps` | src/exe/lf/lock_free_queue.hpp:94-196 | each of the atomic actions of Push, TryPop, NewNode and ToPool keeps the invariant of the memory |
| `LockFreeQueueProof.ActionEnv` | src/exe/lf/lock_free_queue.hpp:94-196 | what an action of one thread may change under the eyes of the others |
| `LockFreeQueueProof.Stable` | src/exe/lf/lock_free_queue.hpp:94-168 | what a thread has read and may still rely on survives every action of the others, although nodes are recycled |
| `LockFreeQueueTheorems.LifeIsTwoCounts` | src/exe/lf/lock_free_queue.hpp:146-196 | each life of a node adds exactly two to its count; the step that completes a life finds the node unlinked and its value taken, and hands it to the pool |
| `LockFreeQueueTheorems.PooledIsFree` | src/exe/lf/lock_free_queue.hpp:181-196 | a pooled node is outside the queue, its value has been taken, no operation that still uses it knows it, and its count is even |
| `LockFreeQueueTheorems.TouchesNodes` | src/exe/lf/lock_free_queue.hpp:94-168 | no thread ever dereferences anything but an allocated node of this queue |
| `LockFreeQueueTheorems.DeleteList` | src/exe/lf/lock_free_queue.hpp:67-75 | the destructor loop deletes exactly the nodes of the list it starts from, in order |
| `LockFreeQueueTheorems.ChainIsList` | src/exe/lf/lock_free_queue.hpp:86-92 | the nodes from any position of the chain on form a null-terminated list |
| `LockFreeQueueTheorems.PoolIsList` | src/exe/lf/lock_free_queue.hpp:42-50 | the pooled nodes form a null-terminated list from the top of the pool |
| `LockFreeQueueTheorems.DestroyFreesAllOnce` | src/exe/lf/lock_free_queue.hpp:170-178 | when no operation runs, the chain and the pool together hold every node exactly once, so destruction deletes each once |
| `LockFreeQueueProgress.ReturnsAlone` | src/exe/lf/lock_free_queue.hpp:94-168 | from any state of any run a thread that runs alone returns from Push or TryPop within 26 steps, unless a compare-exchange fails without cause, and always has a next step before |
| `LockFreeQueueProgress.StepCloser` | src/exe/lf/lock_free_queue.hpp:94-196 | each step of such a thread brings it closer to its return, whatever state the others left the queue in |
| `StampedPtr.UnpackPointer` | src/exe/util/stamped_ptr.hpp:84-122 | unpacking gives the pointer back if and only if it is canonical, whatever the stamp |
| `StampedPtr.UnpackStamp` | src/exe/util/stamped_ptr.hpp:84-114 | unpacking gives the stamp back if and only if it is below 2^16, whatever the pointer |
| `StampedPtr.PackedCompare` | src/exe/util/stamped_ptr.hpp:84-87 | comparing packed words is comparing (pointer, stamp) pairs, for canonical pointers and stamps below 2^16 |
| `BusyBit.TagsTellApart` | src/exe/fiber/sync/strand.hpp:184-201 | null, dummy, busy list and free list are never confused, and tagging is injective |
| `BusyBit.TagStrips` | src/exe/fiber/sync/strand.hpp:184-201 | stripping undoes tagging and leaves an untagged address alone |
| `StrandProof.RunKeeps` | src/exe/fiber/sync/strand.hpp:21-182 | the invariant of the strand holds in every state of every run |
| `StrandProof.StepKeeps` | src/exe/fiber/sync/strand.hpp:21-182 | every step of every fiber keeps it, with stack addresses reused across calls |
| `StrandProof.HandOverKeeps` | src/exe/fiber/sync/strand.hpp:162-180 | the end of a batch hands the strand on to its last waiter, or leaves it free |
| `StrandTheorems.OneCombiner` | src/exe/fiber/sync/strand.hpp:21-93 | at most one fiber owns the combiner |
| `StrandTheorems.RunsAlone` | src/exe/fiber/sync/strand.hpp:130-160 | critical sections exclude each other and none runs a second time |
| `StrandTheorems.ReturnsAfterOneRun` | src/exe/fiber/sync/strand.hpp:21-93 | the section of a call has run exactly once when its `Combine` returns |
| `StrandTheorems.TouchesSuspended` | src/exe/fiber/sync/strand.hpp:130-182 | a combiner accesses a waiter only while its fiber is suspended in that call and not yet scheduled |
| `StrandTheorems.LeavesCleanly` | src/exe/fiber/sync/strand.hpp:83-93 | when a call returns, nobody else knows its waiter |
| `StrandTheorems.FreeListHasHeir` | src/exe/fiber/sync/strand.hpp:162-180 | while the head is a non-busy list, some fiber is between the hand-over and its take-over check |
| `StrandTheorems.ParkedHasActive` | src/exe/fiber/sync/strand.hpp:83-91 | while a fiber waits, some fiber inside `Combine` does not |
| `StrandTheorems.ActiveMoves` | src/exe/fiber/sync/strand.hpp:21-182 | such a fiber always has a next step, so a state where nobody can move has no waiter |
| `StrandProgress.ReturnsOrParks` | src/exe/fiber/sync/strand.hpp:21-182 | from any state of any run a fiber that runs alone returns from `Combine`, or parks because there is a combiner, within 16 steps and three for each waiter |
| `AtomicSharedPtrProof.RunKeeps` | src/exe/lf/memory/atomic_shared_ptr.hpp:196-278 | in every state of every run the two counts of each block equal the shares of handles, cells and pending operations |
| `AtomicSharedPtrProof.StepKeeps` | src/exe/lf/memory/atomic_shared_ptr.hpp:28-63 | each load, compare-exchange and fetch-add step keeps the two conservation laws, also when transient is negative |
| `AtomicSharedPtrProof.LoadKeeps` | src/exe/lf/memory/atomic_shared_ptr.hpp:196-204 | loading increments the stamp of the cell and creates a handle that this stamp pays for |
| `AtomicSharedPtrProof.ReleaseKeeps` | src/exe/lf/memory/atomic_shared_ptr.hpp:206-213 | replacing the content of a cell moves its stamp and its strong share to the clean-up |
| `AtomicSharedPtrProof.CasFailKeeps` | src/exe/lf/memory/atomic_shared_ptr.hpp:229-236 | the failure branch undoes the raised strong count and reloads the expected handle |
| `AtomicSharedPtrProof.FlushKeeps` | src/exe/lf/memory/atomic_shared_ptr.hpp:260-278 | flushing a large stamp into the transient count keeps the laws whether it succeeds or not |
| `AtomicSharedPtrProof.ZeroIffDelete` | src/exe/lf/memory/atomic_shared_ptr.hpp:142-153 | a counter reaches zero exactly when the thread that changed it goes on to delete the block; additions whose result nobody checks never reach zero |
| `AtomicSharedPtrProof.ZeroMeansUnused` | src/exe/lf/memory/atomic_shared_ptr.hpp:244-256 | a zero counter means that no cell points at the block and no thread has a share in it |
| `AtomicSharedPtrProof.NothingDangles` | src/exe/lf/memory/atomic_shared_ptr.hpp:142-153 | no handle, cell or pending operation ever refers to a deleted block |
| `AtomicSharedPtrProof.DeletedAlone` | src/exe/lf/memory/atomic_shared_ptr.hpp:244-256 | a block is deleted by one thread only, when nobody else mentions it: it is freed once |
| `AtomicSharedPtrProof.NothingLeaks` | src/exe/lf/memory/atomic_shared_ptr.hpp:142-156 | when every call has returned, a block exists only while a handle or a cell refers to it |
| `AtomicSharedPtrProof.QuietCounts` | src/exe/lf/memory/atomic_shared_ptr.hpp:196-204 | when every call has returned, strong is the number of cells pointing at the block, and transient plus their stamps the number of handles |
| `AtomicSharedPtrTheorems.RunRefines` | src/exe/lf/memory/atomic_shared_ptr.hpp:196-242 | every run, seen through the pointers in the cells, the handles and the calls, is a run of atomic pointers: Load returns what the cell points at, Store replaces it, CompareExchangeWeak replaces it only if it is exactly what the caller expected, and otherwise puts into `expected` what the cell points at when it reloads |
| `AtomicSharedPtrTheorems.StepRefines` | src/exe/lf/memory/atomic_shared_ptr.hpp:196-242 | each step is one step of the atomic pointers or invisible |
| `AtomicSharedPtrTheorems.CellIsAtomic` | src/exe/lf/memory/atomic_shared_ptr.hpp:206-242 | what a cell points at changes only by a Store, to the pointer given to the call, or by a compare-exchange that found the expected pointer, to the desired one |
| `AtomicSharedPtrTheorems.ReturnsSettled` | src/exe/lf/memory/atomic_shared_ptr.hpp:196-242 | no call returns before it has taken effect |
| `StealRing.DeliversPrefix` | src/exe/sched/tp/fast/queues/work_stealing_queue.hpp:26-90 | with one producer and any number of poppers and grabbers, the tasks delivered in head order are a prefix of the tasks pushed |
| `StealRing.StepIsAtomic` | src/exe/sched/tp/fast/queues/work_stealing_queue.hpp:26-90 | each step leaves the ring alone and delivers nothing, appends the pushed task, or removes from the front exactly the tasks its caller gets: one for TryPop, between one and the size of its span for Grab |
| `StealRing.RefusalsAreRight` | src/exe/sched/tp/fast/queues/work_stealing_queue.hpp:28-66 | TryPush fails if and only if the ring is full; TryPop fails only on an empty ring, and always on one if its head is current; Grab returns nothing if and only if tail minus head, modulo the word size, is zero, and then every task that was in the ring at its tail load is gone |
| `StealRing.GrabRefusesIff` | src/exe/sched/tp/fast/queues/work_stealing_queue.hpp:57-66 | unless head is a whole word size ahead of the tail it loaded, Grab returns nothing if and only if head has reached that tail; the ring is then empty if and only if nothing was pushed since that load; for the producer itself it is exactly the test for an empty ring |
| `StealRing.GrabMayMiss` | src/exe/sched/tp/fast/queues/work_stealing_queue.hpp:57-66 | a run in which Grab returns nothing although the ring is not empty at any moment of the call |
| `StealRing.WonIsStretch` | src/exe/sched/tp/fast/queues/work_stealing_queue.hpp:57-88 | what a grab keeps after its head moved is the stretch from the head it won to the head it set |
| `StealRing.RunKeeps` | src/exe/sched/tp/fast/queues/work_stealing_queue.hpp:26-90 | no slot is overwritten before it is read, and stale copies are right wherever head has not passed |
| `StealRing.MoveDown` | src/exe/sched/tp/fast/queues/work_stealing_queue.hpp:82-86 | the overlapping copy moves the won tasks to the front of the span |
| `StealRingTheorems.RunRefines` | src/exe/sched/tp/fast/queues/work_stealing_queue.hpp:26-90 | every run is a run of a bounded queue: TryPush appends the task of its call or fails on a full one, TryPop takes the oldest task or fails on an empty one, Grab takes at most as many of the oldest as its span has room for |
| `StealRingTheorems.StepRefines` | src/exe/sched/tp/fast/queues/work_stealing_queue.hpp:26-90 | each step is one step of the bounded queue or invisible |
| `StealRingTheorems.GrabAlone` | src/exe/sched/tp/fast/queues/work_stealing_queue.hpp:57-90 | a Grab that runs alone returns the oldest tasks, all of them or as many as the span has room for |
| `StealRingTheorems.ReturnsAlone` | src/exe/sched/tp/fast/queues/work_stealing_queue.hpp:26-90 | from any state of any run a thread that runs alone returns within 14 steps and two for each place in its span |
| `FastPoolWakeups.NoLostWakeup` | src/exe/sched/tp/fast/thread_pool.cpp:43-77 | while the global queue holds a task, some submitter has yet to notify, or some worker will look at the queue before it blocks, or has a wake-up pending |
| `FastPoolWakeups.RunKeeps` | src/exe/sched/tp/fast/worker.cpp:140-195 | spinning count, waiter entries, pending wake-ups and task books are right in every state of every run |
| `FastPoolWakeups.ListedKeeps` | src/exe/sched/tp/fast/thread_pool.cpp:123-136 | a worker that announced itself and was not woken since is in the list of waiters or about to be woken, despite stale entries |
| `FastPoolWakeups.RousingKeeps` | src/exe/sched/tp/fast/worker.cpp:91-95 | a worker that sleeps although its word has changed is about to be unparked |
| `FastPoolWakeups.OutsiderAttends` | src/exe/sched/tp/fast/thread_pool.cpp:43-58 | a submitter that does not notify leaves the duty to a spinning worker, and one that finds no waiter to a worker that is awake |
| `FastPoolWakeups.RestMeansDone` | src/exe/sched/tp/fast/thread_pool.cpp:43-77 | if all workers sleep and nobody is inside Submit, every submitted task has been picked |
| `FastPoolWakeups.OthersMove` | src/exe/sched/tp/fast/worker.cpp:97-203 | any other thread has a next step |
| `FastPoolWakeups.TasksConserved` | src/exe/sched/tp/fast/worker.cpp:36-65 | every submitted task is in exactly one place or has been picked once, over all runs |
| `FastPoolWakeups.NeverAborts` | src/exe/sched/tp/fast/worker.cpp:209-247 | the abort after a failed push of a stolen task is unreachable |
| `FastPoolOrder.GlobalIsFifo` | src/exe/sched/tp/fast/worker.cpp:259-262 | over all runs, what workers got from the global queue followed by what is in it is what was handed to it, in that order |
| `FastPoolOrder.RingIsFifo` | src/exe/sched/tp/fast/worker.cpp:36-65 | the same for the ring of each worker, with own pops, offloads and steals together |
| `FastPoolOrder.SlotIsLatest` | src/exe/sched/tp/fast/worker.cpp:42-47 | the LIFO slot holds the task last submitted with the hint Next, unless it was looked at since |
| `FastPoolOrder.SlotGives` | src/exe/sched/tp/fast/worker.cpp:205-207 | a look at the slot gives that task; a hinted task that replaces it sends it to the ring |
| `FastPoolOrder.NextIsNext` | src/exe/sched/tp/fast/worker.cpp:42-47 | a task submitted with the hint Next is what its worker gets at its next look at the slot, unless another replaced it |
| `FastPoolOrder.GlobalFirst` | src/exe/sched/tp/fast/worker.cpp:111-119 | TryPickTask asks the global queue first if and only if the number of the PickTask is divisible by 61 |
| `FastPoolOrder.PollsInOrder` | src/exe/sched/tp/fast/worker.cpp:111-138 | undisturbed, it yields the first task of global queue if it is its turn, slot, own ring, global queue; stealing starts only if all are empty |
| `FastPoolOrder.WaitersAreFifo` | src/exe/sched/tp/fast/thread_pool.cpp:123-136 | workers are woken in the order in which they announced themselves |
| `FastPoolOrder.WakesFirst` | src/exe/sched/tp/fast/thread_pool.cpp:70-77 | undisturbed, Submit wakes the first waiter, a successful steal the first three, and a task found before parking the first six |
| `FastPoolProof.StealSettles` | src/exe/sched/tp/fast/worker.cpp:217-235 | the steps of a steal keep the book of every task: what leaves the victim or the hands of the thief is in exactly one other place |
| `FastPoolProof.StolenIsFront` | src/exe/sched/tp/fast/worker.cpp:56-65 | the stolen tasks are the front of the victim's ring in order, the last of them to be run and the others to be pushed to the ring of the thief |
| `FastPoolProof.OffloadSettles` | src/exe/sched/tp/fast/worker.cpp:249-257 | offloading keeps the book of every task |
| `FastPoolProof.OffloadMoves` | src/exe/sched/tp/fast/worker.cpp:249-257 | what goes to the global queue is the front of the ring in order, at most half of the capacity, followed by the task that did not fit |
| `ForwardList.IntrusiveForwardList.PushBack` | deps/wheels/wheels/intrusive/forward_list.hpp:61-72 | the node becomes the last one |
| `ForwardList.IntrusiveForwardList.Append` | deps/wheels/wheels/intrusive/forward_list.hpp:75-91 | all nodes of the other list follow, in order, and that list is left empty |
| `ForwardList.IntrusiveForwardList.PopFront` | deps/wheels/wheels/intrusive/forward_list.hpp:103-120 | the first node is unlinked and returned, or null for an empty list |
| `GlobalQueue.Queue.PushMany` | src/exe/sched/tp/fast/queues/global_queue.hpp:28-39 | the whole buffer is appended in order |
| `GlobalQueue.Queue.Grab` | src/exe/sched/tp/fast/queues/global_queue.hpp:47-56 | the oldest tasks are taken, as many as there is room for, and the rest stays |
| `HazardStackProof.RunKeeps` | src/exe/lf/memory/hazard/hazard.cpp:57-91 | the invariant of stack, slots, retired lists and scans holds in every state of every run |
| `HazardStackTheorems.ProtectedStays` | src/exe/lf/memory/hazard/guard.hpp:22-35 | from the validating load to the reset of the guard the node stays allocated and unchanged, for any interleaving with retirement and slot-by-slot scans |
| `HazardStackProof.PairKeeps` | src/exe/lf/memory/hazard/hazard.cpp:63-74 | a scan that passed the slot of a protecting thread has collected its node, if that node is in the list to be swept |
| `HazardStackProof.PopKeeps` | src/exe/lf/lock_free_stack.hpp:44-58 | a successful pop swings top to the true successor of the node: no ABA |
| `HazardStackTheorems.StepRefines` | src/exe/lf/lock_free_stack.hpp:26-59 | each step is a step of an atomic LIFO stack; `nullopt` is decided while the stack is empty |
| `HazardStackTheorems.RunRefines` | src/exe/lf/lock_free_stack.hpp:26-59 | every run is a run of the atomic stack |
| `HazardStackTheorems.TouchesNodes` | src/exe/lf/lock_free_stack.hpp:37-59 | every node that is read, written or deleted is allocated, and every slot that is written exists |
| `HazardStackTheorems.RetiredOnce` | src/exe/lf/memory/hazard/mutator.hpp:23-30 | a retired node is in one list, once, and outside the stack: it is freed at most once |
| `HazardStackTheorems.ScanBounds` | src/exe/lf/memory/hazard/hazard.cpp:78-90 | when a scan ends, its thread holds at most kMaxThreads * kMaxHazardPtrs retired nodes |
| `HazardStackProgress.ReturnsAlone` | src/exe/lf/lock_free_stack.hpp:26-59 | from any state of any run a thread that runs alone returns or aborts within a number of steps that grows with its own retired list only |
| `HazardScan.ThreadState.Sweep` | src/exe/lf/memory/hazard/hazard.cpp:78-90 | the swap-remove loop frees exactly the retired pointers that are not hazardous, each once, and keeps all others |
| `HazardScan.ThreadState.Swap` | src/exe/lf/memory/hazard/retired_ptr.hpp:36-53 | swapping two retired pointers by moves frees nothing, even if they are the same |
| `HazardScan.ThreadState.Retire` | src/exe/lf/memory/hazard/mutator.hpp:23-30 | the list grows by one and is swept only above the threshold |
| `HazardScan.SwapRemoves` | src/exe/lf/memory/hazard/hazard.cpp:84-88 | swapping the last element into a place and dropping the last removes exactly that element |
| `VectorClocks.VectorClock.Tick` | deps/twist/source/twist/rt/sim/system/sync/clock.hpp:34-37 | one entry grows by one |
| `VectorClocks.VectorClock.Assign` | deps/twist/source/twist/rt/sim/system/sync/clock.hpp:46-51 | the entries of the created threads are copied, the others kept |
| `VectorClocks.VectorClock.Join` | deps/twist/source/twist/rt/sim/system/sync/clock.hpp:53-58 | the entries of the created threads become the maximum of both |
| `RaceDetector.CheckDataRaces` | deps/twist/source/twist/rt/sim/system/sync/model.hpp:312-336 | the loop answers whether some logged access of another thread is unordered, and returns one that is |
| `MemoryModel.SeqCstMemoryModel.LoadAtomic` | deps/twist/source/twist/rt/sim/system/sync/model.hpp:193-205 | an atomic load, relaxed or acquire, does to the fields what the event does to the detector |
| `MemoryModel.SeqCstMemoryModel.StoreAtomic` | deps/twist/source/twist/rt/sim/system/sync/model.hpp:212-241 | an atomic store or read-modify-write commit does the same; what the orders mean is stated by the rows of `MessagePassing` |
| `MemoryModel.SeqCstMemoryModel.TouchAtomic` | deps/twist/source/twist/rt/sim/system/sync/model.hpp:182-252 | initialisation, destruction and debug loads of atomics do the same, and dead or unknown locations panic |
| `MemoryModel.SeqCstMemoryModel.Fence` | deps/twist/source/twist/rt/sim/system/sync/model.hpp:271-299 | fences do the same, and unsupported orders panic |
| `MemoryModel.SeqCstMemoryModel.InitNonAtomicVar` | deps/twist/source/twist/rt/sim/system/sync/model.hpp:338-370 | initialising a live variable panics; a dead one is reported exactly if its log has an unordered access; otherwise the log starts anew |
| `MemoryModel.SeqCstMemoryModel.AccessLiveNonAtomicVar` | deps/twist/source/twist/rt/sim/system/sync/model.hpp:372-406 | an access to an unknown variable panics, is reported exactly if an access in the log is unordered, and is logged otherwise |
| `MemoryModel.SeqCstMemoryModel.AccessNonAtomicVar` | deps/twist/source/twist/rt/sim/system/sync/model.hpp:115-123 | a plain access ticks, and is refused, reported or logged exactly as the event is by the detector |
| `MemoryModel.SeqCstMemoryModel.SpawnChild` | deps/twist/source/twist/rt/sim/system/sync/model.hpp:49-52 | a child starts with the clock of its parent and a tick |
| `MemoryModel.SeqCstMemoryModel.WakeWaiter` | deps/twist/source/twist/rt/sim/system/sync/model.hpp:54-58 | a waiter joins the release clock of its waker and ticks |
| `MemoryModel.SeqCstMemoryModel.MallocAt` | deps/twist/source/twist/rt/sim/system/sync/model.hpp:127-142 | allocation joins the clock of the last free of the address |
| `MemoryModel.SeqCstMemoryModel.FreeAt` | deps/twist/source/twist/rt/sim/system/sync/model.hpp:144-148 | a free records the clock of its thread |
| `HappensBeforeOrder.Arrival` | deps/twist/source/twist/rt/sim/system/sync/model.hpp:193-299 | what happens before an event, in terms of what was reached before it |
| `ClockProof.EventKeeps` | deps/twist/source/twist/rt/sim/system/sync/model.hpp:44-299 | every kind of event keeps all clocks exact |
| `ClockProof.ClocksAreExact` | deps/twist/source/twist/rt/sim/system/sync/model.hpp:44-299 | throughout every run the clocks of threads, stores and frees know precisely the events that happen before: program order, spawn, release and acquire with fences and release sequences, wake, and free to malloc |
| `RaceTheorems.LastSuffices` | deps/twist/source/twist/rt/sim/system/sync/non_atomic.hpp:28-42 | an access that races is found through the last access in its slot of the log |
| `RaceTheorems.ReportIffRace` | deps/twist/source/twist/rt/sim/system/sync/model.hpp:312-406 | an access is reported if and only if some earlier conflicting access of another thread since the initialisation does not happen before it |
| `RaceTheorems.SilentRunsAreRaceFree` | deps/twist/source/twist/rt/sim/system/sync/model.hpp:312-406 | a run that ends without a report has no race anywhere |
| `MessagePassing.MessageArrives` | deps/twist/source/twist/rt/sim/system/sync/mo.hpp:21-52 | whatever happens before a store or commit with order release, acq_rel or seq_cst happens before whatever follows a load with order acquire or seq_cst, or the load of a read-modify-write also with acq_rel, that reads it |
| `MessagePassing.MessageProtects` | deps/twist/source/twist/rt/sim/system/sync/model.hpp:193-241 | accesses on the two sides of such a message never race with each other |
| `MessagePassing.DeafLearnsNothing` | deps/twist/source/twist/rt/sim/system/sync/mo.hpp:21-30 | a thread that since made no load, read-modify-write or fence with an acquiring order, and was not started or woken and took no reused memory, knows no event of another thread |
| `MessagePassing.MuteTellsNothing` | deps/twist/source/twist/rt/sim/system/sync/mo.hpp:43-52 | an event is unknown to all others while its thread makes no operation with a releasing order, spawns and frees nothing |
| `MessagePassing.UnsentIsReported` | deps/twist/source/twist/rt/sim/system/sync/model.hpp:312-406 | conflicting accesses that are kept apart in neither way are reported |
| `MessagePassing.AdmittedOrders` | deps/twist/source/twist/rt/sim/system/sync/mo.hpp:9-41 | loads, stores and fences on a live atomic are refused exactly for the orders they do not have, read-modify-writes never |
| `MessagePassing.DeadIsRefused` | deps/twist/source/twist/rt/sim/system/sync/model.hpp:160-180 | operations on atomics that were not initialised or were destroyed, and those of unknown threads, are refused |
| `MessagePassing.UsableAfter` | deps/twist/source/twist/rt/sim/system/sync/model.hpp:182-252 | initialisation makes an atomic usable, destruction ends that, nothing else does |
| `MessagePassing.VariableRefusals` | deps/twist/source/twist/rt/sim/system/sync/model.hpp:338-406 | a variable is initialised only when new or destroyed, and accessed otherwise only when it was initialised |
| `StandardOrder.StandardIsIncluded` | deps/twist/source/twist/rt/sim/system/sync/model.hpp:193-299 | the order that the C++ standard gives to the events of a run is contained in the order that the clocks record |
| `StandardOrder.ReportIsStandardRace` | deps/twist/source/twist/rt/sim/system/sync/model.hpp:312-406 | no false alarms: every report is a race in the sense of the standard |
| `StandardOrder.TidyOrder` | deps/twist/source/twist/rt/sim/system/sync/model.hpp:193-299 | the two orders are the same on runs where no thread makes a relaxed store after a release store or a relaxed load before an acquire load |
| `StandardOrder.TidyReportIffRace` | deps/twist/source/twist/rt/sim/system/sync/model.hpp:312-406 | on such runs an access is reported if and only if it races in the sense of the standard |
| `StandardOrder.MissedRaces` | deps/twist/source/twist/rt/sim/system/sync/model.hpp:193-241 | for each half of that condition, a run without a report in which two writes race in the sense of the standard |
| `FuturesProof.MaterializeRight` | src/exe/future/combine/seq/map.hpp:64-68 | compilation is correct: the computation of an expression delivers its value and scheduler to the continuation |
| `FuturesRuns.RunsDeliver` | src/exe/future/combine/seq/map.hpp:40-54 | every run of the compiled expression ends, is never stuck, and resumes the final continuation exactly once with the value and scheduler of the expression, in any order of tasks |
| `FuturesTypes.TypedHasValue` | src/exe/future/combine/seq/flatten.hpp:13-26 | every expression has a value of its type, if functions return what their types say and the type of a function's result mentions earlier functions only, as templates do |
| `FuturesTypes.TypedRunsDeliver` | src/exe/future/combine/seq/map.hpp:40-54 | hence every run of a typed expression is bounded, never stuck, and delivers one value of its type |
| `FuturesTypes.ValueBelow` | src/exe/future/combine/seq/flatten.hpp:13-26 | the type of the value of a future mentions earlier functions only, or is part of the type of the future |
| `FuturesTypes.SelfReturningDiverges` | src/exe/future/combine/seq/flatten.hpp:29-67 | a function that returns a future made with itself, which only type erasure permits, has no value at any depth |
| `FuturesRuns.CallsAreScheduled` | src/exe/future/combine/seq/via.hpp:58-66 | every function given to Map or MapOk is called with the value of its producer, on the scheduler the meaning of its producer gives |
| `FuturesSchedulers.RunsWhereDetermined` | src/exe/future/combine/seq/via.hpp:58-66 | in every run, whatever the values: each function runs, and each result is delivered, on the scheduler of the nearest Via or Submit upstream through Map, MapOk and Flatten, and without one below Ready, Just and Both |
| `FuturesSchedulers.QueuedWhereDetermined` | src/exe/future/combine/seq/map.hpp:40-54 | a Map is a task of a scheduler only if its input determines that scheduler |
| `FuturesSchedulers.MaterializeMeets` | src/exe/future/combine/seq/flatten.hpp:29-67 | compilation hands each continuation the scheduler that the shape of its input determines |
| `FuturesCalls.CallsMade` | src/exe/future/combine/seq/map.hpp:40-54 | a run that has ended made each call that the expression asks for as often as it asks, with that function, argument and scheduler, and no other |
| `FuturesLaws.Confluent` | src/exe/future/combine/seq/map.hpp:40-54 | all orders of tasks deliver the same and make the same calls |
| `FuturesLaws.Completes` | src/exe/future/combine/seq/map.hpp:40-54 | every run can be completed |
| `FuturesLaws.SourceLaws` | src/exe/future/make/submit.hpp:51-58 | what Ready, Just and Submit deliver |
| `FuturesLaws.MapLaw` | src/exe/future/combine/seq/map.hpp:40-54 | Map delivers the result of the function on the value and scheduler that runs of its input deliver, and calls it once there |
| `FuturesLaws.ViaLaw` | src/exe/future/combine/seq/via.hpp:58-66 | Via delivers the value of its input on its own scheduler, with the same calls |
| `FuturesLaws.FlattenLaw` | src/exe/future/combine/seq/flatten.hpp:29-67 | Flatten delivers the value of the inner future on the scheduler of the outer one, with the calls of both |
| `FuturesLaws.MapOkLaw` | src/exe/future/combine/seq/result/map_ok.hpp:46-63 | MapOk calls the function once on success and passes errors through without a call |
| `FuturesLaws.BothLaw` | src/exe/future/combine/concur/all.hpp:44-60 | Both delivers the two values in order and no scheduler |
| `FuturesLaws.ResultLaws` | src/exe/future/combine/seq/result/and_then.hpp:105-111 | AndThen and OrElse continue with the future of the user function on success, respectively on an error, and pass the other through, on the scheduler of the input |
| `FuturesRuns.SuccessorRight` | src/exe/future/combine/seq/flatten.hpp:29-67 | each resumption hands on what is owed; Flatten keeps the outer scheduler |
| `FuturesRuns.CheckKeeps` | src/exe/future/combine/concur/all.hpp:44-60 | the second arrival of Both, and only it, resumes the consumer with both values |
| `FuturesRuns.BinderKeeps` | src/exe/future/combine/concur/all.hpp:44-52 | each side of Both arrives once |
| `FuturesRuns.NobodyWaits` | src/exe/future/combine/concur/all.hpp:54-60 | when no activity is left, no Both still waits |
| `FuturesRuns.StepLess` | src/exe/future/combine/seq/map.hpp:40-54 | every step leaves less to do, so no order of tasks runs forever |
| `FuturesRuns.PlainKeeps` | src/exe/future/make/submit.hpp:51-58 | a submitted function runs as a task of its scheduler and hands its result on with that scheduler |
| `FuturesRuns.NewCallsRight` | src/exe/future/combine/seq/result/map_ok.hpp:46-63 | MapOk calls the function only on success, on the scheduler of its input |
| `FuturesRuns.AndThenMeans` | src/exe/future/combine/seq/result/and_then.hpp:105-111 | AndThen continues with the future of the user function on success and passes errors through |
| `FuturesRuns.OrElseMeans` | src/exe/future/combine/seq/result/or_else.hpp:32-38 | OrElse continues on an error and passes values through |
| `Contract.CalledOnce` | src/exe/future/contract-state/contract.hpp:33-47 | the callback of a contract runs exactly once, with the value of the promise, and the state is deleted |
| `Contract.NeverDangles` | src/exe/future/contract-state/rendezvous.hpp:17-24 | neither side touches the state after it is deleted |
| `DfsExploration.Explore` | deps/twist/source/twist/mod/sim/sim.cpp:117-133 | the loop visits the leaves of the decision tree from left to right, each once, until one fails, and ends; without a failure it has visited all |
| `DfsExploration.Scheduler.Simulate` | deps/twist/source/twist/rt/sim/scheduler/dfs/scheduler.hpp:373-383 | a run replays the schedule, goes left, and leaves the record of its leaf as schedule |
| `DfsExploration.Scheduler.Choose` | deps/twist/source/twist/rt/sim/scheduler/dfs/scheduler.hpp:373-383 | a choice is replayed, or recorded as the first alternative |
| `DfsExploration.Scheduler.Backtrack` | deps/twist/source/twist/rt/sim/scheduler/dfs/scheduler.hpp:390-401 | the loop yields the next schedule, or reports that there is none |
| `DfsExploration.NoAlternatives` | deps/twist/source/twist/rt/sim/scheduler/dfs/scheduler.hpp:390-401 | after a choice among no alternatives backtracking always finds a next one: such a choice is never exhausted |
| `DfsExploration.NextLeaf` | deps/twist/source/twist/rt/sim/scheduler/dfs/scheduler.hpp:390-401 | backtracking from a leaf leads to the leaf right after it, or nowhere if it is the last |
| `DfsExploration.LeavesAreAll` | deps/twist/source/twist/rt/sim/scheduler/dfs/scheduler.hpp:357-367 | the enumeration holds exactly the leaves of the tree |
| `DfsExploration.LeavesAreOrdered` | deps/twist/source/twist/rt/sim/scheduler/dfs/scheduler.hpp:373-401 | in strict lexicographic order, hence without repetition |
| `DfsExploration.SilentMeansSafe` | deps/twist/source/twist/mod/sim/sim.cpp:117-133 | an exploration without a report means that no run fails |
| `DfsRunQueue.SortedList.Push` | deps/twist/source/twist/rt/sim/scheduler/dfs/scheduler.hpp:37-44 | the thread is inserted behind all smaller ids |
| `DfsRunQueue.SortedList.Pop` | deps/twist/source/twist/rt/sim/scheduler/dfs/scheduler.hpp:46-53 | exactly the chosen position is removed |
| `DfsRunQueue.SortedList.Remove` | deps/twist/source/twist/rt/sim/scheduler/dfs/scheduler.hpp:62-70 | one occurrence is removed if there is one |
| `DfsRunQueue.PreemptionScheduler.Preempt` | deps/twist/source/twist/rt/sim/scheduler/dfs/scheduler.hpp:292-324 | a run is pruned if and only if a preemption is due and the limit is reached; a preemption is granted if and only if another thread can run, the limit is not reached, and it is due or chosen |
| `DfsRunQueue.PreemptionScheduler.Start` | deps/twist/source/twist/rt/sim/scheduler/dfs/scheduler.hpp:155-164 | each run starts with an empty queue and no preemptions counted |
| `DfsRunQueue.SortedList.Clear` | deps/twist/source/twist/rt/sim/scheduler/dfs/scheduler.hpp:72-74 | the list becomes empty |
| `DfsRunQueue.PreemptionScheduler.PickNext` | deps/twist/source/twist/rt/sim/scheduler/dfs/scheduler.hpp:271-290 | the run is cut off if and only if the steps are used up or a preemption is due that the limit forbids; otherwise the active thread goes on unless it is preempted, or the thread at the chosen position runs and its steps start anew; no thread is lost, the queue stays sorted, and the limit is kept |
| `DfsRunQueue.PreemptionScheduler.AddStep` | deps/twist/source/twist/rt/sim/scheduler/dfs/scheduler.hpp:326-336 | the step is counted for the run and for the active thread, unless it is one too many |
| `DfsRunQueue.PreemptionScheduler.Switch` | deps/twist/source/twist/rt/sim/scheduler/dfs/scheduler.hpp:282-289 | the thread at the chosen position leaves the queue, the preempted one enters it |
| `DfsRunQueue.InsertedSorts` | deps/twist/source/twist/rt/sim/scheduler/dfs/scheduler.hpp:37-44 | insertion keeps the list sorted and adds exactly the thread |
| `ChannelRing.Ring.Put` | src/exe/fiber/sync/channel/buffered.hpp:41-46 | appends one item, whether the vector still grows or a slot is reused |
| `ChannelRing.Ring.Take` | src/exe/fiber/sync/channel/buffered.hpp:70-71 | removes the oldest item |
| `ChannelRing.Ring.IsFull` | src/exe/fiber/sync/channel/buffered.hpp:91-93 | full means that `capacity` items are buffered |
| `BufferedChannel.RunKeeps` | src/exe/fiber/sync/channel/buffered.hpp:27-80 | queued receivers never outnumber what is promised: the buffered items are at most the receivers already woken; and dually for senders and free slots, in every state of every run |
| `BufferedChannel.NobodyStranded` | src/exe/fiber/sync/channel/buffered.hpp:27-80 | when nobody woken is on the way, a parked receiver means an empty buffer and a parked sender a full one |
| `BufferedChannel.DeliversInOrder` | src/exe/fiber/sync/channel/buffered.hpp:27-80 | values are received in the order they were sent, and at most `capacity` are under way |
| `ChannelTheorems.RunRefines` | src/exe/fiber/sync/channel/buffered.hpp:27-80 | every run is a run of a bounded queue seen by callers: Send appends the argument of its call, also after parking, Recv returns with the front of the buffer |
| `ChannelTheorems.StepRefines` | src/exe/fiber/sync/channel/buffered.hpp:27-80 | each step is one step of the bounded queue or unnoticed by all fibers |
| `ChannelTheorems.ReturnsWhatWasSent` | src/exe/fiber/sync/channel/buffered.hpp:27-80 | the values receivers return with, followed by the buffer, are the arguments of the sends that returned, in that order |
| `ChannelTheorems.WokenInOrder` | src/exe/fiber/sync/channel/buffered.hpp:27-80 | senders, and likewise receivers, are woken in the order in which they parked |
| `SizeClasses.GetSizeClass` | deps/twist/source/twist/rt/sim/system/memory/isolated/heap/size_classes.hpp:20-38 | the smallest class from 16 bytes on that holds the size, found if and only if the largest class does |
| `SimulatedHeap.Allocator.NewBlock` | deps/twist/source/twist/rt/sim/system/memory/isolated/heap/brk.hpp:38-66 | a fresh block at the break, nothing exactly if the segment has no room, a panic exactly if there is room and the index is full; the free lists stay and the index stays ordered |
| `SimulatedHeap.Allocator.Align` | deps/twist/source/twist/rt/sim/system/memory/isolated/alignment.hpp:27-32 | the next aligned address |
| `SimulatedHeap.LowerBound` | deps/twist/source/twist/rt/sim/system/memory/isolated/heap/index.hpp:53-55 | the binary search finds the first block that is not below the address |
| `SimulatedHeap.Allocator.Lookup` | deps/twist/source/twist/rt/sim/system/memory/isolated/heap/index.hpp:35-65 | finds the block whose user data contains the address, if there is one |
| `SimulatedHeap.Allocator.Access` | deps/twist/source/twist/rt/sim/system/memory/isolated/heap/allocator.hpp:82-89 | true if and only if the range lies inside one live allocation of the user |
| `SimulatedHeap.Allocator.Allocate` | deps/twist/source/twist/rt/sim/system/memory/isolated/heap/allocator.hpp:41-72 | an aligned block, large enough, that was not live; everything live stays as it was; nothing if and only if the list of its class is empty and the segment has no room, a panic if and only if the size is above the limit or a new block finds the index full |
| `SimulatedHeap.Allocator.Free` | deps/twist/source/twist/rt/sim/system/memory/isolated/heap/allocator.hpp:74-80 | foreign pointers and double frees are refused, otherwise exactly that allocation dies; for a live pointer it crashes if and only if the free list is full and the segment has no room for a larger buffer, and panics if and only if that buffer fits no class or finds the index full |
| `SimulatedHeap.FreeMayCrash` | deps/twist/source/twist/rt/sim/system/memory/isolated/heap/free_list/vector.hpp:84-94 | a heap of 48 bytes on which freeing the only allocation crashes |
| `SimulatedHeap.Allocator.FreeBlock` | deps/twist/source/twist/rt/sim/system/memory/isolated/heap/allocator.hpp:132-158 | a second free is refused; otherwise the block enters the list of its class, which first gets a larger buffer if it is full; crash and panic exactly as for that buffer |
| `SimulatedHeap.Allocator.ResizeBuffer` | deps/twist/source/twist/rt/sim/system/memory/isolated/heap/free_list/vector.hpp:84-109 | a larger buffer in a service block, with the same entries; a crash if and only if the segment has no room for it, a panic if and only if it fits no class or the index is full |
| `SimulatedHeap.Allocator.TryPop` | deps/twist/source/twist/rt/sim/system/memory/isolated/heap/free_list/vector.hpp:30-59 | the last block of the list, or the one the random choice picks, leaves the list by swap and pop; nothing if and only if the list is empty |
| `SimulatedHeap.FreePops` | deps/twist/source/twist/rt/sim/system/memory/isolated/heap/free_list/vector.hpp:39-51 | swap and pop keep every free list exact |
| `SimulatedHeap.Allocator.TryDown` | deps/twist/source/twist/rt/sim/system/memory/isolated/shared_segment.hpp:53-59 | stacks are taken from above all blocks |
| `SimulatedHeap.LiveAreApart` | deps/twist/source/twist/rt/sim/system/memory/isolated/heap/brk.hpp:38-66 | any two live allocations are disjoint |
| `SimulatedHeap.LiveIsSound` | deps/twist/source/twist/rt/sim/system/memory/isolated/heap/brk.hpp:38-66 | every live allocation is aligned, large enough, inside its block, above the start of the segment and below the stacks |

## Left out

- 16-bit wrap of stamps, 32- and 64-bit wrap of counters, epochs and positions: stamps and counters are unbounded naturals. The subtraction in `Grab` does wrap.
- Weak memory: atomics are sequentially consistent in all transition systems; the race detector model has the memory orders of its source.
- `ThreadPool::Stop`, `n_parked_` and the `worker_stop_` flags: the pool is modelled until it is stopped.
- Ring and queue operations are single steps in `FastPool`; `StealRingTheorems.RunRefines`, `StealRing.RefusalsAreRight` and the contracts of `GlobalQueue` are what justifies it. A size estimate may be any number there.
- The destructor of the lock-free stack and `CleanUpImpl`, which clears the retired list without looking at hazards.
- Progress is stated for a thread that runs alone, in the queue, the strand, the stack and the ring; not for the reference counting, whose loops are those of one fetch-add, and not as lock-freedom of all threads together.
- Self-assignment of `SharedPtr`, and assignment from an object owned by the target.
- Lifetimes of computations in `First`, `Start`, `Detach` and `Box`; the model of futures keeps values, schedulers and who resumes whom. Exceptions are not modelled.
- Boxed futures: a function that erases the type of its result may return a future made with itself, which `FuturesTypes.TypedHasValue` excludes and `FuturesTypes.SelfReturningDiverges` shows to have no value.
- FuturesCalls.CallsMade: functions given to Submit are not in the log of calls; `FuturesLaws.SourceLaws` says what they deliver and where.
- Futures run as a set of activities in any order, which includes all orders of the real calls; both halves of `Both` start independently.
- Values of atomic variables, source locations and statistics in the race detector and the heap; the payload of heap blocks, so a canary is dead exactly where no block begins.
- StandardOrder.TidyReportIffRace: the condition is sufficient only. A run that breaks it may still agree with the standard, for instance if all other threads are spawned after the relaxed store, so no condition on memory orders alone is exact.
- SimulatedHeap.Allocator.FreeBlock: writes the header after the list has room, the source before; nobody looks in between.
- SimulatedHeap.Allocator.Free: pointers to the allocator's own service blocks are excluded, because no caller can obtain one; the source would free them.
- HazardStackTheorems.RunRefines: one stack, which uses slot 0 of each thread; other structures that share the hazard domain are not modelled.
- BufferedChannel.RunKeeps: each critical section of the spin lock is one step; the lock itself is not modelled.
- `DfsRunQueue` takes the answers of `Choose` as arguments; `DfsExploration` treats a simulation as a finite tree of choices.
- A choice among no alternatives is the caller's obligation to avoid: `DfsExploration.NoAlternatives` shows that backtracking never exhausts one, and the trees of `DfsExploration` have none.
- `RunLoop`: it only pops the intrusive list and runs what it finds.
- Context switching, stacks and signals, tracing, logging, fault injection, random and PCT schedulers, timers, condition variables, rendezvous channels and the remaining synchronisation of fibers and coroutines.
