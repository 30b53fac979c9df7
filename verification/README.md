# Verified models of crasy's concurrency protocols

crasy is a C++20 coroutine runtime. Its difficult part is a handful of small hand-written
concurrency protocols; this project models them and proves what they guarantee.

| files | what they model |
|---|---|
| `Sequences.dfy`, `Options.dfy`, `Words.dfy` | shared vocabulary |
| `QueueSpec.dfy`, `LfQueue.dfy` | `lfqueue<T>` used by one caller at a time: the abstract queue (spent front node, queued values, recycled nodes), and the class over heap nodes that refines it |
| `QueueMachine.dfy`, `QueueInvariant.dfy`, `QueueSteps.dfy`, `QueueTheorems.dfy`, `QueueLosses.dfy`, `QueueLimits.dfy` | `lfqueue<T>` with every atomic operation of `push`, `pop`, `new_entry` and `del_entry` as one step, any number of producers and consumers |
| `QueueSolo.dfy`, `QueueRefines.dfy` | that machine, its operations not overlapping, is the abstract queue |
| `QueueFinish.dfy`, `QueueProgress.dfy`, `QueueNodes.dfy` | operations of that machine that have begun end, with which result; and where its nodes are |
| `MultiLock.dfy`, `LockGuard.dfy`, `LockSystem.dfy` | the multi-mutex `lock(...)`: one task against an arbitrary environment, the guards it returns, and any number of tasks against each other |
| `SharedMutexSystem.dfy`, `SharedMutex.dfy` | the state word of `shared_mutex` over all interleavings, and the class with its queue of suspended coroutines |
| `PoolSpec.dfy`, `BlockingPool.dfy`, `PoolLimits.dfy`, `PoolShutdown.dfy` | the blocking pool over all interleavings: on an ideal queue, on the machine of `QueueMachine`, and exactly when the second is the first |
| `Executor.dfy` | one worker of the pool on the heap queue |
| `JoinSystem.dfy`, `JoinHandle.dfy` | `blocking_join_handle` and its shared block, as a system and as objects |
| `IoFuture.dfy` | the completion handshake of `io_future` |

A state machine takes a list of scheduling choices; a result about "every run" is a lemma for all such
lists. Memory is sequentially consistent. A choice that names no task, or calls into a busy one, leaves
the state as it is.

Things the proofs show that are not evident from the code or its comments:

- The queue is not a plain FIFO. A node whose value was taken last stays in front, and the next `pop`
  that finds a successor consumes that node and returns nothing although a value is queued
  (`QueueSpec.OldestWithinTwoPops`). Loops of the form "pop until nothing, schedule each", as in
  `shared_mutex::unlock`, therefore wake everybody exactly when the front is not such a node with
  coroutines behind it (`SharedMutex.DrainWakesAll`, `SharedMutex.DrainCanMiss`). The blocking pool
  survives it because of its counter (`Executor.Pool.BlockingWork`).
- Recycled nodes are safe exactly with one producer and one consumer. With two of either kind a
  concrete run ends with a live node on the free list and with exchanged values that can never be popped
  (`QueueLimits.RecyclingExactly`, `QueueLimits.ValuesExactly`). Without recycling any number of both is
  safe, but values can come back out of exchange order as soon as there are two consumers
  (`QueueLimits.InOrderExactly`).
- The blocking pool recycles nodes and shares its queue among all submitting threads and all blocking
  workers. It keeps every task, and its counter counts the queue, on every run exactly when there is one
  of each; with two submitters or two workers some run drops tasks, after which the workers pop for ever
  without parking (`PoolLimits.TasksExactly`, `PoolLimits.CounterExactly`, `PoolLimits.NeverParks`).
- A second `await_suspend` on an unfinished `blocking_join_handle` overwrites the first awaiter, which is
  then never resumed; nothing else loses a resumption (`JoinSystem.AllResumedExactly`).
- The first `await_ready` of `shared_mutex::lock` never returns true, even on a free mutex: after its
  successful claim it compares the word it saw before the claim
  (`SharedMutexSystem.FirstCallNeverReady`, `SharedMutex.LockFuture.AwaitReady`).
- The pool's unsigned counter can wrap below zero for a moment (`PoolLimits.CounterWraps`).

## Model

| member | source | states |
|---|---|---|
| QueueSpec.RunIsFifo | include/crasy/lfqueue.hpp:134-162 | for every sequence of operations, queued values plus pushed values are the returned values followed by what is still queued, in order |
| QueueSpec.MadeIsPeak | include/crasy/lfqueue.hpp:86-96 | nodes ever allocated = max(nodes at the start, longest live chain including the spent node), for every sequence of operations |
| QueueSpec.MadeFromFresh | include/crasy/lfqueue.hpp:101-112 | the same from a queue constructed with an initial capacity |
| QueueSpec.OldestWithinTwoPops | include/crasy/lfqueue.hpp:146-162 | a non-empty queue yields its oldest value at the first pop, or at the second exactly when the front is spent |
| QueueSpec.Drain | include/crasy/lfqueue.hpp:146-162 | popping everything: exactly one empty pop first if the front is spent, then all values in order, leaving a spent node |
| LfQueue.Entry.TakeData | include/crasy/lfqueue.hpp:41-53 | the value if there was one, and none is left |
| LfQueue.FreeList.constructor | include/crasy/lfqueue.hpp:101-112 | a well-formed free list of exactly the requested capacity |
| LfQueue.FreeList.NewEntry | include/crasy/lfqueue.hpp:86-96 | an unlinked node without a value: a recycled one if any, else a new one |
| LfQueue.FreeList.FilledEntry | include/crasy/lfqueue.hpp:135-137 | such a node carrying the value |
| LfQueue.FreeList.DelEntry | include/crasy/lfqueue.hpp:78-84 | the node joins the free list, which stays well formed |
| LfQueue.Queue.constructor | include/crasy/lfqueue.hpp:99-112 | an empty queue with the given spare nodes |
| LfQueue.Queue.Publish | include/crasy/lfqueue.hpp:138-143 | the live chain is extended by the node at head_ |
| LfQueue.Queue.Push | include/crasy/lfqueue.hpp:135-144 | the heap moves as the abstract push; only new nodes are added |
| LfQueue.Queue.TakeFront | include/crasy/lfqueue.hpp:149-155 | tail_ is on the successor, null after the last node; the result is the front's value unless it was spent |
| LfQueue.Queue.Retire | include/crasy/lfqueue.hpp:156-160 | the last node is back in front, spent; any other joins the recycled nodes; either way the queue is well formed again |
| LfQueue.Queue.PopSome | include/crasy/lfqueue.hpp:149-161 | on a non-empty chain: no node is lost or gained, the front is left behind exactly when it has a successor |
| LfQueue.Queue.Pop | include/crasy/lfqueue.hpp:146-162 | the heap and the result move as the abstract pop; the set of nodes is unchanged |
| LfQueue.Queue.AllocatedNodes | include/crasy/lfqueue.hpp:74-96 | the two chains visit no node twice, share none, and together are exactly the allocated nodes, whose number the abstract state gives |
| LfQueue.Queue.Destroy | include/crasy/lfqueue.hpp:114-127 | both walks end and delete every allocated node exactly once |
| QueueSteps.ProducerStep | include/crasy/lfqueue.hpp:78-144 | every atomic step of push keeps the invariant, with any number of tasks, or with recycling by one producer and one consumer |
| QueueSteps.ConsumerStep | include/crasy/lfqueue.hpp:146-162 | the same for every atomic step of pop (where the steps lead: QueueFinish.PopEnds) |
| QueueSteps.Reuse | include/crasy/lfqueue.hpp:88-93 | when the compare-exchange in new_entry succeeds, the node taken is the top of the free list and the successor read earlier is still the node below it; the invariant is kept |
| QueueSteps.Exchange | include/crasy/lfqueue.hpp:138-138 | the head_ exchange appends to the live chain, linked or not |
| QueueSteps.PublishFirst | include/crasy/lfqueue.hpp:139-140 | the first store to tail_ cannot collide with a window |
| QueueSteps.Link | include/crasy/lfqueue.hpp:141-142 | linking behind the displaced node, also while a consumer is at that node |
| QueueSteps.OpenWindow | include/crasy/lfqueue.hpp:149-154 | taking tail_ to null, even on a stale reading of next |
| QueueSteps.Advance | include/crasy/lfqueue.hpp:149-154 | moving tail_ to the successor hands the old front to this consumer alone |
| QueueSteps.CloseWindow | include/crasy/lfqueue.hpp:156-157 | the front node comes back spent, with whatever was linked behind it |
| QueueSteps.Recycle | include/crasy/lfqueue.hpp:78-84 | the compare-exchange in del_entry extends the free list |
| QueueTheorems.Reachable | include/crasy/lfqueue.hpp:78-162 | every reachable state satisfies the invariant, when recycling is confined to one producer and one consumer |
| QueueTheorems.FifoStep | include/crasy/lfqueue.hpp:135-162 | every atomic step is a move of a FIFO with empty pops: it appends the value at the head_ exchange, moves the oldest value into the hand of the consumer that wins tail_, returns a hand, or changes nothing |
| QueueTheorems.SingleProducerSingleConsumer | include/crasy/lfqueue.hpp:78-162 | one producer, one consumer, recycling or not: values returned are a prefix of the values exchanged, which are a prefix of the values pushed |
| QueueTheorems.EachValueOnce | include/crasy/lfqueue.hpp:135-162 | any number of tasks without recycling, or one producer and one consumer with it: the values that left are the first in exchange order, each in exactly one result or one hand; all the others are in the live chain, in order; the free list is whole and shares no node with it |
| QueueTheorems.AtMostOneWindow | include/crasy/lfqueue.hpp:149-157 | any number of tasks, recycling or not: at most one consumer is inside the window, and tail_ is null only there or before the first publication |
| QueueTheorems.NothingStranded | include/crasy/lfqueue.hpp:138-157 | with no store pending, that chain is the path from tail_ |
| QueueFinish.PopEnds | include/crasy/lfqueue.hpp:146-162 | from every state, wherever a consumer is inside pop and however stale its readings: ten turns of its own in a row end the operation, in the state given; a lost compare-exchange reloads tail_ or free_ |
| QueueFinish.PushEnds | include/crasy/lfqueue.hpp:78-144 | the same for a producer inside push: a lost compare-exchange in new_entry goes on with the current free_ |
| QueueProgress.PopReturns | include/crasy/lfqueue.hpp:146-162 | in every reachable state (nodes not recycled, or one producer and one consumer), that pop returns the value in its hand if it has won tail_ already; otherwise the oldest value waiting, or nothing exactly when tail_ is null or the front is spent |
| QueueProgress.PushReturns | include/crasy/lfqueue.hpp:135-144 | in the same states, that push adds its value, if not exchanged yet, behind those waiting, and allocates a node only if none is left to reuse |
| QueueNodes.EachNodeOnce | include/crasy/lfqueue.hpp:78-162 | on the same runs every allocated node is in exactly one place: a position of the live chain or of the free list, or the hand of one task |
| QueueSolo.SoloPush | include/crasy/lfqueue.hpp:135-144 | the net effect on every field of a push followed by turns of its own task only |
| QueueSolo.SoloPop | include/crasy/lfqueue.hpp:146-162 | the net effect on every field of a pop followed by turns of its own task only |
| QueueSolo.SoloPopEmpty | include/crasy/lfqueue.hpp:149-151 | the same for a pop that finds no node |
| QueueRefines.PushRefines | include/crasy/lfqueue.hpp:135-144 | an uninterrupted push of the machine is the abstract push |
| QueueRefines.PopRefines | include/crasy/lfqueue.hpp:146-162 | an uninterrupted pop of the machine is the abstract pop, result included |
| QueueRefines.StartRepresents | include/crasy/lfqueue.hpp:101-112 | a new queue represents the empty abstract queue with that many spare nodes |
| QueueRefines.OneAtATime | include/crasy/lfqueue.hpp:134-162 | from a new queue, any calls that do not overlap, each with enough turns of its task, return what the abstract queue returns, and the heap represents the abstract result |
| QueueLimits.RecyclingExactly | include/crasy/lfqueue.hpp:78-96 | for every capacity: on every run no node is reachable both from the live chain (linked or not) and from free_, if and only if recycling is confined to one producer and one consumer |
| QueueLimits.ValuesExactly | include/crasy/lfqueue.hpp:135-162 | for every capacity: on every run each exchanged value is in exactly one result or hand or still in the live chain in order, under exactly the same condition |
| QueueLimits.InOrderExactly | include/crasy/lfqueue.hpp:146-162 | for every capacity: results are a prefix of the exchange order on every run if and only if there is one consumer, and one producer if nodes are recycled (or no consumer) |
| QueueLosses.OutOfOrder | include/crasy/lfqueue.hpp:153-155 | from any capacity, a run with two consumers, recycling or not, in which the second value is returned first |
| QueueLosses.TwoConsumers | include/crasy/lfqueue.hpp:149-154 | from any capacity, a run with two consumers: tail_ is the bottom of the free list, and an exchanged value is out of reach |
| QueueLosses.TwoProducers | include/crasy/lfqueue.hpp:86-93 | from any capacity, a run with two producers: nothing left to pop, two exchanged values overwritten or cut off, free_ leading to the front node |
| MultiLock.RotateAt | include/crasy/lock_guard.hpp:55-60 | position j of the rotated list is position (count + j) mod N of the original |
| MultiLock.RotatePermutes | include/crasy/lock_guard.hpp:55-60 | rotation permutes the list |
| MultiLock.World.Lock | include/crasy/lock_guard.hpp:79-79 | the contract of an awaited lock |
| MultiLock.World.TryLock | include/crasy/lock_guard.hpp:66-66 | the contract of try_lock |
| MultiLock.World.Unlock | include/crasy/lock_guard.hpp:68-68 | the contract of unlock |
| MultiLock.TryLockImpl | include/crasy/lock_guard.hpp:62-73 | all or nothing, for any list and any interference: k < N takes k, is refused the next and releases the k latest first; k = N holds all |
| MultiLock.LockFirst | include/crasy/lock_guard.hpp:78-87 | the same with the first mutex awaited instead of tried |
| MultiLock.LockImpl | include/crasy/lock_guard.hpp:75-89 | N exactly when all are held; otherwise holdings are restored and the result is below N and is the original index of the mutex that refused |
| MultiLock.LockAll | include/crasy/lock_guard.hpp:93-103 | if others only release, the loop ends holding every mutex, within 1 + (mutexes initially held by others) rounds; what it did is a sequence of rounds, the first from the first mutex, each later one from the mutex that refused in the round before |
| MultiLock.WaitsWithNothing | include/crasy/lock_guard.hpp:75-100 | in every such sequence of rounds, each mutex is awaited with none held, and all are held at the end |
| LockGuard.Guard.Move | include/crasy/lock_guard.hpp:24-24 | the step of the program; the source guard becomes empty |
| LockGuard.Guard.Assign | include/crasy/lock_guard.hpp:32-35 | the step of the program; the two guards swap |
| LockGuard.Guard.Destroy | include/crasy/lock_guard.hpp:26-28 | the step of the program; unlocks exactly when not empty |
| LockGuard.EachUnlockedOnce | include/crasy/lock_guard.hpp:18-41 | over every sequence of takings, moves, swaps and destructions, guards holding a mutex plus unlocks of it are the times it was taken; with all guards empty, one unlock each |
| LockSystem.RunInv | include/crasy/lock_guard.hpp:62-103 | on every run a mutex is owned by exactly the task that lists it as held |
| LockSystem.WaitersHoldNothing | include/crasy/lock_guard.hpp:75-89 | on every run a task blocked in lock() holds nothing, so no mutex holder is itself blocked: no wait cycle |
| LockSystem.OnlyWaitersStop | include/crasy/lock_guard.hpp:65-103 | a task inside lock(...) that is not blocked can always take a step |
| LockSystem.NoDeadlock | include/crasy/lock_guard.hpp:65-103 | if some task is blocked and none can move, what it waits for is held by a task whose lock(...) has returned |
| LockSystem.HoldsWholeList | include/crasy/lock_guard.hpp:93-103 | when lock(...) returns, the task owns each mutex of its list, each once |
| LockSystem.FirstWait | include/crasy/lock_guard.hpp:97-99 | a call first waits for the first mutex of its list |
| LockSystem.Refused | include/crasy/lock_guard.hpp:65-71 | a refused try_lock starts the back-off from exactly the mutex that refused, for every list length |
| LockSystem.WaitsForRefused | include/crasy/lock_guard.hpp:79-86 | whatever the others do, the task then backs off until it gets exactly that mutex, by waiting for it |
| LockSystem.NoBound | include/crasy/lock_guard.hpp:98-100 | for every n, a run on which one call of lock(...) fails n rounds and still waits, another task re-acquiring |
| SharedMutexSystem.StepInv | src/shared_mutex.cpp:7-86 | every atomic operation on the word keeps the invariant |
| SharedMutexSystem.WordIsExact | src/shared_mutex.cpp:58-86 | on every run of fewer than 2^63 tasks the word is 2^63 for a writer plus granted readers plus retreating readers, without a carry |
| SharedMutexSystem.TopBit | src/shared_mutex.cpp:5-5 | EX_BIT is 2^63, half of 2^64, and a word has it exactly from 2^63 on |
| SharedMutexSystem.BoundExactly | src/shared_mutex.cpp:75-83 | the word has the bit exactly when some task has it, on every run, if and only if there are fewer than 2^63 tasks |
| SharedMutexSystem.OwnerExcludes | src/shared_mutex.cpp:58-86 | an owner excludes all readers and all other writers |
| SharedMutexSystem.ClosedToReaders | src/shared_mutex.cpp:7-20 | from claim to unlock no reader is granted and the number of readers never rises |
| SharedMutexSystem.PollGrantsExactly | src/shared_mutex.cpp:8-9 | a later await_ready is true exactly when all granted and all retreating readers have left |
| SharedMutexSystem.FirstCallNeverReady | src/shared_mutex.cpp:11-18 | over every interleaving of its retries with the others, the first await_ready never makes its task an owner; if it claims, the bit is set |
| SharedMutexSystem.GivesUpOnlyToWriter | src/shared_mutex.cpp:11-18 | on every run a first await_ready ends without the bit only if some other task had the bit when the call last read the word |
| SharedMutexSystem.ClaimsExactly | src/shared_mutex.cpp:11-18 | on every run, in two turns in a row it claims the bit exactly when nobody has it (or gives up, having seen it) |
| SharedMutexSystem.AttemptsGrantExactly | src/shared_mutex.cpp:58-83 | try_lock succeeds exactly when nobody is inside and no writer is there; try_lock_shared exactly when no writer is there |
| SharedMutex.DrainWakesAll | src/shared_mutex.cpp:65-72 | the drain loop wakes everybody in order, or nobody exactly when the front is spent; the next drain then wakes them |
| SharedMutex.WokenInOrder | src/shared_mutex.cpp:65-72 | over every history of suspensions and drains, the coroutines woken and then those still waiting are those suspended, in order |
| SharedMutex.DrainCanMiss | src/shared_mutex.cpp:65-72 | a concrete history in which a drain wakes nobody although one waits, and the next drain does |
| SharedMutex.Mutex.TryLock | src/shared_mutex.cpp:58-61 | the word and the result move as in the interleaved model |
| SharedMutex.Mutex.TryLockShared | src/shared_mutex.cpp:75-83 | granted exactly on a word below 2^63; the word moves as in the interleaved model, and a refused reader leaves it as it was |
| SharedMutex.Mutex.Drain | src/shared_mutex.cpp:65-72 | on the heap queue, what the drain loop schedules and leaves, spurious empty pops included |
| SharedMutex.Mutex.Unlock | src/shared_mutex.cpp:63-73 | the word moves as in the interleaved model and one drain happens |
| SharedMutex.Mutex.UnlockShared | src/shared_mutex.cpp:85-96 | the word moves as in the interleaved model; only the last one out drains |
| SharedMutex.LockFuture.AwaitReady | src/shared_mutex.cpp:7-20 | true exactly on a call after the claim with the word equal to the bit alone; otherwise claims the bit if it is free; word, flag and result move as Ask and Claim, or Poll, of the interleaved model |
| BlockingPool.StepSimulates | src/executor.cpp:129-166 | every step of the pool on the queue machine is a step of the ideal pool or changes nothing there |
| BlockingPool.Refines | src/executor.cpp:129-166 | under the same restriction every run of the pool is a run of the ideal pool |
| BlockingPool.CounterAlways | src/executor.cpp:130-155 | any number of submitters and workers, recycling or not: the counter is values exchanged minus not yet added minus returned plus not yet subtracted, modulo 2^64 |
| BlockingPool.NoTaskLostOrRepeated | src/executor.cpp:129-166 | one submitter and one worker, or nodes never recycled: on every run each submission is in exactly one of: with its submitter, in the live chain, in a worker's hand, run |
| BlockingPool.CounterInFlight | src/executor.cpp:130-155 | one submitter and one worker, or nodes never recycled: the counter is the number of values in the live chain plus claimed-not-subtracted minus exchanged-not-added, modulo 2^64 |
| BlockingPool.CounterAtRest | src/executor.cpp:130-155 | under the restriction that PoolLimits.CounterExactly proves exact: with nothing in flight the counter is the number of values in the live chain |
| BlockingPool.ParksExactlyWhenDrained | src/executor.cpp:158-163 | under the restriction that PoolLimits.ParksExactly proves exact: with nothing in flight, a worker that evaluates the wait predicate stays parked exactly when the live chain carries no value |
| BlockingPool.OneWorkerInOrder | src/executor.cpp:150-156 | a single worker runs tasks in the order of the head_ exchanges, which for a single submitter is the order of submission |
| PoolLimits.LiftRun | src/executor.cpp:129-166 | a run of the queue without empty pops is what the queue does on some run of the pool, whose workers run what was returned |
| PoolLimits.TasksExactly | src/executor.cpp:129-166 | on every run each submission is in exactly one place, if and only if recycling is confined to one submitter and one worker |
| PoolLimits.TasksLost | src/executor.cpp:129-156 | with two of either, a run with nobody inside the queue and nothing left to pop on which fewer tasks were run than submitted, and the counter counts the missing ones |
| PoolLimits.CounterExactly | src/executor.cpp:130-155 | the counter tells what the live chain holds, on every run, in flight and at rest, if and only if recycling is confined to one submitter and one worker |
| PoolLimits.ParksExactly | src/executor.cpp:158-163 | a parked worker stays parked exactly when there is nothing to pop, on every run, under exactly the same condition |
| PoolLimits.SpinsForEver | src/executor.cpp:150-166 | once only a spent node is left and the counter is positive, then until a new submission or shutdown nothing is run, nobody leaves, and every worker at the wait predicate goes back to pop |
| PoolLimits.NeverParks | src/executor.cpp:150-166 | with two of either, some run ends there, with tasks unrun, whatever is scheduled afterwards |
| PoolLimits.OrderExactly | src/executor.cpp:150-156 | tasks run in exchange order on every run, if and only if there is one worker and, with recycling, one submitter |
| PoolLimits.CounterWraps | src/executor.cpp:130-155 | a run in which the counter is 2^64 - 1 |
| PoolShutdown.LeaveOnlyAfterShutdown | src/executor.cpp:158-165 | on every run a worker has left only after a shutdown |
| PoolShutdown.LeavesAfterShutdown | src/executor.cpp:150-166 | after a shutdown (one submitter and one worker, or nodes never recycled), a worker that gets enough turns has left |
| Executor.Pool.RunBlocking | src/executor.cpp:129-134 | the queue and the counter after a submission |
| Executor.Pool.NextTask | src/executor.cpp:153-155 | a pop and the matching decrement keep counter and queue length equal |
| Executor.Pool.BlockingWork | src/executor.cpp:150-166 | on the real queue a worker runs all queued tasks in order and parks with the counter at 0 after one or two empty pops; when shutting down, exactly which tasks it leaves behind |
| JoinSystem.StepInv | include/crasy/spawn_blocking.hpp:28-126 | every critical section of owners and workers keeps the invariant |
| JoinSystem.FreedExactlyOnce | include/crasy/spawn_blocking.hpp:62-126 | on every run no access to a deleted block, at most one handle per block, deleted at most once, and once the worker is done deleted exactly if the owner has let go |
| JoinSystem.ResumedExactlyOnce | include/crasy/spawn_blocking.hpp:43-125 | on every run an awaiter is resumed at most once and only after the outcome is stored; when the worker is past scheduling, exactly once if and only if no later await_suspend overwrote it |
| JoinSystem.NoneLostExactly | include/crasy/spawn_blocking.hpp:48-55 | an awaiter is overwritten on a run exactly when some await_suspend meets an unfinished block with an awaiter |
| JoinSystem.AllResumedExactly | include/crasy/spawn_blocking.hpp:43-125 | with every worker past scheduling, every awaiter was resumed exactly once if and only if no await_suspend did |
| JoinSystem.SecondAwaiterWins | include/crasy/spawn_blocking.hpp:48-55 | a run with two await_suspend before the end: the first awaiter is never resumed |
| JoinSystem.OutcomeIsReturned | include/crasy/spawn_blocking.hpp:105-126 | on every run a block has an outcome exactly from the moment its worker has published it, and it is the one with which the function of that block ended |
| JoinSystem.EndedOnce | include/crasy/spawn_blocking.hpp:109-109 | that end is one choice of the run, so the outcome is unique |
| JoinHandle.StateBlock.Call | include/crasy/spawn_blocking.hpp:105-126 | the four steps of the system for this worker; the outcome stored is the one the function ended with; exactly the awaiter the system resumes is scheduled |
| JoinHandle.Handle.Spawn | include/crasy/spawn_blocking.hpp:133-135 | the step of the system: a new block with one handle that owns it |
| JoinHandle.Handle.Move | include/crasy/spawn_blocking.hpp:28-30 | the step of the system; the source handle becomes null |
| JoinHandle.Handle.Assign | include/crasy/spawn_blocking.hpp:38-41 | the step of the system; the two handles swap, also onto themselves |
| JoinHandle.Handle.AwaitReady | include/crasy/spawn_blocking.hpp:43-46 | touches no deleted block, and is true exactly when the outcome is stored |
| JoinHandle.Handle.AwaitSuspend | include/crasy/spawn_blocking.hpp:48-55 | the step of the system, also with an awaiter already stored; scheduled at once exactly when the outcome is stored; an overwritten awaiter is lost |
| JoinHandle.Handle.AwaitResume | include/crasy/spawn_blocking.hpp:57-60 | touches no deleted block, and gives the value with which the function of the task returned |
| JoinHandle.Handle.Detach | include/crasy/spawn_blocking.hpp:62-72 | the two steps of the system: deleted here exactly when finished, otherwise left to the worker |
| JoinHandle.Handle.Destroy | include/crasy/spawn_blocking.hpp:32-34 | the same, and nothing when null |
| IoFuture.ResumedOnce | src/io_future.cpp:8-22 | on every interleaving with one finish, a suspended coroutine is resumed exactly once and never before finish |
| IoFuture.Future.AwaitReady | src/io_future.cpp:8-8 | the step of the handshake; true exactly when finish has come first |
| IoFuture.Future.AwaitSuspend | src/io_future.cpp:10-15 | the steps of the handshake; schedules the coroutine exactly when finish has come in between |
| IoFuture.Future.Finish | src/io_future.cpp:17-22 | the steps of the handshake; schedules the coroutine exactly when it has suspended |

## Left out

- QueueTheorems.Reachable: with several producers or consumers it holds for nodes that are never recycled; `QueueLimits.RecyclingExactly` and `QueueLimits.ValuesExactly` show that this restriction is exact for queues with at least one of each (without a consumer nothing is ever recycled).
- QueueMachine: orderings weaker than sequential consistency are not modelled, nor is `data_t<U&>`, which keeps a pointer instead of a flag and a value.
- LfQueue.Queue.Push: the compare-exchange loops of `new_entry` and `del_entry` appear as single moves, because nothing intervenes there; `QueueMachine` has the loops. The free list is an object of its own.
- MultiLock.World.Lock: that an awaited lock is eventually granted is its contract; `crasy::mutex::lock` is declared in include/crasy/mutex.hpp:40 and its definition is not part of this model.
- MultiLock.LockAll: termination is stated for other tasks that only release; with tasks that keep re-acquiring there is no bound (`LockSystem.NoBound`).
- LockSystem.NoDeadlock: a task makes one `lock(...)` call at a time and drops its guards before the next; nested calls can deadlock like any nested locking.
- SharedMutexSystem.WordIsExact: for fewer than 2^63 tasks; with more, readers alone can set the writer bit (`SharedMutexSystem.BoundExactly`).
- SharedMutex.Mutex.Unlock: says which coroutines are scheduled, not that they go on to acquire; `await_suspend` of the futures and `shared_mutex_lock_shared_future::await_ready`, which calls the exclusive `try_lock`, are left out.
- BlockingPool.NoTaskLostOrRepeated: the executor recycles nodes, so of the pools it can build this covers the one with one blocking worker and one submitting thread; for the others it is false (`PoolLimits.TasksExactly`), and it holds again if nodes are never recycled. `BlockingPool.CounterInFlight`, `BlockingPool.CounterAtRest` and `BlockingPool.ParksExactlyWhenDrained` share the restriction, exact by `PoolLimits.CounterExactly` and `PoolLimits.ParksExactly`; `BlockingPool.CounterAlways` holds without it.
- BlockingPool.ParksExactlyWhenDrained: that a notified worker wakes up, and that work queued at shutdown is run, does not hold in general; the mutex around the wait is left out.
- JoinHandle.Handle.AwaitResume: asks for a task that did not throw, because the source never rethrows the stored exception.
- Awaited `mutex::lock`, `condition_variable`, `unique_lock`, `stream`, `join_handle`, `option` and `result`, timers, sockets, the resolver and thread creation.
