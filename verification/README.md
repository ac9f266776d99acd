# Verified model of Melon

Melon runs many fibers on a few kernel threads. Fibers block on mutexes, conditions, timers and file
descriptors; all of these share intrusive queues that link a fiber through `next`/`prev`, and a sorted
timer queue that links it through `timer_next`/`timer_prev`. This project models that shared core and
proves what holds in every run of it. `dafny verify dfyconfig.toml` checks everything.

## How it is built

Three layers describe the same code.

1. **Pointers.** `Objects` has the structs as classes. `Rings` has the list macros of `dlist.h` and `list.h`, the
   loop of `melon_sched_ready_locked` and the walk of `melon_timer_push_locked`, as methods that rewrite links in
   place; each is proved to act on a ring as an operation on the sequence of its fibers. `Heap` collects the rings
   of all queues, says when they are well formed together, and defines `View()`, the value that the heap stands
   for. `LockCode`, `CondCode`, `IoCode` and `TimerCode` are the locked parts of `mutex.c`, `cond.c`,
   `io_manager_epoll.c`, `io.c` and `timer_manager.c` as methods on this heap.
2. **Values.** `Memory` has the same state as values, and `Regions` one function for each critical section. Each method
   of layer 1 ensures that the new value is what its function makes of the old value.
3. **Interleavings.** `Machine` is the runtime as a transition system: a step is one critical section, taken by a
   fiber, the timer thread, the reactor or the kernel, and steps interleave freely; the window inside
   `melon_mutex_unlock` between its two locked parts is one of the places where others step in. `Invariant` is the
   inductive invariant, the `Preserve` modules and `Safety` prove that every step keeps it, `Faults` says exactly
   when a step fails an assertion or unlinks a fiber from a ring that does not hold it, and `Theorems`, `Outcomes`
   and `Passes` draw the consequences. `Calls` says how a call goes on while others run, `Returns` what a call with
   a timeout comes to over a whole run. `MutexLaws`, `IoLaws` and `Deadlines` say of each call exactly when it
   succeeds, whom it wakes and what it leaves, by owners, depths, queues and timers alone; `Nesting` and
   `Deadlines` draw from that what holds over runs: nested locks balance, and nothing times out early. `Bridge`,
   `Execution` and `Interleaving` run layers 1 and 3 together: the constructor of the heap represents a world in
   which runs begin, and for each of the machine's steps the method that runs it takes a heap that represents the
   world before to one that represents the world after. The steps that need only a spinlock are shown to do so in
   the middle of a `melon_cond_signalnb`, while its waiters hang in the signaller's local list.

On top of layer 3, `Barrier` and `BarrierRuns` (the barrier), and `RwLock` and `RwLaws` (the reader/writer lock)
interleave the statements of `barrier.c` and `rwlock.c` with arbitrary steps of other fibers; the members of a
barrier's team may start one after the other, and do anything between their waits that does not touch the barrier's
own mutex and condition. `Sched` has the kernel threads, the fiber spinlocks and the wake-ups; `Threads` proves
that each step of the machine is a sequence of its steps, so that its guards (only a parked fiber is made ready)
are consequences of the machine's invariant. `Stack` (the stack cache) stands on its own. `Departures` and `LostReader` hold
concrete inputs, and runs that reach them, on which the code does less than one may expect.

Runs are called courteous when timeouts are below 2^63 and no descriptor is closed behind the runtime's back
while a fiber waits for it; both conditions are proved to be exactly what the promises need
(`Outcomes.TimeoutWidth`, `Outcomes.RawCloseLoses`). A fiber unlocks only a mutex that it owns.

Where comments and code disagree the model follows the code: a hand-off gives depth 1 although
`fiber->lock_count` is said to restore the depth (`src/cond.c` and `src/mutex.c`); `melon_cond_signalnb` drops the
waiters that it does not wake; the comment on `sched_next_cb` is about a read that happens after the
spinlock is released; `melon_rwlock_unlock` never signals the readers' condition, because the writers' condition it
tests for always exists.

## Model

| member | source | states |
|---|---|---|
| Rings.Push | src/dlist.h:5-20 | push makes the ring of `s` the ring of `s + [item]`, both link directions well formed, other pair of links untouched |
| Rings.Insert | src/dlist.h:22-45 | insert puts the fiber in front or after `prev`, at position `k` of the sequence |
| Rings.Unlink | src/dlist.h:47-67 | unlink removes the fiber wherever it stands, keeps the order of the others and nulls its links |
| Rings.Pop | src/dlist.h:70-75 | pop takes the head, null exactly if the ring is empty |
| Rings.Inverse | src/dlist.h:5-75 | in a ring `next` and `prev` are inverses, and never leave the ring |
| Rings.ListPush | src/list.h:5-18 | push on the tail-pointer ring appends |
| Rings.ListPop | src/list.h:20-40 | pop takes the first fiber, from a ring or from a lone fiber with NULL link |
| Rings.MoveAll | src/sched.c:67-86 | the loop ends, turns ready into ready ++ input in order, clears the awaited events and counts the fibers |
| Rings.Walk | src/timer_manager.c:79-91 | the walk ends and stops at the first fiber whose timer is not smaller, or back at the head |
| Rings.InsertSorted | src/timer_manager.c:76-95 | the new fiber stands at that place, before equal timers; a new head is reported |
| Rings.SortedAfterInsert | src/timer_manager.c:76-95 | insertion there keeps the timers non-decreasing |
| Heap.Melon.SchedReady | src/sched.c:72-80 | one woken fiber goes from no queue to the end of the ready queue, all other rings untouched |
| Heap.Melon.NextReady | src/sched.c:21-21 | dispatch takes the head of the ready queue, which is then in no queue |
| Heap.Melon.TimerPush | src/timer_manager.c:76-95 | the heap changes as sorted insertion with a signal for a new head |
| Heap.Melon.TimerRemove | src/timer_manager.c:105-110 | both asserted links are there, and only this fiber leaves the timer queue |
| LockCode.Lock2 | src/mutex.c:66-87 | a waker makes the fiber owner at its saved depth and ready, or queues it at the end |
| LockCode.Lock | src/mutex.c:89-123 | take, recurse, or queue, as the value function says |
| LockCode.Trylock | src/mutex.c:156-171 | takes the lock exactly if it is free or recursively owned |
| LockCode.TimedlockSlow | src/mutex.c:202-229 | re-check of the owner, then both queues at once, timer converted to 64 signed bits |
| LockCode.UnlockDecrement | src/mutex.c:127-131 | the count goes down and says whether to release |
| LockCode.UnlockFast | src/mutex.c:133-140 | frees the mutex only if nobody waits |
| LockCode.UnlockHandoff | src/mutex.c:142-153 | the head waiter, if one is left, becomes owner at depth 1, loses its timer and is ready; else the mutex is free |
| LockCode.TimedlockExpired | src/mutex.c:180-188 | the expired waiter leaves the lock queue, is flagged and ready |
| CondCode.Wait | src/cond.c:35-55 | the owner saves mutex and depth and joins the condition's queue |
| CondCode.TimedWait | src/cond.c:99-131 | the same, with its timer in the timer queue |
| CondCode.Release | src/cond.c:57-59 | every recursion level is given up at once |
| CondCode.Expired | src/cond.c:73-87 | the expired waiter leaves the condition, is flagged and goes for its mutex |
| CondCode.Signal | src/cond.c:148-170 | the loop over the local list, pointers included, computes the wake-ups of the value function and their number |
| IoCode.EpollCtl | src/io_manager_epoll.c:147-166 | the retry loop ends after at most two calls, whatever `is_in_epoll` said, with the descriptor registered, armed for both interests and flagged; if a call is refused for another reason, at most a wrong flag has been corrected |
| IoCode.Waitfor | src/io_manager_epoll.c:138-192 | interest and queue are updated together, and the timer if there is one; if epoll_ctl refuses, the fiber is in no queue |
| IoCode.WaitforExpired | src/io_manager_epoll.c:117-125 | the expired fiber leaves the queue that its awaited event names |
| IoCode.Handle | src/io_manager_epoll.c:42-79 | releases everybody on a hang-up, one fiber a direction otherwise, then re-arms what is still awaited |
| IoCode.Flush | src/io.c:16-30 | the draining loop ends with an empty queue, everybody ready and flagged in order |
| IoCode.Close | src/io.c:32-52 | both queues are drained before the descriptor is forgotten, whether close(2) succeeds, whose result is returned, or not |
| TimerCode.Usleep | src/timer_manager.c:122-131 | the sleeper is in the timer queue with its callback and the deadline `now + usecs * 1000`, wrapped to 64 signed bits |
| TimerCode.Expire | src/timer_manager.c:23-31 | the expiry loop on pointers ends and computes the value function's pass |
| TimerCode.GoToSleep | src/timer_manager.c:32-40 | after a pass the thread sleeps until the split deadline of the first timer, or for good |
| Deadlines.UsleepExactly | src/timer_manager.c:122-131 | the sleeper's timer is its deadline, it joins the timer queue behind earlier timers, and nobody else changes |
| Deadlines.DeadlineIsStored | src/timer_manager.c:76-95 | whichever call stops with a deadline, that is its timer; the timer thread is woken if and only if it comes first |
| Deadlines.NoTimeoutIsEarly | src/timer_manager.c:25-31 | over any run, a call that is timed out is timed out by its own timer, not before its deadline |
| Deadlines.NoSleepIsShort | src/timer_manager.c:122-131 | over any run, a sleep ends by its timer, not before its deadline |
| Deadlines.FieldsStay | src/private.h:117-158 | whatever others do, a fiber that stays stopped keeps its fields |
| Deadlines.TimerSleepExactly | src/timer_manager.c:32-40 | the timer thread sleeps until exactly the first timer, for good if and only if there is none |
| IoLaws.HandleExactly | src/io_manager_epoll.c:42-79 | a hang-up wakes everybody, otherwise the first reader if and only if readable and the first writer if and only if writable, all others stay; then epoll waits for exactly what is still awaited |
| IoLaws.CloseExactly | src/io.c:32-52 | everybody is woken as canceled, readers first; the descriptor is not taken to be in epoll, which has forgotten it if and only if close(2) succeeds |
| IoLaws.CancelioExactly | src/io.c:54-69 | everybody is woken as canceled, readers first, and the interest is left alone |
| IoLaws.WaitforExactly | src/io_manager_epoll.c:138-192 | the fiber stands at the end of the queue of its direction, and epoll waits for exactly what is asked for or was awaited |
| MutexLaws.TrylockExactly | src/mutex.c:156-171 | succeeds if and only if the mutex is free or recursively owned, one level deeper; a failure changes nothing |
| MutexLaws.TimedlockExactly | src/mutex.c:190-200 | returns at once in exactly those cases |
| MutexLaws.TimedlockSlowExactly | src/mutex.c:202-229 | takes a mutex that has become free, else joins the line's end with its timeout as timer |
| MutexLaws.LockExactly | src/mutex.c:89-123 | takes the mutex at once if and only if it is free or recursively owned, else joins the line's end |
| MutexLaws.UnlockExactly | src/mutex.c:125-131 | gives up one level, and goes on to release if and only if it was the last |
| MutexLaws.FastEffect | src/mutex.c:133-140 | the owner frees the mutex if nobody waits, and else keeps it for the hand-off |
| MutexLaws.HandoffEffect | src/mutex.c:142-154 | the head of the line is the next owner at depth 1 and runnable; with an empty line the mutex is free |
| MutexLaws.DepthStep | src/mutex.c:66-171 | every step of anybody changes how deep a fiber holds a mutex by its acquisitions, unlocks and waits, and by nothing else |
| Nesting.DepthIsBalance | src/mutex.c:89-171 | over any run without waits, the depth is the earlier depth plus acquisitions less unlocks, blocked and contended ones included |
| Nesting.NestedUnlocks | src/mutex.c:125-154 | after k acquisitions and j < k unlocks the fiber owns the mutex at depth k - j, and only the k-th unlock releases |
| Nesting.WaitDepth | src/cond.c:35-59 | over any run, a wait returns the depth it found if and only if that was 1 or the mutex was free when the fiber was taken off the condition, and depth 1 otherwise |
| Safety.NextKeeps | src/private.h:117-158 | every step of every actor keeps the invariant of queues, timers, owners, flags and interests |
| Safety.RunInv | src/private.h:117-158 | the invariant holds in every world of every courteous run |
| Faults.FaultsExactly | src/mutex.c:66-87 | a step fails if and only if one of the listed causes holds; no waker ever misses a timed fiber in the timer queue |
| Faults.OwningSignallerNeverFaults | src/cond.c:148-170 | a signaller that owns the waiter's mutex cannot fail on it |
| Theorems.SinglePlacement | src/private.h:117-158 | a fiber is in at most one queue, once, and a waiting one is in the timer queue exactly if its timer is positive |
| Theorems.CallbackFindsItsFiber | src/cond.c:73-87 | every armed callback unlinks its fiber from a queue that contains it, unless a signal dropped it |
| Theorems.MutexInvariant | src/mutex.c:89-171 | a free mutex has count 0 and no waiter; count 0 with an owner means exactly that the owner is releasing |
| Theorems.NoBarging | src/mutex.c:156-171 | while somebody waits no lock, trylock or timedlock takes the mutex |
| Theorems.MutexEvolves | src/mutex.c:125-154 | a step changes a lock queue only by arrival at the end, hand-off to the head or expiry, and only the owner's unlock takes ownership away |
| Theorems.FirstComeFirstServed | src/mutex.c:125-154 | nobody is handed the mutex before an earlier waiter has left as owner or by its timer |
| Outcomes.LockWaiterMoves | src/mutex.c:142-188 | a queued fiber is moved only by the hand-off to the head or by its own timer |
| Outcomes.TimedWaiterLeavesOnce | src/mutex.c:142-188 | a timed waiter leaves both queues in one step, as owner or expired |
| Outcomes.TimedlockReturns | src/mutex.c:231-237 | -ETIMEDOUT if and only if the timer removed it; 0 if and only if it owns the mutex, exactly when it did not own it before |
| Returns.TimedlockHasOneOutcome | src/mutex.c:142-237 | over any run, a queued timed waiter leaves both queues at exactly one step; it returns -ETIMEDOUT if that step is its callback, and else 0, in no queue, as owner; after a timeout it is owner exactly if it was before |
| Returns.WaitHasOneOutcome | src/cond.c:35-145 | over any run, a wait that returns was taken off the condition at exactly one step, returns as owner in no queue, and -ETIMEDOUT exactly if that step is its callback |
| Outcomes.DispatchFacts | src/sched.c:21-34 | a fiber runs again in no queue, with no timer and no awaited event |
| Outcomes.TimeoutWidth | src/mutex.c:223-223 | a queued timeout is a positive timer if and only if it is below 2^63 |
| Outcomes.HandoffToNobodyFrees | src/mutex.c:142-153 | if the last waiter expires in the window the mutex ends free with count 0 |
| Outcomes.LockReturns | src/mutex.c:117-122 | a blocking lock returns to the owner at depth 1 |
| Outcomes.CondWaitReturns | src/cond.c:137-145 | a wait returns to an owner, in no queue, and -ETIMEDOUT if and only if the timer removed it |
| Outcomes.CondWaiterMoves | src/cond.c:35-145 | a waiter leaves its condition only by a signal or its timer, with its timer, to its mutex |
| Outcomes.HandoffDepth | src/mutex.c:149-149 | the hand-off restores the saved depth if and only if it is 1 |
| Outcomes.SignalEndsExactly | src/cond.c:152-169 | how many are woken, and that nobody is dropped if and only if nb is 0 or at least the number of waiters |
| Outcomes.DroppedForGood | src/cond.c:152-169 | no later step ever wakes a dropped waiter |
| Outcomes.WaitforReturns | src/io_manager_epoll.c:195-205 | the return value says what ended the wait |
| Outcomes.NoWakeupIsLost | src/io_manager_epoll.c:42-79 | a queue with a waiter is armed, or an event of the descriptor awaits the reactor |
| Outcomes.RawCloseLoses | src/io.c:32-52 | closing without melon_close keeps that promise if and only if nobody waits |
| Outcomes.TimerThreadNeverOversleeps | src/timer_manager.c:32-40 | asleep and unsignalled, the timer thread wakes no later than the first timer |
| Memory.DeadlineIsExact | src/timer_manager.c:35-36 | the seconds and nanoseconds are an exact, normalized split of the timer |
| Passes.SignalConserves | src/cond.c:148-170 | the waiters woken join the lines of their mutexes in order, leave the timer queue, and are ready exactly if they own; nobody else changes |
| Passes.BroadcastByOwner | src/cond.c:177-180 | a broadcast under the mutex appends all waiters to the lock queue in order and empties the condition |
| Passes.UndisturbedSignal | src/cond.c:148-170 | the signaller's single steps add up to the loop |
| Passes.ExpiryPass | src/timer_manager.c:23-31 | a pass fires exactly the due timers, each once, in non-decreasing order, and leaves the others in order |
| Passes.PassIsExpire | src/timer_manager.c:23-31 | the interleaving machine's pass and the loop compute the same |
| Passes.ReactorSteps | src/io_manager_epoll.c:42-79 | the machine's reactor and close steps are the code's loops, and never fail |
| Bridge.RunningIsFree | src/private.h:117-158 | on a heap that represents a world of a run, a running fiber is linked nowhere, as the locked parts demand |
| Bridge.TimersCanFire | src/timer_manager.c:23-31 | every fiber in the timer queue is linked where its callback will look for it, pointers included |
| Execution.Boot | src/private.h:117-158 | on objects as their init functions leave them the heap represents a world in which a run begins |
| Execution.UnlockHandoff | src/mutex.c:142-153 | the hand-off keeps heap and machine together, whoever waits |
| Execution.TimedlockSlow | src/mutex.c:202-229 | so does the queued timed lock |
| Execution.CondTimedwait | src/cond.c:99-131 | so does the timed wait |
| Execution.Close | src/io.c:32-52 | so does melon_close, whatever close(2) says |
| Execution.Handle | src/io_manager_epoll.c:42-79 | so does the reactor for any event the kernel may deliver |
| Execution.Fire | src/timer_manager.c:25-31 | so does the expiry of one timer; no precondition on callbacks is left, the invariant gives it |
| Interleaving.Lock | src/mutex.c:89-123 | melon_mutex_lock keeps heap and machine together, also inside another fiber's signal loop |
| Interleaving.CondWait | src/cond.c:35-55 | so does melon_cond_wait, on any other condition than the one being signalled |
| Interleaving.SignalOne | src/cond.c:152-168 | one round of the signal loop on the local list is one step of the machine, with others in between |
| Interleaving.SignalEnd | src/cond.c:148-170 | at the end of the loop the heap represents a world in which the fibers left in the local list are dropped |
| Calls.WakeEndsAStop | src/sched.c:67-86 | only a stopped fiber is made ready, so a stop yields at most one wake-up |
| Calls.LockGoesOn | src/mutex.c:89-237 | through any steps of others, a lock call returns to an owner or with -ETIMEDOUT |
| Calls.WaitGoesOn | src/cond.c:35-145 | through any steps of others, a condition wait returns to an owner |
| Barrier.InitIsStart | src/barrier.c:17-28 | a world in which no fiber has started is a beginning for a barrier with any team, mutex and condition |
| BarrierRuns.NoEarlyReturn | src/barrier.c:64-73 | no fiber returns from its k-th wait before all have arrived k times |
| BarrierRuns.DecrementFindsTheCount | src/barrier.c:67-67 | each decrement finds the team's size less the earlier arrivals, and reaches 0 if and only if all others have arrived |
| BarrierRuns.CountIsRestored | src/barrier.c:71-71 | the first decrement of a phase finds the full count |
| BarrierRuns.CompletePhaseIsWoken | src/barrier.c:67-70 | a member of a complete phase waits only while the last one to arrive is still broadcasting |
| RwLock.Exclusion | src/rwlock.c:54-176 | readers and a writer exclude each other, one writer at most, count and `wowner` say who holds, also after a failed tryrdlock, which keeps the mutex |
| RwLock.FieldsAreGuarded | src/rwlock.c:54-176 | two fibers are never between entry and exit together |
| RwLaws.EntersExactly | src/rwlock.c:54-162 | a reader enters if and only if nobody writes, a writer if and only if nobody else holds; else the try functions give up and the others wait on the condition of their kind |
| RwLaws.ReleasesExactly | src/rwlock.c:164-168 | an unlock gives up one hold of its fiber, and goes on to wake if and only if it was the last of anybody |
| RwLaws.LastReleaseSignals | src/rwlock.c:164-176 | before it gives up the mutex, a release signals the writers' condition if and only if nobody holds the lock |
| RwLaws.CallsGiveUpTheMutex | src/rwlock.c:54-176 | over any run, a call ends without the internal mutex, except a failed tryrdlock, which always keeps it, and a timed call that never got it |
| RwLaws.WaitingReaderIsLost | src/rwlock.c:164-176 | over any run, a reader that has begun to wait without a timeout waits for ever, however often the lock is released |
| LostReader.RunOfALostReader | src/rwlock.c:54-176 | a run in which a reader comes while a writer holds the lock, the writer releases it, nobody holds it, and the reader waits |
| Sched.OneExecutor | src/sched.c:31-34 | two kernel threads are never inside the same fiber |
| Sched.ResumesSavedContext | src/sched.c:31-33 | a fiber is resumed only with a saved context, when no thread is inside |
| Sched.OneToken | src/sched.c:21-34 | a fiber popped by a thread is in no other thread's hands and not in the ready list |
| Sched.WorkConserving | src/sched.c:82-85 | if a thread sleeps, at least as many threads are awake in the scheduler as fibers are ready |
| Sched.FirstInFirstOut | src/sched.c:21-21 | a fiber at position p is popped after exactly p earlier pops |
| Threads.StepIsScheduled | src/sched.c:67-86 | each step of the blocking code is a sequence of scheduler steps whose guards hold: at most a park of the fiber that takes it, then wake-ups of parked fibers |
| Threads.ThreadsKeepAgreement | src/sched.c:31-35 | what the kernel threads do in between leaves the blocking code where it is |
| Stack.StackCache.Alloc | src/stack_alloc.c:59-80 | the result is mapped and not cached, and was cached or not mapped before, so nobody uses it; NULL only if none is cached and mmap fails |
| Stack.StackCache.Free | src/stack_alloc.c:82-97 | a stack in use ends cached, or unmapped above the limit, and the counter counts the cached ones |
| Stack.StackCache.Deinit | src/stack_alloc.c:44-57 | the loop unmaps exactly the cached stacks; the counter then counts wrongly unless there were none |
| Stack.CacheBound | src/stack_alloc.c:86-95 | despite the unlocked check, counter and threads past the check are at most 100 and the number of threads |
| Stack.FreeKeeps | src/stack_alloc.c:86-96 | a freed stack is kept if and only if at most 100 are counted |
| Stack.MappedOnce | src/stack_alloc.c:59-97 | in every run the mapped stacks are the live, the cached and the departing ones, and no stack is two of these |
| Stack.AllocIsFresh | src/stack_alloc.c:59-80 | the stack that an alloc step takes is neither live nor departing, from the cache or from mmap, and is live afterwards |
| Departures.SignalOfOneLosesTheOther | src/cond.c:152-161 | a signal to one of two waiters leaves the other in no queue |
| Departures.TimerInTheWindowFails | src/cond.c:131-135 | a timer that fires before the waiter has released its mutex fails an assertion |
| Departures.DepthDependsOnThePath | src/mutex.c:72-86 | depth 2 comes back as 1 by hand-off and as 2 on a free mutex |
| Departures.RunIntoTheWindow | src/cond.c:131-135 | a run reaches that window, and the callback's assertion fails in it |
| Departures.RunOfAnIntruder | src/cond.c:148-168 | a run in which a signaller that does not own the mutex fails the same assertion |
| Departures.RunOfADroppedWaiter | src/cond.c:73-87 | a run in which a dropped timed waiter is unlinked from a ring that does not hold it |
| Departures.HugeTimeoutStaysQueued | src/mutex.c:223-223 | with a timeout of 2^63 the new owner is still in the timer queue |

## Left out

- src/sem.c: links a fiber into two queues through the same links, which the single-placement invariant excludes.
- Join, detach and the destruction of fibers (src/fiber.c), and with them the callback after `melon_sched_next`.
- `melon_barrier_add` and `melon_barrier_release`, which change the count outside the mutex.
- RwLock.Exclusion: for runs in which a fiber that unlocks holds the lock; what is promised about waking is in RwLaws, where WaitingReaderIsLost shows that readers are not.
- BarrierRuns.NoEarlyReturn: for a fixed team and a barrier whose mutex and condition nobody uses directly.
- Passes.UndisturbedSignal: the machine's own loop can be interleaved with fibers that take only a mutex spinlock; this lemma is about a call that is not. Interleaving.SignalOne and Interleaving.SignalEnd have the interleaved loop, and Outcomes.SignalEndsExactly how many it wakes.
- CondCode.Signal: a call that would fail an assertion is excluded by the precondition, and Faults.FaultsExactly says when that is.
- Sched.OneExecutor: the check of `sched_next_cb` after the spinlock is released reads the fiber while another thread may already run it; the model has that moment but no callback.
- Stack.StackCache.Alloc: the free list is a sequence; its links lie in the stacks themselves and are those of Rings.ListPush and Rings.ListPop.
- Machine.DoFire: unlinking a timed condition waiter and locking its mutex are one step, although the mutex is locked after the condition's spinlock is released; nobody else can see the fiber in between.
- Heap.Melon.SchedReady: one fiber, as every caller in the modelled code passes; the signal to idle threads is a step of Sched.
- Threads.StepIsScheduled: that the fiber which takes a step is inside a thread is its premise, and not a consequence: which thread runs is the scheduler's choice.
- IoCode.Waitfor: a call that epoll_ctl refuses is not a step of the machine; it returns -1 at once and changes at most a wrong `is_in_epoll`, which only the next epoll_ctl reads. Negative descriptors are refused before that.
- `swapcontext`, `mmap`, pthreads, the clock and epoll are steps with the effects stated; memory is sequentially consistent.
- The wrap-around of `nwokeup`; the other integer conversions are modelled.
- Progress: that something eventually happens is not stated; what never happens is, as in RwLaws.WaitingReaderIsLost.
- The read and write wrappers of src/io.c, src/stream.c, the kqueue and win32 files, attributes, names, init and deinit.
