# The DCE Threads kernel, modelled and proved in Dafny

DCE Threads (DECthreads, CMA) is a user-mode thread package.  Its kernel consists of
protocols over single bits that are tested and set, of counters, and of linked queues.
This project models the uniprocessor build of that kernel and proves its properties over
all runs, for any number of threads and any interleaving.

Two forms go together.  Each protocol is a function from states and acts to states; runs
are sequences of acts, and theorems are about every run.  Beside it stands a class whose
methods are the code itself, with its fields, branches and loops, each proved to do what
the function says.

| files | what they model |
|---|---|
| `Semaphore`, `Places` | the low-level semaphore with its one pending wakeup; counting threads by place |
| `FastMutex` | lock, unlock and try-lock of a fast mutex, one test-and-set, clear, wait or wake at a time |
| `OwnedMutex` | recursive and nonrecursive mutexes: owner, nesting count, `waiters` bit, inner lock |
| `Condition` | waits, timed waits, signals, broadcasts, alerts and signals from interrupts |
| `SchedOrder`, `Lists`, `Dispatcher`, `DispatchCode` | block queues, ready lists, preemption search, dispatch |
| `Processor`, `Scheduling` | whole runs of the scheduler: start, block, wake, yield, join, terminate, zombies, errno, exit |
| `Wakeups`, `Turns` | that the dispatcher's semaphores are low-level semaphores and lose no wakeup; whose turn it is; the life of a thread |
| `SchedulingCases`, `JoinerCases`, `AttributesCases` | runs that reach the failing side of what holds only under a condition |
| `Ring`, `Deferral` | the rings of deferred actions, and when they are drained |
| `Objects`, `Lifetimes`, `Attributes`, `Caching`, `AttrCode`, `SelfLock` | attributes objects, mutexes and condition variables: references, caches, deletion |
| `Handles`, `Queue`, `Alert`, `Context` | handles and incarnations, linked queues, alert scopes, per-thread values |

Where the code does not do what its documentation promises, the code is modelled as it
is, a lemma shows a case, and a theorem says exactly when it does keep the promise:

- an unlock by a thread that is not the owner can make the owner's own unlock vanish
  (`OwnedMutex.StrayUnlockStrandsTheOwner`, `SkippedExactlyWhen`);
- a broadcast has no wakeup for a waiter that has released the mutex and is not yet queued,
  when others are queued; when none are it leaves one, which goes to the first thread that comes
  to wait, also to one that comes later (`Condition.ServedExactlyWhen`, `WakeupsSufficeExactlyWhen`,
  `TheFirstToComeTakesTheWakeup`, `TwoWaitersShareOneWakeup`, `ALatecomerTakesTheBroadcast`);
- a timed wait releases the mutex before it clears `event`, and a call that finds `event` set
  wakes nobody (`Condition.AbsorbedExactlyWhen`, `TimedWaitLosesASignal`);
- the preemption search takes the last idle thread, not the lowest
  (`SchedOrder.VictimIsLowestExactlyWhen`, `TheLastIdleNeedNotBeLowest`), and a timer readies its
  thread without looking at the running one (`Scheduling.ExpiryPassesExactlyWhen`,
  `SchedulingCases.AnExpiryPassesSomebodyOver`);
- the last ordinary thread can be put on two lists, or be readied after its end
  (`Scheduling.LastThreadIsQueuedTwiceExactlyWhen`, `SchedulingCases.TheLastThreadIsQueuedTwice`),
  and the current thread can be put on two lists in builds that try to run a thread from inside
  the dispatcher (`Scheduling.UnguardedBreaksExactlyWhen`, `SchedulingCases.AWakeupInsideQueuesTwice`);
- a thread detached after its end is freed under those that join it, whom dispellers respect
  (`Scheduling.FreedUnderAJoinerExactlyWhen`, `JoinerCases.ADetachFreesUnderAJoiner`);
- inserting into a full ring forgets all that was queued (`Ring.Deferred.Insert`), and the HP
  build can leave work queued and unannounced when waking all yields in the middle of a drain
  (`Deferral.StepNoticesExactlyWhen`, `ADrainCanBeAbandoned`);
- a deleted attributes object that caches attributes objects is never reclaimed
  (`Attributes.DeletedStaysExactlyWhen`, `StrandedForEver`, `AttributesCases.AnUnusedObjectIsStranded`);
  a cached mutex made fast loses its inner lock (`Attributes.RecyclingLosesTheInnerLockExactlyWhen`,
  `AttributesCases.AnInnerLockIsLost`); and destroying an attributes object with such mutexes in
  its cache, also at the end of a cascade, locks the default attributes object twice
  (`SelfLock.DeletionLocksTwiceExactlyWhen`, `LastObjectLocksTwiceExactlyWhen`, `AttributesCases.ADeletionLocksTwice`);
- sequence numbers are kept in 16 bits (`Handles.ValidatesExactlyWhen`, `ADeadHandleIsAccepted`);
- a record of an alert scope that was skipped can be mistaken for a later one
  (`Alert.ShownThroughoutExactlyWhen`, `AStaleRecordIsMistaken`);
- a destructor can leave a value behind (`Context.RundownLeavesNothingExactlyWhen`,
  `BackwardLeavesAValue`), and the key counter can run ahead of the key table
  (`Context.KeysFitExactlyWhen`, `FirstKeyFitsExactlyWhen`).

## Model

| member | source | states |
|---|---|---|
| FastMutex.EveryRunIsSafe | threads/cma_mutex.c:1369-1415 | in every state any interleaving reaches: at most one owner; a thread asleep or bound for sleep on a free mutex has an unlocker, a retrying waiter or a pending wakeup in flight; with nothing in flight, a sleeper means the mutex is owned |
| FastMutex.InFlightShrinks | threads/cma_mutex.c:1369-1415 | each step of a thread already inside the code decreases a measure of all threads |
| FastMutex.InFlightRunsAreBounded | threads/cma_mutex.c:1369-1415 | so a run without new calls has at most as many steps as the measure: no thread can retry for ever |
| FastMutex.SomeWaiterAcquires | threads/cma_mutex.c:1369-1415 | liveness: if somebody wants the mutex, any such run that ends ends with the mutex owned |
| FastMutex.AloneIsARun | threads/cma_mutex.h:253-317 | what a call does when nobody else is scheduled is a run of the step function |
| FastMutex.Mutex.Lock | threads/cma_mutex.h:253-275 | the lock macro and retry loop: the new bits, queue and place of the thread are those of a run of its steps |
| FastMutex.Mutex.TryLock | threads/cma_mutex.c:560-624 | try-lock takes a free mutex and otherwise changes nothing, as its steps do |
| FastMutex.Mutex.Unlock | threads/cma_mutex.h:299-317 | the unlock macro: lock bit cleared, and the waiter woken or wakeup left pending that a run of its steps gives |
| OwnedMutex.EveryRunIsSafe | threads/cma_mutex.c:1210-1336 | whatever clients do: no two threads both own the mutex; a sleeper on an unowned mutex is covered; nobody sleeps on an unowned one once nothing is in flight |
| OwnedMutex.LocksLessUnlocks | threads/cma_mutex.c:1527-1618 | conservation in every run: the locks the mutex attributes to a thread are its locks less its unlocks plus its skipped unlocks |
| OwnedMutex.SkippedExactlyWhen | threads/cma_mutex.h:299-306 | an unlock returns without having looked at the owner exactly while another unlocker is between its test-and-set of `event` and its clear |
| OwnedMutex.DisciplinedRunsAccount | threads/cma_mutex.c:1527-1618 | for clients that unlock only what they own: no unlock is skipped or refused, the nesting count is the owner's locks less unlocks, and the mutex is unowned exactly when all accounts are even |
| OwnedMutex.EnabledShrinks | threads/cma_mutex.c:1210-1336 | each step of a thread already inside the code decreases a measure |
| OwnedMutex.EnabledRunsAreBounded | threads/cma_mutex.c:1210-1336 | so runs without new calls are bounded by the measure |
| OwnedMutex.SomeWaiterAcquires | threads/cma_mutex.c:1210-1336 | liveness: while somebody wants the mutex, running the threads in flight to the end leaves it owned |
| OwnedMutex.StrayUnlockStrandsTheOwner | threads/cma_mutex.c:1505-1630 | a run in which an unlock by a non-owner makes the owner's unlock vanish: everybody is out, and the mutex stays owned |
| OwnedMutex.CallsCount | threads/cma_mutex.c:1210-1336 | whatever locks, try-locks and unlocks a thread calls while nobody else does: a recursive mutex lets it in again and counts, and is free when unlocked as often; another refuses it the second time; the calls are a run |
| OwnedMutex.LocksNest | threads/cma_mutex.c:1221-1226 | n locks by one thread take a recursive mutex n deep, and n unlocks leave it as it was at the start |
| OwnedMutex.AloneIsARun | threads/cma_mutex.c:1210-1336 | what a call does alone is a run |
| OwnedMutex.MutexObject.Lock | threads/cma_mutex.c:1210-1336 | an unowned mutex is taken, a recursive one is taken once more by its owner, a nonrecursive one refuses its owner and stays as it is, and anybody else ends up queued; all as a run of the steps |
| OwnedMutex.MutexObject.TryLock | threads/cma_mutex.c:560-624 | succeeds exactly on an unowned mutex and for the owner of a recursive one, which counts; otherwise changes nothing |
| OwnedMutex.MutexObject.Unlock | threads/cma_mutex.c:1505-1630 | skipped, refused or done: the new state and the waiter woken are those of a run |
| Condition.EveryRunIsSafe | threads/cma_condition.h:336-353 | over waits, timed waits, signals, broadcasts, alerts, timeouts and interrupts: a committed waiter finds `event` clear, a wakeup pending, or somebody about to wake or to clear `event`; one thread at most holds the mutex |
| Condition.NextSignalWakesTheFirst | threads/cma_condition.h:380-385 | with nothing in flight and somebody asleep, the next signal wakes the first sleeper and leaves the rest as they are |
| Condition.NextBroadcastWakesAll | threads/cma_condition.h:252-255 | ... and the next broadcast wakes them all |
| Condition.SleepEndsExactlyWhen | threads/cma_condition.h:278-353 | in every reachable state a sleeper gets out exactly by the end of its own time, if it has one, by a signal or interrupt while it is first, or by a broadcast |
| Condition.TimeoutLeavesTheQueue | threads/cma_condition.h:288-303 | a timeout takes its thread out of the queue, wherever it stands, keeps the others in their order and touches nothing else |
| Condition.WaiterReturns | threads/cma_condition.h:278-353 | woken, timed out or alerted, a waiter is back with the mutex after two more steps of its own once that is free, and `event` is clear |
| Condition.AlertPassesBy | threads/cma_condition.h:278-303 | with an alert pending a waiter does not wait, and leaves the semaphore as it is |
| Condition.AbsorbedExactlyWhen | threads/cma_condition.h:380-385 | a signal or broadcast leaves the semaphore alone exactly when it finds `event` set, and what then covers a committed waiter |
| Condition.SignalsAbsorbOnlySignals | threads/cma_condition.h:380-385 | in runs without broadcasts a signal issued once a waiter is committed is absorbed only by a signaller that has yet to wake |
| Condition.WakeupsSufficeExactlyWhen | threads/cma_condition.h:252-255 | the wakeups of a broadcast are as many as the committed waiters exactly when nobody stands between the mutex and the queue, or the queue is empty and one stands there; who takes the pending one is the next rows' |
| Condition.TheFirstToComeTakesTheWakeup | threads/cma_semaphore.h:204-243 | in every run a pending wakeup stays, whatever else happens, until the first thread comes to wait without an alert, and is that thread's |
| Condition.PendingExactlyWhen | threads/cma_semaphore.h:204-243 | over a run in which nobody wakes, a wakeup is pending at the end exactly when it was at the start and nobody came |
| Condition.ServedExactlyWhen | threads/cma_condition.h:252-255 | a broadcast wakes every queued waiter; one that comes to the semaphore after it, before any other wake, goes through exactly when nobody was queued at the broadcast and it is the first to come since, and sleeps, or times out, otherwise |
| Condition.TwoWaitersShareOneWakeup | threads/cma_condition.h:252-255 | a run in which two waiters stand there: one uses the only wakeup, the other sleeps on |
| Condition.ALatecomerTakesTheWakeup | threads/cma_condition.h:336-353 | a run in which a signal's pending wakeup, left while one waiter stands before the queue, goes to one that came later |
| Condition.ALatecomerTakesTheBroadcast | threads/cma_condition.h:252-255 | the same with a broadcast sent under the mutex: the only waiter there was sleeps on |
| Condition.TimedWaitLosesASignal | threads/cma_condition.h:278-303 | a run in which a signal sent under the mutex, after a timed waiter released it, is lost |
| Condition.BroadcastAndSignalPassAWaiterOver | threads/cma_condition.h:336-353 | a run in which a plain waiter is missed by a broadcast and a signal, both sent under the mutex after it released that |
| Condition.CvObject.Signal | threads/cma_condition.h:380-385 | the signal macro is the run of its steps |
| Condition.CvObject.Broadcast | threads/cma_condition.h:252-255 | the broadcast macro is the run of its steps |
| Condition.CvObject.Wait | threads/cma_condition.h:336-353 | the wait macro up to blocking is the run of its steps |
| Condition.CvObject.TimedWait | threads/cma_condition.h:278-303 | the timed wait macro up to blocking is the run of its steps |
| SchedOrder.OrderedIsUnique | threads/cma_dispatch.c:751-780 | the members of a queue and their arrival determine it: two ordered queues of the same threads are equal |
| SchedOrder.BlockPos | threads/cma_dispatch.c:751-780 | the insertion loop of blocking finds the one place that keeps the order |
| SchedOrder.BlockKeepsOrder | threads/cma_dispatch.c:751-780 | block queues stay in order: real-time threads by priority, first come first served among equals, then the others as they came |
| SchedOrder.ReadyPos | threads/cma_dispatch.c:2152-2180 | the insertion loop of readying finds the place behind, or when preempted before, its equals |
| SchedOrder.ReadyKeepsOrder | threads/cma_dispatch.c:2152-2180 | a thread readied as newest, or preempted as oldest, keeps its ready list in order |
| SchedOrder.PreemptVictim | threads/cma_dispatch.c:1782-1956 | the search returns null exactly when the requester outranks nobody, else a thread that it outranks and that outranks nobody, which one included |
| SchedOrder.VictimIsLowestExactlyWhen | threads/cma_dispatch.c:1782-1956 | the victim is lowest in class and priority exactly when the last idle thread is the lowest idle one, or none is idle |
| SchedOrder.TheLastIdleNeedNotBeLowest | threads/cma_dispatch.c:1782-1956 | two idle threads of which the search finds the higher |
| Dispatcher.DispatchFinds | threads/cma_dispatch.c:1055-1105 | the search ends on a list that is not empty, on a thread that was ready and has not terminated, with nobody ready above |
| Dispatcher.DispatchKeeps | threads/cma_dispatch.c:1019-1169 | dispatch keeps the invariant of lists, places, hint and null thread |
| Dispatcher.RequeueKeeps | threads/cma_dispatch.c:2604-2659 | so does putting the running thread back and dispatching |
| Dispatcher.BlockKeeps | threads/cma_dispatch.c:718-801 | so does blocking on a semaphore |
| Wakeups.DispatchCarriesOut | threads/cma_dispatch.c:1033-1045 | a dispatch first carries out what was deferred: of the waiters of a semaphore, first come first, as many leave as wakeups of one were deferred for it, and all with a wakeup of all; each is on hold, ready on the list due to it, or running |
| Wakeups.DispatchLeavesPending | threads/cma_defer.c:675-766 | and with nobody waiting, a wakeup is pending afterwards exactly when one was before or one was deferred |
| Wakeups.StepServes | threads/cma_semaphore.h:204-380 | in every step each semaphore of the dispatcher, the one for the last thread's end included, does what the low-level semaphore does with the step's own wakeup, wait or expiry and with those deferred wakeups that the step carries out, the oldest; the rest stay deferred in order |
| Wakeups.NothingDeferredIsLost | threads/cma_defer.c:662-769 | over every run what is deferred at the end is the rest, in order, of all that was deferred |
| Wakeups.TakenExactlyWhen | threads/cma_semaphore.h:204-243 | a pending wakeup is used up exactly by a wait on its semaphore, which goes through and moves nobody |
| Wakeups.TheFirstWaitTakesTheWakeup | threads/cma_semaphore.h:204-243 | over every run it stays until the first such wait |
| Wakeups.SignalThenWait | threads/cma_semaphore.h:204-243 | a wakeup of one or of all, sent before anybody waits, lets the next wait through, and nobody moves |
| Turns.EachRunsInTurn | threads/cma_dispatch.c:2604-2659 | round robin: with nobody ready above, after i yields the i-th of the equals runs and the others follow in turn |
| Turns.PreemptedGoesOn | threads/cma_dispatch.c:2133-2180 | a thread readied as preempted goes before its equals, and runs on if nobody is above |
| Turns.HeldThreadsStayOut | threads/cma_dispatch.c:2026-2037 | over every run a thread put on hold while it waits is neither ready nor running until the hold is lifted, whatever wakes it |
| Turns.StartedWaits | threads/cma_dispatch.c:2452-2506 | a started thread that may not preempt, or does not outrank the running one, only joins its list; nothing deferred is carried out |
| Turns.StartedRunsExactlyWhen | threads/cma_dispatch.c:2483-2492 | with nobody passed over before and nothing deferred, a started real-time thread runs at once exactly when it may preempt and outranks the running one |
| Turns.WokenRunsExactlyWhen | threads/cma_dispatch.c:2483-2492 | so does the first waiter of a semaphore when a wakeup of one comes |
| Turns.StepSettles | threads/cma_dispatch.c:1445-1532 | in each step a hold or a list is set for the thread named and nobody else; detached threads that end, or were kept, join the zombies at the end, and the first one is taken |
| Turns.SettingsStand | threads/cma_dispatch.c:2026-2037 | over every run a thread is on hold exactly when the last request for it said so, and its list is the one last computed for it |
| Scheduling.EveryRunKeepsPlaces | threads/cma_dispatch.c:1019-1169 | over every run of start, ready, block, wake, yield, hold and terminate: each thread is in exactly one place; the lists above the hint are empty; the null thread runs or is ready; every list is in its one possible order; the step in which the last thread's wakeup gives the initial thread the processor counts as the exit, and is `LastThreadIsQueuedTwiceExactlyWhen`'s |
| Scheduling.ExitWaitsForTheOthers | threads/cma_dispatch.c:2349-2423 | the process exits only when no other ordinary thread is left, and the initial thread sleeps only while one is |
| Scheduling.ZombiesAreKept | threads/cma_dispatch.c:1433-1532 | every detached terminated thread that is not freed is on the zombie queue or with one dispeller |
| Scheduling.FreedExactlyWhen | threads/cma_dispatch.c:1455-1531 | a step frees a thread exactly when a dispeller that had seen no joiner comes to free it, or it is detached after its end |
| Scheduling.FreedUnderAJoinerExactlyWhen | threads/cma_thread.c:394-448 | in every run a thread that has joiners is freed exactly by being detached after its end, never by a dispeller, though that looks at the count before it frees |
| JoinerCases.ADetachFreesUnderAJoiner | threads/cma_thread.c:420-436 | a run in which one thread detaches another that has terminated, while a third, woken by that, has yet to look at its result |
| Scheduling.FreedStays | threads/cma_dispatch.c:1455-1531 | a freed thread stays freed in every run, so none is freed twice |
| Scheduling.StepMoves | threads/cma_dispatch.c:1989-2200 | the only ways a step can move a thread from place to place |
| Turns.LivesExactly | threads/cma_dispatch.c:2349-2423 | each act's effect on the life of each thread: created, started, terminated, detached, taken as a zombie, judged, freed, returned, by exactly the acts that say so |
| Turns.JoinersAreCounted | threads/cma_thread.c:816-857 | over every run the joiner count is the waits begun less the waits ended, and a thread is detached exactly when somebody detached it |
| Turns.ExitsExactlyWhen | threads/cma_dispatch.c:2357-2423 | the process exits exactly when the initial thread terminates, or looks again, with nobody else left, or when the last other thread's wakeup gives it the processor |
| Scheduling.ErrnoIsPerThread | threads/cma_dispatch.c:1112-1169 | after any run each thread reads back the errno it last stored, though there is one cell |
| Scheduling.PickPassesNobody | threads/cma_dispatch.c:1055-1105 | a dispatch leaves no ready real-time thread that outranks the one chosen |
| Scheduling.StepPassesNobody | threads/cma_dispatch.c:2452-2574 | nor does any step but the expiry of a timer, real-time threads having strict-priority preemption, as both their policies give it (threads/cma_sched.h:298-311) |
| Scheduling.ExpiryPassesExactlyWhen | threads/cma_dispatch.c:1989-2200 | a timer passes somebody over exactly when its thread is real-time, not on hold, and outranks the running one |
| SchedulingCases.AnExpiryPassesSomebodyOver | threads/cma_dispatch.c:1989-2200 | a run of start and wait after which an expiry leaves a real-time thread ready behind an ordinary one |
| Scheduling.RunPassesNobody | threads/cma_dispatch.c:2452-2574 | on the same terms, in every run without timers no ready real-time thread waits while one that it outranks runs |
| Scheduling.UnguardedBreaksExactlyWhen | threads/cma_semaphore.h:204-243 | running a thread woken inside the dispatcher queues the old one twice exactly when the woken one would take the processor |
| SchedulingCases.AWakeupInsideQueuesTwice | threads/cma_semaphore.h:204-243 | a run after which a wakeup carried out inside a yield puts the old thread on two lists |
| Scheduling.LastThreadIsQueuedTwiceExactlyWhen | threads/cma_dispatch.c:2357-2420 | the last ordinary thread, if detached, is on two lists, and if not, is readied after its end, exactly when the initial thread it wakes would take the processor |
| SchedulingCases.TheLastThreadIsQueuedTwice | threads/cma_dispatch.c:2357-2420 | for both, a run in which the initial thread is real-time and waits for the last one |
| DispatchCode.Machine.Insert | threads/cma_dispatch.c:751-780 | links a thread into a list at a position, and nothing else |
| DispatchCode.Machine.ReadyThread | threads/cma_dispatch.c:1989-2200 | the new lists, hint and places are those of the function `Ready` |
| DispatchCode.Machine.WakeFirst | threads/cma_semaphore.h:204-243 | the first waiter is readied, or one wakeup left pending |
| DispatchCode.Machine.Undefer | threads/cma_defer.c:662-769 | the loop carries everything deferred out, in order |
| DispatchCode.Machine.Search | threads/cma_dispatch.c:1055-1075 | the loop finds the highest list that is not empty |
| DispatchCode.Machine.SwitchToFirst | threads/cma_dispatch.c:1075-1169 | the first thread of that list runs, with its own errno, and the old one's is saved |
| DispatchCode.Machine.DispatchNext | threads/cma_dispatch.c:1019-1169 | the whole dispatch is the function `Dispatch` |
| DispatchCode.Machine.YieldProcessor | threads/cma_dispatch.c:2604-2659 | yielding is the function `Yield` |
| DispatchCode.Machine.BlockCurrent | threads/cma_dispatch.c:718-801 | blocking is the function `Block` |
| DispatchCode.Machine.TryToRun | threads/cma_dispatch.c:2452-2574 | the woken thread runs at once exactly when it outranks the running one |
| DispatchCode.Machine.SemWakeOne | threads/cma_semaphore.h:368-380 | a wakeup from outside the dispatcher is the function `WakeAndRun` |
| Ring.Deferred.Augment | threads/cma_defer.c:800-846 | augmentation, also in use: one cycle of all nodes old and new, the queued values and their order unchanged |
| Ring.Deferred.Insert | threads/cma_defer.c:396-423 | queues the value while there is a free node; on a full ring fails and leaves nothing queued |
| Ring.Deferred.Remove | threads/cma_defer.c:675-700 | takes the oldest value |
| Ring.Deferred.Drain | threads/cma_defer.c:675-766 | takes all values in order of insertion |
| Ring.Spliced | threads/cma_defer.c:813-846 | a node linked in anywhere on a cycle gives one cycle of all |
| Deferral.EveryRunConserves | threads/cma_defer.c:662-769 | in every run, with interrupts between any two steps: what was carried out is a prefix of what was queued, ring by ring, and the rest is still queued in order |
| Deferral.StepNoticesExactlyWhen | threads/cma_kernel.h:191-194 | queued work stays announced by the flag, or about to be drained by the running thread, exactly unless the step yields in the middle of a drain |
| Deferral.UnguardedBuildsForgetNothing | threads/cma_semaphore.h:312-335 | in every run of a build that undefers before yielding, queued work is announced or about to be drained by the running thread, and announced when the kernel is free |
| Deferral.RunNotices | threads/cma_kernel.h:191-241 | so over every run that abandons no drain, work stays announced |
| Deferral.FreeKernelMeansAnnounced | threads/cma_kernel.h:236-241 | whenever the kernel is free and work is queued, the flag says so |
| Deferral.EveryRunRemembers | threads/cma_defer.c:662-769 | in every run of either build, queued work is announced or some thread is in the middle of a drain that will come to it |
| Deferral.DrainsAll | threads/cma_defer.c:675-766 | in either build, a drain left alone empties ring after ring in order and returns, however many waiters its wakeups find |
| Deferral.EntryDrains | threads/cma_kernel.h:191-194 | a thread that enters a free kernel with work announced carries all of it out |
| Deferral.ExitDrains | threads/cma_kernel.h:236-241 | one that leaves the kernel does so before it frees it |
| Deferral.DispatchDrains | threads/cma_dispatch.c:1019-1055 | one that dispatches does so before it chooses who runs |
| Deferral.LockTakesTheKernel | threads/cma_kernel.h:191-194 | entering takes a free kernel, with what is announced carried out first; a held one is left alone |
| Deferral.UnlockFreesTheKernel | threads/cma_kernel.h:236-240 | leaving carries out what is announced and then frees the kernel; a free one is left alone |
| Deferral.BlockSwitches | threads/cma_dispatch.c:1019-1169 | blocking carries out what is announced and then switches to the thread chosen |
| Deferral.MakesWayExactlyWhen | threads/cma_dispatch.c:2482-2492 | in a drain or among the waiters of a wakeup of all, a readied thread is made way for exactly when it outranks the running one and the build allows it there |
| Deferral.MakingWaySwitches | threads/cma_dispatch.c:2487-2490 | making way carries out everything deferred, switches, and comes back to where the drain or the call was |
| Deferral.ADrainCanBeAbandoned | threads/cma_semaphore.h:288-310 | a run of the HP build that ends with the kernel free, a wakeup queued, and the flag saying that nothing is |
| Objects.RetireCore | threads/cma_mutex.c:882-886 | taking an object off its list keeps references, places, counts and numbers right |
| Objects.EnlistCore | threads/cma_mutex.c:1060-1122 | so does listing one, with a new number and revision |
| Objects.ShelveCore | threads/cma_mutex.c:891-897 | so does adding one to its parent's cache |
| Objects.UnshelveCore | threads/cma_mutex.c:1054-1057 | so does taking one from a cache |
| Objects.EraseCore | threads/cma_mutex.c:757-783 | so does freeing one that nothing was made from |
| Lifetimes.EraseLeafKeeps | threads/cma_mutex.c:757-783 | destroying a mutex that is not fast gives its inner lock back, once, and touches nothing else |
| Lifetimes.PurgeKeeps | threads/cma_mutex.c:901-911 | lowering a cache ends at the low-water mark or with an empty cache, and touches only what it destroys and their inner locks |
| Lifetimes.FlushKeeps | threads/cma_attr.c:1224-1266 | emptying a cache leaves nothing in it, and locks the default attributes object exactly when a mutex in it was not fast |
| Lifetimes.FreeNolockKeeps | threads/cma_mutex.c:857-919 | releasing a mutex or condition variable takes one reference from its parent and leaves attributes objects and locks in use alone |
| Caching.ReleasedExactly | threads/cma_mutex.c:857-919 | a released mutex or condition variable is kept in its parent's cache exactly when its revision is the cache's, the parent is not marked as deleted and there is room; otherwise it is destroyed, and its inner lock given back |
| Caching.FreedExactly | threads/cma_attr.c:917-954 | the same of an attributes object deleted without references |
| Caching.CacheAfterRelease | threads/cma_mutex.c:888-917 | the cache a released mutex or condition variable belongs to stays as it was when the object is stale, gets it at the end when there is room, and when full keeps exactly its newest up to the low-water mark, in order; other caches stay, but for the one inner locks go to |
| Caching.CacheAfterDeletion | threads/cma_attr.c:905-947 | the same of an attributes object whose parent is not marked as deleted |
| Caching.NewLeafIsTheOldest | threads/cma_mutex.c:1047-1060 | a new mutex or condition variable is the oldest in the cache, or newly allocated exactly when that is empty |
| Caching.NewAttrIsTheOldest | threads/cma_attr.c:1026-1060 | the same of attributes objects |
| Caching.OldMutexesNeverReturn | threads/cma_attr.c:571-574 | after the kind of mutex is changed, no mutex made before is ever in a cache again, in any run |
| Caching.NumbersAreUnique | threads/cma_mutex.c:1060-1122 | over every run no two objects have the same number, and numbers only grow |
| Lifetimes.CachedAttrsRefer | threads/cma_attr.c:1072-1083 | a cached attributes object still holds a reference to its parent, through its lock |
| Lifetimes.DestroyKeeps | threads/cma_attr.c:795-831 | destroying an attributes object empties its caches, releases its lock to its parent, and leaves other attributes objects and locks alone |
| Lifetimes.PurgeAttrsKeeps | threads/cma_attr.c:941-952 | lowering a cache of attributes objects ends at the low-water mark or with an empty cache, and changes no known attributes object but the parent |
| Attributes.FreeAttrKeeps | threads/cma_attr.c:859-983 | however far up the ancestors the deletion cascade goes, it ends with no attributes object marked as deleted and without references |
| Attributes.FreeLeafKeeps | threads/cma_mutex.c:811-828 | so does the deletion of a mutex or condition variable |
| Attributes.GetLeafKeeps | threads/cma_mutex.c:1037-1125 | creation serves a mutex or condition variable ready for use, no one's lock yet, or refuses when the attributes object is marked as deleted |
| Attributes.GetAttrKeeps | threads/cma_attr.c:1011-1123 | creation serves an attributes object with default settings, empty caches and a lock of its own |
| Attributes.EveryRunKeepsTheBooks | threads/cma_attr.c:821-983 | over every run of creation, deletion, use and change: each reference count is the number of known objects made from it; what an object in use was made from is in use; caches hold what they count, within the high-water mark, invalid and unlisted; nothing deleted is left without references |
| Attributes.DeletedStaysExactlyWhen | threads/cma_attr.c:859-983 | whenever an attributes object is deleted, in use or not, and whatever follows: once nothing made from it is in use it is still there exactly when its cache held attributes objects at the deletion |
| Attributes.DeletionLeavesBehindExactlyWhen | threads/cma_attr.c:886-891 | deleting an attributes object from which nothing is in use leaves it behind exactly when its cache holds attributes objects |
| Attributes.StrandedForEver | threads/cma_attr.c:886-983 | and no later run reclaims it |
| AttributesCases.AnUnusedObjectIsStranded | threads/cma_attr.c:886-983 | a run after which no object is in use and one is there for ever |
| Attributes.NewMutexIsClean | threads/cma_mutex.c:1083-1125 | after any run, a new mutex has its attributes object's kind, and exactly that kind's bits, owner, nesting and inner lock |
| Attributes.RecyclingLosesTheInnerLockExactlyWhen | threads/cma_mutex.c:1112-1117 | a recycled mutex loses its inner lock exactly when the new kind is fast |
| AttributesCases.AnInnerLockIsLost | threads/cma_mutex.c:1112-1117 | a run after which an inner lock is listed as in use and nothing uses it |
| Attributes.FullFreeLowersTheCache | threads/cma_mutex.c:898-913 | a release that finds the cache full leaves it at the low-water mark, or empty |
| SelfLock.DestroyAlone | threads/cma_attr.c:795-831 | destroying one child of the default attributes object leaves the mutexes cached for the others alone |
| SelfLock.DeletionLocksTwiceExactlyWhen | threads/cma_attr.c:935-983 | deleting an attributes object at any depth locks the default one twice exactly when nothing refers to it, the cascade reaches a child of the default one, and that, or an attributes object destroyed with it, caches a mutex that is not fast |
| SelfLock.LastObjectLocksTwiceExactlyWhen | threads/cma_mutex.c:811-828 | deleting a mutex or condition variable does exactly when it was the last object of a deleted attributes object from which such a cascade starts |
| AttributesCases.ADeletionLocksTwice | threads/cma_attr.c:795-831 | a run that does |
| AttrCode.Store.FreeCache | threads/cma_attr.c:1224-1266 | the loop is the function `Flush` |
| AttrCode.Store.LowerCache | threads/cma_mutex.c:901-911 | the loop is the function `Purge` |
| AttrCode.Store.FreeLeafNolock | threads/cma_mutex.c:857-919 | the code of a release is the function `FreeNolock` |
| AttrCode.Store.DestroyAttributes | threads/cma_attr.c:795-831 | the code is the function `DestroyAttr` |
| AttrCode.Store.LowerAttrs | threads/cma_attr.c:941-952 | the loop is the function `PurgeAttrs` |
| AttrCode.Store.FreeAttributes | threads/cma_attr.c:859-983 | the recursive code is the function `FreeAttr`, and what that keeps |
| Handles.ShortAgrees | threads/cma_defs.h:414-433 | numbers look the same in the 16-bit field exactly when they are a multiple of 2^16 apart |
| Handles.ValidatesExactlyWhen | threads/cma_handle.c:493-511 | after any run of creations and deletions, a handle is accepted exactly when its type is asked for and its number agrees in 16 bits with what lives there, or with the zero left by deletion |
| Handles.HandlesNameTheirIncarnation | threads/cma_handle.c:493-511 | while fewer than 2^16 objects of the type were created: accepted exactly when its own incarnation is live and of that type, and which error otherwise |
| Handles.HandleOutlivesItsObject | threads/cma_sequence.c:128-138 | the handle of number 2^16 is accepted after its object is gone |
| Handles.ADeadHandleIsAccepted | threads/cma_sequence.c:128-138 | the run of 2^16 creations and deletions that issues it |
| Handles.DeferredSignalReachesExactlyWhen | threads/cma_defer.c:749-751 | a signal deferred for one incarnation wakes a waiter of what lives in its place later exactly when that is a condition variable and the two numbers are a multiple of 2^16 apart |
| Handles.HandleCell.Assign | threads/cma_handle.c:182-198 | copies any handle |
| Handles.HandleCell.Clear | threads/cma_handle.c:278-287 | a cleared handle names no object, and only where none is allowed |
| Handles.HandleCell.Equal | threads/cma_handle.c:229-250 | equal exactly when all three fields are |
| Queue.FromChain | threads/cma_queue.h:240-350 | a chain may be read from any of its links |
| Queue.Insert | threads/cma_queue.h:260-273 | inserting before a link, at the end for the header; the consistency checks hold |
| Queue.InsertAfter | threads/cma_queue.h:281-296 | inserting after a link |
| Queue.Remove | threads/cma_queue.h:340-355 | taking a link out, wherever it is; the rest is still one chain in order |
| Queue.Dequeue | threads/cma_queue.c:143-176 | takes the first element, or none exactly from an empty queue |
| Queue.TakeAll | threads/cma_semaphore.h:293-298 | all elements go to a new header in their order, and the old one is empty |
| Alert.ScopeRestores | threads/cma_alert.c:371-408 | whatever happens inside a scope, and however many inner ones are skipped, restoring it gives back the enable bits it was opened with, leaves a pending alert alone, and is idempotent |
| Alert.CountsStandForTheStack | threads/cma_alert.c:205-408 | count and bits refine a stack of scopes all along a run exactly when each record restored is that of the scope now open at its depth |
| Alert.ShownThroughoutExactlyWhen | threads/cma_alert.c:381-405 | for the run of a client that leaves scopes it has opened: exactly when each was opened with the same enable bits as the scope now open at its depth, if one is |
| Alert.DisciplineIsEnough | threads/cma_alert.c:205-408 | so it is for a client that leaves only scopes it still has open, skipping inner ones as it likes |
| Alert.AStaleRecordIsMistaken | threads/cma_alert.c:381-405 | a run in which the record of a skipped scope is restored in place of a later one, with the wrong bits |
| Alert.AlertsAreDeliveredOnce | threads/cma_alert.c:555-580 | conservation in every run: alerts that arrived have been delivered once each, or the last is pending |
| Alert.Record.Leave | threads/cma_alert.c:371-408 | the three cases of restore are the step |
| Alert.Record.AttemptDelivery | threads/cma_alert.c:555-580 | delivery is the step |
| Context.Keys.Create | threads/cma_context.c:246-302 | a new key is the next number, and growing the table keeps every destructor with its key |
| Context.Contexts.Get | threads/cma_context.c:332-375 | the value last set under the key, none before, an error for an improper key |
| Context.Contexts.Set | threads/cma_context.c:406-469 | sets one key and no other, also when the array has to grow |
| Context.Contexts.RunDown | threads/cma_context.c:573-635 | the loop, with destructors that set values themselves, leaves the values and makes the calls that `Down` says; it never reads outside the table |
| Context.CallsInKeyOrder | threads/cma_context.c:592-633 | destructors are called in key order, once each at most, for values that are set |
| Context.WhatIsLeft | threads/cma_context.c:592-633 | a rundown leaves under a key what the destructors of later keys last set there, and nothing if they set nothing |
| Context.RundownLeavesNothingExactlyWhen | threads/cma_context.c:592-633 | so nothing is left exactly when the last of these is null for every key |
| Context.ForwardLeavesNothing | threads/cma_context.c:592-633 | as when destructors set only their own and later keys |
| Context.BackwardLeavesAValue | threads/cma_context.c:592-633 | one that does leaves a value behind |
| Context.KeysFitExactlyWhen | threads/cma_context.c:257-299 | after any history of granted and refused memory, a creation writes inside the table exactly when the attempts so far fit the increments granted and the next |
| Context.KeysFitWhileFailuresAreFew | threads/cma_context.c:257-299 | as they do after fewer than 99 failed attempts |
| Context.FirstKeyFitsExactlyWhen | threads/cma_context.c:257-299 | and, when no attempt was granted, exactly then |

## Left out

- Kernel-thread and multiplex builds, context-switch assembly, signal masks, stacks, timers and I/O, fork reinitialisation, the debugger, tracing and messages: foreign or platform code.
- Spinning before blocking (`_CMA_SPINLOOP_` above zero) and the debugging owner checks of the internal locks.
- Wakeups that the mutex and condition modules defer while the kernel is locked: a waker whose wakeup is deferred counts as one that has yet to wake; `Deferral` says when that comes.
- Priority to ready-list arithmetic: a thread that is neither real-time nor idle may be on any list in between.
- Dispatcher.DispatchKeeps: here a dispatch always carries out what is deferred; the flag that says whether there is any is in `Deferral`.
- `cma___sort_ready_list` (threads/cma_dispatch.c:2911-2988); its comment speaks of the top of the real-time queue, where the code appends.
- Processor VPs, where more than one thread runs: `SchedOrder.PreemptVictim` searches any number of them, `Scheduling` has one.
- Who the joiners of a thread are: only their count is kept, and each waits on some semaphore; a joiner that finds the thread terminated reads its result in one step.
- Scheduling.EveryRunKeepsPlaces: nothing is said of the time between the last thread's wakeup giving the initial thread the processor, which breaks placement (`Scheduling.LastThreadIsQueuedTwiceExactlyWhen`), and the exit of the process.
- A detached initial thread, which would be queued twice on one link.
- Thread control blocks: their cache and their references to attributes objects.
- Attributes.EveryRunKeepsTheBooks: object operations run one after the other, each under its locks, and memory does not run out in them; one counter numbers objects of all types; a reference to the parent is given up before, not after, the object is destroyed, and an inner lock is numbered before its mutex. The branch of `cma__destroy_attributes` that empties a cache of attributes objects finds none (`Lifetimes.CachedAttrsRefer`).
- `cma__free_cache` counts down as it goes here, where the code clears the count at the end.
- Scheduling attributes, stack and guard sizes, which matter to thread control blocks only.
- Handles.ValidatesExactlyWhen: storage is recycled through caches by type, and never becomes something else.
- Context.Contexts.RunDown: destructors may set values but not create keys; with new keys from every destructor the loop need not end.
- Context.Keys.Create: memory is granted; `Context.Attempts` has the counter and table size when it is not.
