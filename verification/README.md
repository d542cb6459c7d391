# Zephyr kernel: scheduling, timing, inter-thread communication and build-time allocation in Dafny

This project models parts of the Zephyr kernel and three of its build-time algorithms, and proves
what they promise. Each section the kernel runs under a spinlock is one atomic step, and calls made
of several sections are also taken apart into them where that matters. Structures
that the code updates in place are classes whose fields are lists, maps and arrays; their methods
follow the code's branches and are proved against specification functions or invariants, and
the promises are proved about those. Operations are closed under arbitrary sequences of steps:
the `Run` methods and the run lemmas quantify over every sequence.

Verify everything with `dafny verify dfyconfig.toml`.

| file | models | main results |
|---|---|---|
| Timeouts, TimeoutQueue, PeriodicTimers | kernel/timeout.c, kernel/timer.c | the delta list is a map of absolute deadlines sorted with first-armed-first ties; an announcement fires each live timeout due in its window exactly once, in order, and ends although handlers re-arm; the exact drift of a periodic timer |
| WaitQueues | kernel/sched.c | the priority-sorted wait queue used by the kernel objects |
| PipeStreams, Pipes | kernel/pipes.c | ring buffer, direct copies and refill refine one byte stream |
| RunQueues | kernel/sched.c | three run-queue backends agree; the wrapping deadline comparison |
| UniScheduler | kernel/sched.c | flags, run queue and wait queues agree after any sequence of steps; exactly when a priority change finds its thread linked and leaves wait queues sorted |
| SmpScheduler | kernel/sched.c, kernel/include/kswap.h | a thread is current on one CPU at most, and queued exactly when flagged and current nowhere; a CPU goes idle only with an empty queue |
| WorkQueues | kernel/work.c | the state machine of work items; flush and cancel synchrony |
| PageTables | arch/x86/gen_mmu.py | walking the tables gives each address what the operations made of it; tables unshared, at their offsets |
| Mutexes | kernel/mutex.c | priority inheritance through contention, recursion, timeout and hand-off |
| Events | kernel/events.c | no pended thread's condition is ever met |
| MessageQueues | kernel/msg_q.c | one stream across the wrap and blocked putters: nothing lost in any run, first-in first-out for putters of one priority |
| VirtualRegions | kernel/mmu.c, lib/os/bitarray.c | aligned allocation by over-allocating and trimming; live regions never overlap |
| IdtVectors | arch/x86/gen_idt.py | greedy vector allocation succeeds exactly when an assignment exists |
| ModuleOrder | scripts/zephyr_module.py | the dependency sort is sound and complete |

## What turned out otherwise than documented

The code is followed in each case; the members named show an instance or say exactly when the promise
holds.

- A periodic timer's handler is documented to see the scheduled time. When a second timeout is due at
  the last tick of an announcement, `announce_remaining` is already zero, so `elapsed()` reads the
  hardware and the timer is re-armed late by what it reads (`PeriodicTimers.DriftExample`,
  `PeriodicTimers.PeriodicLaw`).
- `z_timeout_expires()` is early by the elapsed ticks (`TimeoutQueues.TimeoutQueue.Expires`).
- The red/black run queue renumbers its nodes when the order counter wraps, but the thread being added
  keeps the largest key, so later equals overtake it (`RunQueues.WrapBreaksFifo`,
  `RunQueues.InsertNodeFifo`).
- A pipe's bytes do not always keep the order of the puts: a put that blocks enters the stream before the
  waiting writers of lower priority (`PipeStreams.OvertakeExample`, `PipeStreams.OvertakesExactly`).
- Nor do messages: a putter that blocks enters before the waiting ones of lower priority
  (`MessageQueues.OvertakeExample`, `MessageQueues.OvertakesExactly`).
- A priority change does not re-sort the wait queue a thread is on
  (`UniScheduler.ShuffleExample`, `UniScheduler.WaitingReprio`).
- `k_wakeup()` and `k_timer_stop()` unmark a thread in one section and ready it in a later one. A priority
  change in between unlinks a node that is in no list (`UniScheduler.WakeupRace`,
  `UniScheduler.WakeupWindow`, `UniScheduler.Scheduler.SetPrio`).
- With a priority ceiling, the cleanup after a mutex wait that timed out puts an owner whose own priority
  is above the ceiling down to the ceiling (`Mutexes.CleanupSinksOwner`,
  `Mutexes.CleanupExact`).
- `set_region_perms` ignores the present bit; with a table at physical address zero a page without a
  leaf table is not reported, and another page's entry is changed (`PageTables.AstrayExample`,
  `PageTables.LookupExact`).
- An interrupt entry at vector 0 leaves its line looking unconfigured, so a second entry on the line is
  accepted and replaces it in the map (`IdtVectors.ShadowExample`, `IdtVectors.MapNames`).
- A module that lists a dependency twice is reported as unresolved (`ModuleOrder.DuplicateSticks`,
  `ModuleOrder.StuckPlainly`).
- Threads woken by an event are made ready in the reverse of their queue order
  (`Events.Event.PostInternal`).

## Model

| member | source | states |
|---|---|---|
| Timeouts.Deadline | kernel/timeout.c:100-107 | a new timeout always lands at least one tick after the current one, for relative and absolute delays |
| Timeouts.AddDue | kernel/timeout.c:83-126 | arming in ticks: a relative delay falls due one more tick after now than asked, an absolute one at its tick but not before the next; forever arms nothing, and nothing else moves |
| Timeouts.AbortOff | kernel/timeout.c:128-140 | disarming takes exactly this timeout off |
| Timeouts.StartDue | kernel/timer.c:131-163 | starting in ticks: the first expiry is the asked delay, at least one tick, after now, whether or not the timer ran before; forever leaves it as it was |
| Timeouts.ExpireDue | kernel/timer.c:47-74 | in ticks: a periodic timer falls due again its period, at least one tick, after now; one that is not periodic does not |
| Timeouts.ApplyAllFuture | kernel/timeout.c:83-140 | whatever calls a handler makes, every deadline they set is in the future and the agenda stays well formed |
| Timeouts.HandlerProgress | kernel/timeout.c:213-226 | the announcement loop ends: each turn moves the clock or leaves fewer timeouts due at this tick, whatever the handler arms |
| Timeouts.AnnouncedCompletes | kernel/timeout.c:193-242 | an announcement ends exactly at its last tick with nothing due left over |
| Timeouts.AnnouncedInOrder | kernel/timeout.c:213-226 | firings come in deadline order, first armed first, no arming twice, all within the window |
| Timeouts.AnnouncedConserves | kernel/timeout.c:193-242 | exactly once: each arming alive at the start is afterwards still armed, or fired, or disarmed by a handler, exactly one of the three; due ones never stay armed and later ones never fire |
| Timeouts.AppliedOnce | kernel/timeout.c:128-140 | calls made by a handler keep an arming or disarm it and report it, never both |
| Timeouts.GoneForGood | kernel/timeout.c:128-140 | an arming that was taken off is never fired or disarmed again in the rest of the announcement |
| TimeoutQueues.ListsUnique | kernel/timeout.c:83-126 | an agenda has only one delta list: sorted by deadline with ties in the order of arming |
| TimeoutQueues.DeltasNonNegative | kernel/timeout.c:100-116 | every stored distance is non-negative |
| TimeoutQueues.InsertedAbsolute | kernel/timeout.c:109-120 | inserting and lowering the next distance changes no other absolute deadline |
| TimeoutQueues.RemovedAbsolute | kernel/timeout.c:53-60 | unlinking and raising the next distance changes no other absolute deadline |
| TimeoutQueues.HeadIsEarliest | kernel/timeout.c:39-44 | the head of the list is the earliest arming of the agenda |
| TimeoutQueues.HeadDecides | kernel/timeout.c:213-215 | the loop test on the head says whether anything at all is due by the end of the window |
| TimeoutQueues.ListsInsert | kernel/timeout.c:109-120 | inserting before the first later deadline keeps the list the sorted agenda, behind equal deadlines |
| TimeoutQueues.ListsRemove | kernel/timeout.c:53-60 | unlinking a node leaves the list of the agenda without it |
| TimeoutQueues.TimeoutQueue.AddTimeout | kernel/timeout.c:83-126 | the timeout falls due one more tick after now than asked, or at its absolute tick but not before the next; all others stay |
| TimeoutQueues.TimeoutQueue.FindSlot | kernel/timeout.c:109-116 | the place found is before the first timeout with a later deadline |
| TimeoutQueues.TimeoutQueue.AbortTimeout | kernel/timeout.c:128-140 | exactly this timeout goes; an error code if and only if it was not linked |
| TimeoutQueues.TimeoutQueue.RemoveTimeout | kernel/timeout.c:53-60 | the node goes and its distance is added to the next one |
| TimeoutQueues.TimeoutQueue.Remaining | kernel/timeout.c:143-159 | the ticks from now to the deadline, zero if not linked |
| TimeoutQueues.TimeoutQueue.Expires | kernel/timeout.c:172-181 | the deadline less the elapsed ticks: it equals the deadline if and only if none have elapsed |
| TimeoutQueues.TimeoutQueue.NextTimeout | kernel/timeout.c:67-81 | up to INT_MAX ticks the time to the earliest deadline; MAX_WAIT exactly if all are further away; passes no deadline in either case unless MAX_WAIT stands for forever |
| TimeoutQueues.TimeoutQueue.FireFirst | kernel/timeout.c:213-226 | one turn of the loop takes the earliest timeout and runs its handler as the reference does |
| TimeoutQueues.TimeoutQueue.Announce | kernel/timeout.c:193-242 | the delta list does what the agenda does, handlers included; the clock advances by exactly the announced ticks |
| TimeoutQueues.TimeoutQueue.TimerStart | kernel/timer.c:131-163 | starting a timer does to the list what it does to the agenda, for every kind of duration: the asked delay, at least one tick, from now |
| TimeoutQueues.TimeoutQueue.TimerExpire | kernel/timer.c:47-74 | the expiry handler re-arms a periodic timer in the list as in the agenda: its period, at least one tick, from now |
| PeriodicTimers.HandlerRearms | kernel/timer.c:47-74 | the next expiry is one stride after this one plus what elapsed() shows the handler; on the grid if and only if it shows nothing |
| PeriodicTimers.AnnouncementFollows | kernel/timeout.c:213-226 | through an announcement the timer goes from expiry to expiry without a gap, whatever other timers do |
| PeriodicTimers.TimelineFollows | kernel/timeout.c:193-242 | the same over any run of announcements and calls in between |
| PeriodicTimers.PeriodicLaw | kernel/timer.c:47-74 | the k-th expiry is the first deadline plus k strides plus the elapsed ticks shown before; no drift if and only if none were shown |
| PeriodicTimers.NoDrift | kernel/timer.c:47-74 | if the hardware shows no elapsed tick whenever the timer's handler reads it, the k-th expiry lies exactly k strides after the first, however ticks are batched |
| PeriodicTimers.ExpiriesFromStart | kernel/timer.c:47-163 | counted from the start call: the k-th expiry is the duration and k periods, each at least one tick, after the call, plus the elapsed ticks shown before; exactly there if none were shown |
| PeriodicTimers.ElapsedOnlyAtLastTick | kernel/timeout.c:62-65 | a handler is shown elapsed ticks only when the announcement had reached its last tick before |
| PeriodicTimers.DriftExample | kernel/timeout.c:62-65 | two timers due at the last tick of a late announcement: the second is re-armed three ticks late |
| WaitQueues.EnqueueAt | kernel/sched.c:183-199 | the newcomer goes behind all of its own or higher priority, the others keep their order |
| WaitQueues.EnqueueSorted | kernel/sched.c:183-199 | the queue stays sorted |
| WaitQueues.WithoutSorted | kernel/sched.c:1145-1150 | removing a thread keeps the queue sorted, and exactly everybody else in it |
| WaitQueues.WithoutKeepsOrder | kernel/sched.c:1145-1150 | removing a thread from a wait queue lets nobody overtake |
| PipeStreams.TakenStream | kernel/pipes.c:523-689 | a get removes exactly the head of the stream and leaves the rest in order; afterwards a writer with bytes left means a full buffer |
| PipeStreams.RefilledStream | kernel/pipes.c:620-642 | refilling the buffer from waiting writers does not change the stream |
| PipeStreams.GetResult | kernel/pipes.c:523-689 | from the length of the stream alone: when a get is refused and with which code, when it waits, when it returns; what it gets is the head of the stream |
| PipeStreams.PutResult | kernel/pipes.c:372-505 | from what readers want and the free room alone: when a put is refused and with which code, when it waits, when it returns; how much it has handed over |
| PipeStreams.WaitsForRest | kernel/pipes.c:462-689 | whoever waits, waits for exactly what is missing |
| PipeStreams.TimeoutLeaves | kernel/pipes.c:462-689 | a timeout takes exactly its thread off the queues |
| PipeStreams.VisitedLeast | kernel/pipes.c:239-252 | the listing of writers stops at the first that completes what was asked for |
| PipeStreams.GetWakes | kernel/pipes.c:583-618 | a get wakes exactly the listed writers whose last byte it took or that had none left |
| PipeStreams.GetWakesInOrder | kernel/pipes.c:583-618 | a get wakes writers in the order of their queue |
| PipeStreams.GetLeaves | kernel/pipes.c:583-642 | a writer that is not woken goes on waiting, one that is does not |
| PipeStreams.PutWakes | kernel/pipes.c:405-446 | a put wakes exactly the readers that its data covers together with all before them; the others go on waiting |
| PipeStreams.PutWakesInOrder | kernel/pipes.c:405-446 | a put wakes readers in the order of their queue, and those left keep it |
| PipeStreams.GivenStream | kernel/pipes.c:372-505 | a put feeds the waiting readers and then extends the stream |
| PipeStreams.FeedDelivers | kernel/pipes.c:318-370 | waiting readers get consecutive stretches of the data in queue order, nothing skipped |
| PipeStreams.BlockedPutStream | kernel/pipes.c:462-485 | a put that blocks has all its data in the stream, behind the writers of its own or a higher priority and before the others |
| PipeStreams.StepKeeps | kernel/pipes.c:318-689 | every call keeps: waiting readers mean an empty stream, a writer with bytes left means a full buffer |
| PipeStreams.AlwaysInv | kernel/pipes.c:318-689 | the same in every reachable state |
| PipeStreams.StepStream | kernel/pipes.c:318-689 | every put and get, with any priorities: delivered bytes leave at the head, accepted bytes enter behind the writers of the caller's own or a higher priority, nothing else moves |
| PipeStreams.StepConserves | kernel/pipes.c:318-689 | a call that overtakes nobody's bytes neither loses, invents nor reorders any |
| PipeStreams.OvertakesExactly | kernel/pipes.c:448-505 | a put keeps the order whatever its bytes are if and only if no writer of lower priority has bytes left, or it adds none |
| PipeStreams.OvertakeExample | kernel/pipes.c:448-505 | a put of higher priority overtakes a waiting writer |
| PipeStreams.RunCounts | kernel/pipes.c:318-689 | in every run, with any priorities and timeouts, the bytes delivered, left in the stream and withdrawn by writers that timed out are together exactly the bytes that went in |
| PipeStreams.RunConserves | kernel/pipes.c:318-689 | over any run of one priority class, bytes delivered followed by the stream left are the bytes that went in, in order |
| Pipes.RingAppend | kernel/pipes.c:329-349 | writing behind the last byte of the ring appends to its contents, across the wrap |
| Pipes.RingDrop | kernel/pipes.c:599-607 | advancing the read index drops exactly the first bytes, across the wrap |
| Pipes.SegmentsFit | kernel/pipes.c:260-286 | the one or two segments of a ring are inside the buffer and cover what they should |
| Pipes.Pipe.constructor | kernel/pipes.c:35-53 | an empty pipe |
| Pipes.Pipe.ReadAvail | kernel/pipes.c:731-756 | the number of bytes in the buffer |
| Pipes.Pipe.WriteAvail | kernel/pipes.c:768-793 | the free room in the buffer |
| Pipes.Pipe.PopulateWriters | kernel/pipes.c:239-252 | how many waiting writers are listed until the bytes are found, and what they hold |
| Pipes.Pipe.PopulateReaders | kernel/pipes.c:239-252 | how many waiting readers are listed until the bytes are wanted, and what they want |
| Pipes.Pipe.CopyIn | kernel/pipes.c:329-349 | a stretch copied to the write index is appended to the contents |
| Pipes.Pipe.PipeWrite | kernel/pipes.c:318-370 | the loop over descriptors hands data to readers in order and then to the ring, as the reference feeding says |
| Pipes.Pipe.CopySegment | kernel/pipes.c:329-349 | one buffer descriptor: bytes go to the write index, which wraps at the end |
| Pipes.Pipe.PutBytes | kernel/pipes.c:405-446 | the non-blocking part of a put: readers first, then the ring |
| Pipes.Pipe.Put | kernel/pipes.c:372-505 | the whole call refines the put on streams: result, woken threads, new state |
| Pipes.Pipe.CopyOut | kernel/pipes.c:583-607 | bytes read are the head of the contents |
| Pipes.Pipe.TakeFromBuffer | kernel/pipes.c:582-618 | the caller gets the head of the contents, through the wrap |
| Pipes.Pipe.TakeFromWriters | kernel/pipes.c:582-618 | what is missing comes from the waiting writers in order |
| Pipes.Pipe.Refill | kernel/pipes.c:620-642 | the freed buffer is filled from the waiting writers in order |
| Pipes.Pipe.Get | kernel/pipes.c:523-689 | the whole call refines the get on streams: data, woken threads, new state |
| Pipes.Pipe.GetBytes | kernel/pipes.c:545-642 | the non-blocking part of a get |
| Pipes.Pipe.Flush | kernel/pipes.c:100-112 | afterwards the stream is empty, the waiting writers included |
| Pipes.Pipe.BufferFlush | kernel/pipes.c:124-140 | a buffer's worth of bytes leaves the head of the stream, the rest stays in order |
| RunQueues.CmpIsExact | kernel/sched.c:94-126 | with deadlines less than 2^31 apart the wrapping comparison agrees with the true deadlines in both directions |
| RunQueues.CmpTurnsRound | kernel/sched.c:107-124 | at a distance of exactly 2^31 it turns round |
| RunQueues.HeadIsBest | kernel/sched.c:1152-1161 | the head of the reference queue is the thread that is best and, among equals, was added first |
| RunQueues.BestUnique | kernel/sched.c:94-126 | there is only one such thread |
| RunQueues.QueueDrop | kernel/sched.c:1145-1150 | removing a thread from the queue is the same as never having added it |
| RunQueues.SortedList.Add | kernel/sched.c:183-199 | the list becomes the queue of the arrivals with this one added |
| RunQueues.SortedList.Remove | kernel/sched.c:1145-1150 | the list becomes the queue of the remaining arrivals |
| RunQueues.SortedList.Best | kernel/sched.c:1152-1161 | the best thread of the arrivals |
| RunQueues.LessThanMeans | kernel/sched.c:1163-1181 | the tree order is urgency, then order key |
| RunQueues.InsertNodeFifo | kernel/sched.c:1183-1204 | an insertion is first come first served if and only if no tied thread holds a larger order key |
| RunQueues.Tree.Add | kernel/sched.c:1183-1204 | the tree holds the queue of the arrivals if and only if the counter is about to wrap or no tied key is above it; always, until the counter wraps |
| RunQueues.Tree.Remove | kernel/sched.c:1206-1215 | the tree holds the queue of the remaining arrivals; the counter restarts when it is empty |
| RunQueues.Tree.Best | kernel/sched.c:1217-1226 | the best thread of the arrivals |
| RunQueues.WrapBreaksFifo | kernel/sched.c:1189-1203 | after the wrap a later equal overtakes the thread whose addition wrapped the counter |
| RunQueues.LowestLevelIsBest | kernel/sched.c:1254-1268 | the head of the first non-empty level is the best thread |
| RunQueues.MultiQueue.Add | kernel/sched.c:1233-1240 | each level holds the arrivals of its priority in order, and the mask shows which are non-empty |
| RunQueues.MultiQueue.Remove | kernel/sched.c:1242-1251 | the same with the thread removed |
| RunQueues.MultiQueue.Best | kernel/sched.c:1254-1268 | the best thread of the arrivals |
| RunQueues.Lockstep | kernel/sched.c:183-1268 | over any run of additions and removals shorter than the wrap, the three backends give the same answer at every step, the reference one |
| UniScheduler.InsertPlace | kernel/sched.c:183-199 | the place in the queue: behind all that are as urgent, before the first that is less so |
| UniScheduler.OmitPlace | kernel/sched.c:1145-1150 | unlinking takes out exactly this thread, the others keep their order |
| UniScheduler.ReleasedFlags | kernel/sched.c:1270-1282 | a released waiter in flags: not pending, no timeout, the rest as it was, queued exactly if nothing else holds it |
| UniScheduler.ReleasedInOrder | kernel/sched.c:1270-1282 | waiters released together enter the run queue in the order of their wait queue, as far as priorities allow |
| UniScheduler.RepriorityKeepsOrder | kernel/sched.c:923-925 | changing a pended thread's priority in place keeps its wait queue sorted if and only if it still fits between its neighbours |
| UniScheduler.WaitingReprio | kernel/sched.c:923-925 | a change of priority leaves exactly the disturbed wait queue out of order, if any; every other stays sorted |
| UniScheduler.ShuffleExample | kernel/sched.c:923-925 | lowering the first of two waiters leaves them in the wrong order |
| UniScheduler.WakeupWindow | kernel/sched.c:1518-1534 | what k_wakeup has unmarked is ready and not queued until it is readied, if and only if nothing else holds the thread back |
| UniScheduler.WakeupRace | kernel/sched.c:906-1541 | a run that reaches that window and changes the priority there: the node to be unlinked is in no list |
| UniScheduler.SingleResidency | kernel/sched.c:253-273 | each thread is in at most one of the run queue and one wait queue; an ended thread is in none |
| UniScheduler.Scheduler.QueueThread | kernel/sched.c:253-265 | flag and membership are set together; sorted position |
| UniScheduler.Scheduler.DequeueThread | kernel/sched.c:267-273 | flag and membership are cleared together |
| UniScheduler.Scheduler.ReadyThread | kernel/sched.c:600-616 | a thread ends up queued exactly if it is ready; nobody is queued twice |
| UniScheduler.Scheduler.UnreadyThread | kernel/sched.c:714-720 | off the run queue if it was on it |
| UniScheduler.Scheduler.UnpendNoTimeout | kernel/sched.c:762-767 | off exactly the wait queue that pended_on names |
| UniScheduler.Scheduler.AddToWaitq | kernel/sched.c:723-734 | off the run queue, pending, and on that wait queue by priority |
| UniScheduler.Scheduler.PendCurrent | kernel/sched.c:743-760 | the running thread waits on the queue, with or without a timeout |
| UniScheduler.Scheduler.UnpendFirst | kernel/sched.c:881-895 | the head of the queue is taken off with its timeout unlinked |
| UniScheduler.Scheduler.WakeFirst | kernel/sched.c:618-625 | the head of the queue becomes ready and enters the run queue behind its equals unless something else holds it |
| UniScheduler.Scheduler.UnpendAll | kernel/sched.c:1270-1282 | every waiter is released and enters the run queue in turn, nobody else is touched, the queue is empty |
| UniScheduler.Scheduler.WakeThread | kernel/sched.c:778-807 | a dead thread is left alone; any other is off its wait queue and started, unsuspended by a timeout only, and enters the run queue behind its equals exactly if no flag holds it |
| UniScheduler.Scheduler.Expire | kernel/sched.c:811-817 | in flags: timeout and suspension are gone, it is started and off its wait queue, and enters the run queue behind its equals |
| UniScheduler.Scheduler.Suspend | kernel/sched.c:648-667 | off the run queue, timeout unlinked, suspended |
| UniScheduler.Scheduler.SuspendLocked | kernel/sched.c:654-660 | the locked section alone: off the run queue and suspended |
| UniScheduler.Scheduler.AbortTimeout | kernel/sched.c:648-652 | the section before it, as in k_wakeup: the timeout is unlinked and whether it was linked is reported |
| UniScheduler.Scheduler.Unsuspend | kernel/sched.c:1531-1532 | the unlocked write of k_wakeup: only the suspended bit goes |
| UniScheduler.Scheduler.UnpendOne | kernel/sched.c:866-879 | the head is taken off its queue, its timeout left alone, and not readied |
| UniScheduler.Scheduler.Resume | kernel/sched.c:678-696 | a suspended thread is queued if nothing else holds it; nothing happens to any other |
| UniScheduler.Scheduler.Sleep | kernel/sched.c:1416-1458 | off the run queue, suspended, timeout linked |
| UniScheduler.Scheduler.Wakeup | kernel/sched.c:1518-1541 | acts exactly on sleeping or plainly suspended threads that are not pending |
| UniScheduler.Scheduler.SetPrio | kernel/sched.c:906-931 | the unconditional dequeue finds the thread linked if and only if it is not between two sections of a waker; then it goes to the end of its new class, and a wait queue it is on is disturbed exactly if the priority does not fit |
| UniScheduler.Scheduler.Yield | kernel/sched.c:1391-1406 | the running thread goes behind its equals, nothing else changes |
| UniScheduler.Scheduler.Start | kernel/sched.c:634-646 | a thread that was never started becomes ready; starting twice changes nothing |
| UniScheduler.Scheduler.EndThread | kernel/sched.c:1697-1730 | dead, off all queues, and exactly its joiners released |
| UniScheduler.Scheduler.Abort | kernel/sched.c:1732-1795 | after an abort the thread is in no queue and its join queue is empty; aborting the dead changes nothing |
| UniScheduler.Scheduler.JoinThread | kernel/sched.c:1808-1839 | the result code in every case, and when it blocks the caller is on the join queue |
| UniScheduler.Scheduler.SwitchTo | kernel/sched.c:1018-1034 | the switch itself leaves all queues alone |
| UniScheduler.Scheduler.Perform | kernel/sched.c:253-1839 | every step makes the change it is for, keeps flags and queues in agreement and the dead dead; only open sections of wakers set a thread adrift, only a priority change can meet one, only a misfit priority disturbs a wait queue |
| UniScheduler.Scheduler.Run | kernel/sched.c:253-1839 | the same over any sequence of steps, up to a priority change that meets a thread adrift; without open sections a thread is in the run queue exactly if no flag holds it back; while priorities fit, wait queues stay sorted |
| UniScheduler.Scheduler.Create | kernel/thread.c:403-415 | a new thread is in no queue and not ready until started |
| SmpScheduler.ChoiceIsBest | kernel/sched.c:315-374 | in every state and on every CPU the chosen thread can run, nothing queued is more urgent unless a cooperative thread keeps its CPU, a tie switches exactly after a yield, and a CPU goes idle only with an empty queue |
| SmpScheduler.SwitchExclusive | kernel/sched.c:1092-1103 | a switch never makes a thread current on two CPUs |
| SmpScheduler.InsertPlaced | kernel/sched.c:183-199 | the place in the queue: behind all that are as urgent, before the first that is less so, the others in their order |
| SmpScheduler.OmitPlace | kernel/sched.c:1145-1150 | unlinking takes out exactly this thread, the others keep their order |
| SmpScheduler.SwitchHands | kernel/sched.c:1092-1126 | what a switch does to the queue: the next thread leaves its head, the previous one, if it can go on, stands behind its equals |
| SmpScheduler.SwitchLinked | kernel/sched.c:1117-1126 | the old thread enters the queue only as it stops being current, the new one leaves it |
| SmpScheduler.SwitchInv | kernel/sched.c:315-390 | a switch keeps the whole invariant, and the thread that takes over can run |
| SmpScheduler.FlagsChange | kernel/sched.c:714-751 | pending or unpending a thread keeps the invariant |
| SmpScheduler.NeverLoose | kernel/sched.c:356-374 | a blocked current thread is never chosen again |
| SmpScheduler.Smp.Create | kernel/include/ksched.h:20-25 | a new thread is blocked and has a priority above the idle threads |
| SmpScheduler.Smp.QueueThread | kernel/sched.c:253-265 | the current thread is flagged but not linked; any other stands behind its equals |
| SmpScheduler.Smp.DequeueThread | kernel/sched.c:267-273 | the current thread is unflagged without touching the queue |
| SmpScheduler.Smp.NextUp | kernel/sched.c:315-390 | computes the choice, re-queues the old thread if it can go on and is not idle, takes the new one out of the queue |
| SmpScheduler.Smp.Switch | kernel/sched.c:1075-1135 | the right thread takes over; it leaves the head of the queue, and the old thread, if it can go on, stands behind its equals |
| SmpScheduler.Smp.ActiveElsewhere | kernel/sched.c:579-598 | true exactly if another CPU runs the thread |
| SmpScheduler.Smp.ReadyThread | kernel/sched.c:618-625 | a thread that is current anywhere is not linked; any other ready thread is, once, behind its equals |
| SmpScheduler.Smp.Unpend | kernel/sched.c:881-895 | the thread is unpended and owed to the scheduler |
| SmpScheduler.Smp.Yield | kernel/sched.c:1391-1406 | the right thread takes over, never the idle one; the yielding thread stays runnable and is queued behind its equals, or goes on with everything as it was |
| SmpScheduler.Smp.PendAndSwitch | kernel/sched.c:844-864 | the head of the queue, or the idle thread if there is none, takes over; the pended thread is blocked, off the CPU and off the queue |
| SmpScheduler.Smp.Perform | kernel/sched.c:248-1135 | every step on any CPU makes the change it is for and keeps the invariant, and a CPU that changes threads takes the head of the queue, its idle thread only if there is none |
| SmpScheduler.Smp.Run | kernel/sched.c:248-1135 | in every run: a thread is current on at most one CPU, and in the run queue exactly when flagged QUEUED and current nowhere; at every step a CPU goes idle only with an empty queue |
| WorkQueues.FlagsTellAll | kernel/work.c:311-356 | QUEUED, RUNNING and CANCELING mean what they say: listed once on its own queue, taken by its own queue's thread, running and not queued |
| WorkQueues.OnePlace | kernel/work.c:311-356 | an item is listed once at most and run by one queue at most; if both, by the same |
| WorkQueues.SubmissionCodes | kernel/work.c:251-356 | each code and what it leaves, in the flags of item and queue: a draining queue takes only what its own thread submits, a plugged one that is not draining nothing |
| WorkQueues.SubmissionGated | kernel/work.c:251-283 | a submission adds work only where the drain and the plug allow it |
| WorkQueues.SubmitKeeps | kernel/work.c:251-356 | an accepted submission keeps the invariant and opens a new ticket |
| WorkQueues.FlushKeeps | kernel/work.c:171-193 | a flusher placed behind the item, or in front if it is only running, has all it waits for ahead of it |
| WorkQueues.CancelQueuedKeeps | kernel/work.c:202-208 | removing a queued item closes its ticket and strands no flusher |
| WorkQueues.TakeWorkKeeps | kernel/work.c:605-633 | taking an item from the list moves its submission from queued to running |
| WorkQueues.TakeFlusherKeeps | kernel/work.c:605-633 | when a flusher reaches the head everything it was to wait for is over |
| WorkQueues.FinishWorkKeeps | kernel/work.c:675-684 | a finished run closes its ticket; nothing else stops or starts |
| WorkQueues.BookOnOn | kernel/work.c:109-684 | what one step keeps of tickets and targets is kept by any number of steps |
| WorkQueues.BookSubmit | kernel/work.c:311-356 | a submission opens a new ticket and touches no other |
| WorkQueues.BookFlush | kernel/work.c:171-193 | a new flusher waits for exactly what is queued and running of its item |
| WorkQueues.BookCancel | kernel/work.c:202-208 | a cancellation closes the queued submission's ticket and no other |
| WorkQueues.BookTake | kernel/work.c:605-633 | taking an item to run carries its ticket over |
| WorkQueues.BookFinish | kernel/work.c:675-684 | the end of a run closes its ticket and no other |
| WorkQueues.TallyOthers | kernel/work.c:109-132 | releasing the cancellers of an item loses none |
| WorkQueues.WorkSystem.QueueSubmit | kernel/work.c:251-283 | the code in every case, in the flags of the queue; work that is taken goes to the end |
| WorkQueues.WorkSystem.Submit | kernel/work.c:311-356 | code and new state in every case; a running item stays with the queue that runs it |
| WorkQueues.WorkSystem.FlushItem | kernel/work.c:430-446 | the flush waits if and only if the item is queued or running, for exactly those submissions; the flusher goes right behind the item or to the front |
| WorkQueues.WorkSystem.QueueRemove | kernel/work.c:202-208 | off the list, ticket closed, others keep their order |
| WorkQueues.WorkSystem.Cancel | kernel/work.c:491-510 | the queued submission is removed and the delay called off; the item is canceling exactly if it is running |
| WorkQueues.WorkSystem.CancelSync | kernel/work.c:560-593 | the canceller waits if and only if the item was running; pending if any flag was set |
| WorkQueues.WorkSystem.FinalizeCancel | kernel/work.c:109-132 | all cancellers of the item are released, the others keep their order |
| WorkQueues.WorkSystem.TakeNext | kernel/work.c:605-663 | takes the head of the list; with none left, drain waiters are released only when nothing is pending or running |
| WorkQueues.WorkSystem.HandleFlush | kernel/work.c:66-72 | the semaphore is given only when every submission the flush waited for has finished or been removed |
| WorkQueues.WorkSystem.Finish | kernel/work.c:675-684 | the run is over; its cancellers are released once, with the item neither running, queued nor canceling |
| WorkQueues.WorkSystem.FinishFlush | kernel/work.c:675-684 | the queue is idle again after a flusher |
| WorkQueues.WorkSystem.Drain | kernel/work.c:746-776 | waits unless the queue is idle and not to be plugged |
| WorkQueues.WorkSystem.Unplug | kernel/work.c:778-796 | the plug is off; an error code if it was not on |
| WorkQueues.WorkSystem.StartQueue | kernel/work.c:706-744 | a started queue is empty and idle |
| WorkQueues.WorkSystem.Init | kernel/work.c:134-143 | a fresh item has no flag set |
| WorkQueues.WorkSystem.Delay | kernel/work.c:883-901 | the item is marked delayed for that queue |
| WorkQueues.WorkSystem.Undelay | kernel/work.c:915-930 | the delay is called off |
| WorkQueues.WorkSystem.Schedule | kernel/work.c:950-972 | only an idle or running item is scheduled |
| WorkQueues.WorkSystem.Reschedule | kernel/work.c:986-1008 | any earlier delay is replaced |
| WorkQueues.WorkSystem.DelayOver | kernel/work.c:806-827 | a delayed item is submitted to its queue, an undelayed one is left alone |
| WorkQueues.WorkSystem.CutShort | kernel/work.c:1070-1117 | a delay that can still be called off becomes a submission, one that cannot is only unmarked |
| WorkQueues.WorkSystem.FlushDelayable | kernel/work.c:1070-1117 | a delay is cut short, then the item is flushed |
| WorkQueues.WorkSystem.Perform | kernel/work.c:109-1117 | every step makes the change it is for; a submission keeps its ticket until closed, only held or new tickets are closed, a flusher's targets never change and are those of flush time, cancellers leave the list only by release with their item at rest; a draining queue gains work only from its own thread, a plugged one that is not draining none |
| WorkQueues.WorkSystem.Run | kernel/work.c:109-1117 | in every run: a flusher is let through only when all that was queued and running of its item at flush time is over, no closed submission is queued or running, every canceller there ever was is pending or released, never both, and no list gains work against a drain or a plug |
| PageTables.EntryBits | arch/x86/gen_mmu.py:251-279 | an entry packed from an address mask and disjoint flags gives both back |
| PageTables.MasksDisjoint | arch/x86/gen_mmu.py:282-332 | the masks and flags of all table classes are disjoint |
| PageTables.ModesSound | arch/x86/gen_mmu.py:282-332 | in each paging mode every level exactly splits one entry of the level above |
| PageTables.PathIsPage | arch/x86/gen_mmu.py:230-233 | two addresses use the same indices on every level if and only if they are in the same page |
| PageTables.Unshared | arch/x86/gen_mmu.py:403-412 | no table is reached by two paths and none is unreachable |
| PageTables.GrowTree | arch/x86/gen_mmu.py:403-412 | hanging a fresh table into an empty entry keeps the tree |
| PageTables.ChildHung | arch/x86/gen_mmu.py:403-412 | the new table is empty and hangs in its parent's entry with the flags that level supports |
| PageTables.GrowLeaf | arch/x86/gen_mmu.py:403-412 | it changes no page's entry |
| PageTables.LeafLeaf | arch/x86/gen_mmu.py:428-431 | writing a leaf entry changes that page's entry and no other |
| PageTables.MapMeaning | arch/x86/gen_mmu.py:461-484 | after mapping a region every address in it has the frame at its offset with the supported flags, every other address what it had; page zero of an identity map stays out |
| PageTables.PermMeaning | arch/x86/gen_mmu.py:544-553 | after changing permissions every page of the region keeps its frame and has the supported new flags, every other page what it had |
| PageTables.MapEffect | arch/x86/gen_mmu.py:461-484 | the record of a mapping says of every address what the mapping makes of it |
| PageTables.PermEffect | arch/x86/gen_mmu.py:544-553 | the record of a permission change says of every address what the change makes of it |
| PageTables.LookupExact | arch/x86/gen_mmu.py:550-552 | the walk that ignores the present bit is right if and only if the page has a leaf table or no table sits at address zero |
| PageTables.AstrayExample | arch/x86/gen_mmu.py:414-552 | with tables from address zero on and one page mapped it lands on that page's entry for another page |
| PageTables.PtableSet.constructor | arch/x86/gen_mmu.py:338-351 | an empty set of tables |
| PageTables.PtableSet.NewChild | arch/x86/gen_mmu.py:403-412 | the new table is at a fresh page, reached only through its parent's entry |
| PageTables.PtableSet.MapPage | arch/x86/gen_mmu.py:414-431 | missing tables are created, then only this page's entry is written; every other page keeps its entry |
| PageTables.PtableSet.Map | arch/x86/gen_mmu.py:461-484 | every page of the region is written in order; misaligned regions are refused |
| PageTables.PtableSet.Reserve | arch/x86/gen_mmu.py:433-448 | leaf tables exist for the whole region and no entry has changed |
| PageTables.PtableSet.SetPerms | arch/x86/gen_mmu.py:267-279 | the frame stays, the supported flags are set |
| PageTables.PtableSet.SetPagePerms | arch/x86/gen_mmu.py:547-553 | fails exactly if the page has no leaf table, wherever that is noticed |
| PageTables.PtableSet.SetRegionPerms | arch/x86/gen_mmu.py:513-556 | an error exactly if the region is misaligned or some page of it has no leaf table; otherwise exactly these pages change |
| PageTables.PtableSet.Run | arch/x86/gen_mmu.py:403-556 | after any sequence of operations, walking the tables gives every address what the operations made of what was there |
| PageTables.PtableSet.WriteOutput | arch/x86/gen_mmu.py:558-580 | each table is at the offset of its address from the start of the image, the top-level table right behind |
| Mutexes.CleanupExact | kernel/mutex.c:168-178 | the cleanup gives the owner its due if and only if nobody waits or its own priority is not above the ceiling |
| Mutexes.CleanupSinksOwner | kernel/mutex.c:168-178 | an owner above the ceiling is put below its own priority |
| Mutexes.Boost | kernel/mutex.c:137-144 | lending the newcomer's priority under the ceiling keeps the owner at its due |
| Mutexes.DueInNumbers | kernel/mutex.c:72-93 | what is due in numbers: the higher of its own and the first waiter's priority, lent up to the ceiling; an owner above the ceiling is lent nothing |
| Mutexes.Mutex.constructor | kernel/mutex.c:49-61 | an unowned mutex with no waiters |
| Mutexes.Mutex.Lock | kernel/mutex.c:95-146 | taken if free or already owned, refused without wait, else the owner is boosted and the caller waits by priority |
| Mutexes.Mutex.GiveUp | kernel/mutex.c:146-146 | a waiter leaves; the owner keeps at least its due |
| Mutexes.Mutex.Cleanup | kernel/mutex.c:158-189 | the owner's priority is recomputed from the first remaining waiter |
| Mutexes.Mutex.Unlock | kernel/mutex.c:201-274 | codes in every case; the last unlock restores the owner's own priority and hands over to the first waiter |
| Mutexes.Mutex.Perform | kernel/mutex.c:95-274 | every call takes, shares, hands over or queues as it should, from the state before and after |
| Mutexes.Mutex.Run | kernel/mutex.c:95-274 | in every run each step does that; no owner if and only if the count is zero, and then no waiters; once late threads have cleaned up the owner has exactly the higher of its own and the head waiter's priority |
| Events.MetIsProper | kernel/events.c:78-90 | a met condition yields all that was asked for, or a non-empty part of it |
| Events.CommonBits | kernel/events.c:78-90 | the events a wait has in common with the word, bit by bit |
| Events.MetBits | kernel/events.c:78-90 | a condition is met if every asked bit is set, or one of them is if any will do |
| Events.ProperBits | kernel/events.c:78-90 | a proper result holds only what was asked for, and all of it if all was |
| Events.PostAdds | kernel/events.c:169-172 | posting adds events |
| Events.SetReplaces | kernel/events.c:183-186 | setting replaces them |
| Events.MaskedSetReplaces | kernel/events.c:197-201 | a masked set replaces those under the mask and keeps the others |
| Events.ClearRemoves | kernel/events.c:213-216 | clearing takes events away |
| Events.FewerEvents | kernel/events.c:78-90 | fewer events satisfy nobody new |
| Events.SatisfiedMembers | kernel/events.c:92-120 | every waiter is either woken or still waiting |
| Events.WalkOrder | kernel/events.c:92-167 | those left waiting keep their order, those woken come in the reverse of it |
| Events.WalkQueue | kernel/events.c:92-120 | one walk of the queue splits it into the threads to wake, last in the queue first, and those left waiting, in order |
| Events.Event.PostInternal | kernel/events.c:122-167 | exactly the threads whose condition is now met are woken, last in the queue first, each with a proper non-zero result; no remaining waiter's condition is met |
| Events.Event.Post | kernel/events.c:169-172 | adds the events and wakes exactly whose condition is met |
| Events.Event.Set | kernel/events.c:183-186 | replaces the events and wakes exactly whose condition is met |
| Events.Event.SetMasked | kernel/events.c:197-201 | replaces the events under the mask, keeps the others, and wakes exactly whose condition is met |
| Events.Event.Clear | kernel/events.c:213-216 | wakes nobody |
| Events.Event.Wait | kernel/events.c:227-291 | returns at once exactly if the condition is met or waiting is not allowed; otherwise waits with its condition not met |
| Events.Event.TimeOut | kernel/events.c:281-290 | a wait that ends without its events returns zero |
| Events.Event.PerformPost | kernel/events.c:122-216 | every post, set, masked set and clear changes the word as asked and leaves exactly the unmet waiting |
| Events.Event.Perform | kernel/events.c:78-291 | every step makes its change to word and queue, keeps it so that no pended thread's condition is met, and gives only proper results |
| Events.Event.Run | kernel/events.c:78-291 | in every run no pended thread's condition is met; a woken wait got all or a non-empty part of what it asked for, one that did not block that or zero |
| MessageQueues.RingPut | kernel/msg_q.c:146-151 | a stored message is the last of the contents, across the wrap |
| MessageQueues.RingGet | kernel/msg_q.c:222-227 | fetching takes the first of the contents, across the wrap |
| MessageQueues.EnqueueHeld | kernel/msg_q.c:160-168 | a blocked putter's message takes its place in queue order, the others keep theirs |
| MessageQueues.NextInv | kernel/msg_q.c:116-387 | every call keeps: getters wait only at an empty queue, putters only at a full one |
| MessageQueues.Outcomes | kernel/msg_q.c:116-274 | when a put or get is done, refused or blocks, by room, messages and whether waiting is allowed; what goes in and out, and who waits then |
| MessageQueues.Departures | kernel/msg_q.c:368-387 | a purge leaves nothing and nobody; a timeout takes exactly its thread off |
| MessageQueues.StepStream | kernel/msg_q.c:116-274 | every put and get, with any priorities: the message delivered leaves at the head, the message accepted enters behind the putters of its thread's own or a higher priority |
| MessageQueues.OvertakesExactly | kernel/msg_q.c:116-176 | a put keeps messages first-in first-out if and only if it may not wait or all messages waiting with a lower priority equal its own |
| MessageQueues.OvertakeExample | kernel/msg_q.c:116-176 | a putter of higher priority overtakes a waiting one |
| MessageQueues.RunConserves | kernel/msg_q.c:116-274 | in every run with putters of one priority the messages delivered and then those in the stream are the messages that went in, in order |
| MessageQueues.RunCounts | kernel/msg_q.c:116-387 | in every run each message that went in was delivered, is in the stream, or was dropped by a purge or with its putter's timeout, exactly once |
| MessageQueues.MessageQueue.constructor | kernel/msg_q.c:35-55 | an empty queue |
| MessageQueues.MessageQueue.Store | kernel/msg_q.c:146-151 | appends to the contents |
| MessageQueues.MessageQueue.Fetch | kernel/msg_q.c:222-227 | takes the first of the contents |
| MessageQueues.MessageQueue.Put | kernel/msg_q.c:116-176 | a waiting getter is handed the message, or it joins the end of the stream, or its thread waits with it |
| MessageQueues.MessageQueue.Get | kernel/msg_q.c:208-274 | returns the head of the stream and leaves the rest, whether or not a putter is admitted |
| MessageQueues.MessageQueue.Peek | kernel/msg_q.c:288-309 | the first buffered message, none if empty |
| MessageQueues.MessageQueue.PeekAt | kernel/msg_q.c:322-355 | the i-th buffered message across the wrap, none if there are not so many |
| MessageQueues.MessageQueue.Purge | kernel/msg_q.c:368-387 | the stream is empty and everybody waiting is woken, in queue order |
| MessageQueues.MessageQueue.TimeOut | kernel/msg_q.c:160-168 | only the thread's own message is dropped |
| MessageQueues.MessageQueue.Perform | kernel/msg_q.c:116-387 | ring, pointers and wait queue do what the call does to the stream, with the same messages taken in and handed out |
| MessageQueues.MessageQueue.Run | kernel/msg_q.c:116-387 | the same over any run, hence conservation in every run and first-in first-out order with putters of one priority |
| VirtualRegions.SetRangeBack | kernel/mmu.c:250-252 | allocating sets exactly that many bits more and freeing restores the bitmap |
| VirtualRegions.Trimmed | kernel/mmu.c:283-326 | allocating too much and giving back both ends allocates exactly the middle |
| VirtualRegions.OffsetsInvert | kernel/mmu.c:192-202 | the conversions between address and bit offset undo each other |
| VirtualRegions.TrimOffsets | kernel/mmu.c:283-326 | the bits of the two ends and of the middle |
| VirtualRegions.RegionsDisjoint | kernel/mmu.c:255-335 | a region whose bits were clear meets no region whose bits are set |
| VirtualRegions.LedgerAlloc | kernel/mmu.c:255-335 | a region made of clear pages is apart from every live region, and with it the set bits are again the fences and the live regions |
| VirtualRegions.LedgerFree | kernel/mmu.c:231-253 | the bits of a live region are its own; clearing them leaves exactly the other live regions and the fences |
| VirtualRegions.Regions.Init | kernel/mmu.c:204-229 | exactly the reserved pages and those below the free region are marked |
| VirtualRegions.Regions.Free | kernel/mmu.c:231-253 | clears exactly the bits of an allocated region inside the free area, otherwise nothing |
| VirtualRegions.Regions.Trim | kernel/mmu.c:283-326 | both unused ends are freed and the aligned middle stays |
| VirtualRegions.Regions.AllocPages | kernel/mmu.c:255-335 | aligned, inside the free region, clear before and exactly what is set besides after, taken from the first run long enough; fails exactly if there is none; the guard against kernel memory never fires |
| VirtualRegions.Regions.Alloc | kernel/mmu.c:255-335 | besides, the new region is live and apart from every other live region |
| VirtualRegions.Regions.Release | kernel/mmu.c:231-253 | freeing a live region ends its life and clears its bits and no others |
| VirtualRegions.Regions.Run | kernel/mmu.c:231-335 | in every run of allocations and frees the regions held are apart, inside the free region, and with the fences exactly what is marked |
| VirtualRegions.Regions.AllocThenFree | kernel/mmu.c:231-335 | allocating and freeing leaves the bitmap as it was |
| VirtualRegions.Regions.WithinFences | kernel/mmu.c:255-335 | a run of clear bits lies between the marked areas |
| VirtualRegions.Regions.BitAlloc | lib/os/bitarray.c:384-454 | the first run of clear bits that is long enough, or an error exactly if there is none |
| VirtualRegions.Regions.BitFree | lib/os/bitarray.c:456-491 | clears the range exactly if every bit of it is set |
| IdtVectors.ClassesDisjoint | arch/x86/gen_idt.py:112-115 | the 16-vector classes do not overlap |
| IdtVectors.Filling | arch/x86/gen_idt.py:112-187 | what each vector holds: an entry's handler at its own vector or in the 16 of its priority, else the spurious handler, with error code at 8, 10 to 14 and 17 |
| IdtVectors.NoRoom | arch/x86/gen_idt.py:158-171 | if a class is full when an entry asks, no assignment of the whole list exists |
| IdtVectors.MapNames | arch/x86/gen_idt.py:118-134 | the line map names every entry's vector if and only if no entry at vector 0 shares its line |
| IdtVectors.LineClash | arch/x86/gen_idt.py:129-130 | the error for a second assignment comes only when two entries share a line |
| IdtVectors.ShadowExample | arch/x86/gen_idt.py:127-130 | a list that is accepted although two entries share a line |
| IdtVectors.Install | arch/x86/gen_idt.py:118-133 | both tables gain the entry, or the list is unacceptable |
| IdtVectors.PassOne | arch/x86/gen_idt.py:141-155 | explicit vectors are placed, or the list is unacceptable |
| IdtVectors.FirstFree | arch/x86/gen_idt.py:162-170 | the first free vector of the class, or none exactly if all are taken |
| IdtVectors.PassTwo | arch/x86/gen_idt.py:158-174 | every remaining entry gets the first vector left in its class, or no assignment exists |
| IdtVectors.SetupIdt | arch/x86/gen_idt.py:136-187 | accepted if and only if acceptable; each entry at its own suitable vector, the first left in its class, all others spurious, and the line map exact unless shadowed |
| ModuleOrder.Strike | scripts/zephyr_module.py:609-617 | the node is struck once from every list; exactly the modules with nothing left become ready |
| ModuleOrder.LeftStuck | scripts/zephyr_module.py:619-625 | what is left when nothing is ready is a stuck set |
| ModuleOrder.AllSorted | scripts/zephyr_module.py:605-627 | if everything is sorted there is no stuck set, and every dependency comes before its dependent |
| ModuleOrder.Sort | scripts/zephyr_module.py:597-627 | succeeds if and only if there is no stuck set; then every module once, behind all its dependencies |
| ModuleOrder.DuplicateSticks | scripts/zephyr_module.py:611-612 | a module that lists any dependency twice is stuck by itself |
| ModuleOrder.StuckPlainly | scripts/zephyr_module.py:597-627 | without such lists a set is stuck exactly if each member depends on a missing module or on a member of the set |

## Left out

Weaker than the code or than a general promise:

- Timeouts.Deadline: tick counts are unbounded integers and CONFIG_TIMEOUT_64BIT is on; the 32-bit variant is not modelled.
- TimeoutQueues.TimeoutQueue.Announce: the branch for an announcement that arrives on another CPU while one is being processed is not modelled; programming the clock driver is not either.
- TimeoutQueues.TimeoutQueue.TimerExpire: stops at the user's callback; the callback's own calls are the handler script.
- PipeStreams.RunConserves: order over whole runs is for writers of one priority without timeouts, since queue order rearranges the stream otherwise; StepStream gives each call's exact effect and RunCounts conservation in every run.
- PipeStreams.StepConserves: order is kept if the put overtakes no bytes; OvertakesExactly says when that is needed.
- RunQueues.Lockstep: deadlines are off, as the bitmask queue ignores them, and the run is shorter than 2^32 additions.
- RunQueues.Tree.Add: the red/black tree is its in-order sequence of nodes; balancing is not modelled.
- RunQueues.MultiQueue.Best: the 32-bit mask is the set of its set bits.
- UniScheduler.Scheduler.Run: ends where a priority change unlinks a node that is in no list; what the list code then does is not modelled.
- UniScheduler.Scheduler.SwitchTo: any queued thread may be picked; the cached choice and the preemption test on one processor are not modelled.
- UniScheduler.Scheduler.Abort: the essential-thread check and the teardown of user-mode objects are not modelled.
- SmpScheduler.Smp.Switch: waiting for another CPU to finish saving the new thread's context, and ending a thread that is being aborted, are not modelled.
- SmpScheduler.Smp.Create: relies on the check of priorities that the code makes by an assertion.
- SmpScheduler.Smp.Unpend: the wait queues themselves are abstracted to the blocked flag.
- WorkQueues.WorkSystem.Delay: the link of the delay timeout is not tracked, only the DELAYED flag.
- WorkQueues.WorkSystem.FlushItem: every flush brings a flusher object of its own; reuse of the object after the semaphore is given is not modelled.
- PageTables.PtableSet.NewChild: the new table must lie below the first address an entry cannot hold; beyond it the code truncates the address silently.
- PageTables.PtableSet.MapPage: likewise for the tables it may create.
- PageTables.PtableSet.Map: likewise for the tables of the whole region.
- PageTables.PtableSet.Reserve: likewise; reserves down to the leaf level only.
- PageTables.PtableSet.SetPagePerms: with a table at physical address zero, only for pages that have a leaf table; for the others LookupExact shows that the lookup goes astray, and what the code then overwrites is not followed up.
- PageTables.PtableSet.SetRegionPerms: likewise for regions.
- PageTables.PtableSet.Run: regions within the virtual address space, tables below the limit above, and not from address zero on if permissions are changed.
- Mutexes.Mutex.Run: one mutex, and nobody changes the priority of a waiter meanwhile.
- Events.Event.PostInternal: a timeout that fires between the walk and the wake-up is covered by the no_wake_on_timeout flag in the code and has no step here.
- MessageQueues.RunConserves: order over whole runs is for putters of one priority that neither time out nor are purged; StepStream gives each call's exact effect and RunCounts conservation in every run.
- MessageQueues.MessageQueue.Put: the queue holds at least one message, and pointers are counted in messages rather than bytes.
- VirtualRegions.Regions.Alloc: sizes and alignments are whole pages of 4096 bytes, rounding is arithmetic (equal to the bit mask for powers of two), and size_t overflow is not modelled.
- VirtualRegions.Regions.Run: callers free only regions they hold; what virt_region_free does to any other range is in Free.
- VirtualRegions.Regions.BitAlloc: skipping whole words that are all set is not modelled.
- IdtVectors.PassOne: fields below -1, which the code would take as indices from the end, are excluded.
- IdtVectors.SetupIdt: fields below -1, which the code would take as indices from the end, are excluded.
- ModuleOrder.Sort: starts from the modules by name; among independent modules the order is not pinned down.

Not modelled:

- CPU masks, meta-interrupt priorities, time slicing and non-atomic swap in kernel/sched.c; suspend, abort and priority changes on several CPUs.
- Poll events, tracing, user-mode wrappers and return values passed through thread structures, except where a contract names them.
- User callbacks and status synchronisation in kernel/timer.c; of stopping a timer only its two scheduler sections.
- Demand paging, page frames and memory mapping in kernel/mmu.c beyond the virtual region allocator.
- Large pages, symbol lookup, extra regions and the mapped-region queries of arch/x86/gen_mmu.py; the binary formats of gates and maps in arch/x86/gen_idt.py; reading of metadata in scripts/zephyr_module.py.
- Semaphores, stacks, queues, condition variables, futexes, heaps, slabs and mailboxes: thin layers over the wait queues or over allocators.
