# Verified model of the OS abstraction layer's protocols

This project models the parts of the OSAL that are more than one-call wrappers and proves what they
guarantee: the interrupt proxy between kernel and user space, the bottom-half thread, the kernel and
user events, the semaphore, the kernel join and the user thread's start gate, the circular list, PCI
enumeration and addressing, page-aligned mapping, and the timed wait's deadline.

`dafny verify dfyconfig.toml` checks everything.

## How it is put together

- A concurrent component is a step system: a state, actions, and a function `Step` that answers `None`
  when an action cannot happen. One step is one critical section of the C code, or one unlocked store
  or call; a thread's place in the code is part of the state, so a C loop around a wait is an edge back
  to an earlier place. Theorems speak of every reachable state (`Runs.Leads` from the start state), for
  any number of threads, waiters or proxies. Beside each system stands a class with the fields of the C
  structure; its methods perform the critical sections on the fields, and each is proved to do exactly
  its `Step`.
- `Runs.dfy` has executions and the induction over them, `Counting.dfy` counts map entries,
  `Words.dfy` has the 32-bit target's integer types.
- Fields called history in the comments (`accepted`, `sets`, `puts`, ...) are read by no guard and no branch.
- Assumed of the primitives: mutexes and spinlocks exclude; a POSIX signal unblocks a non-empty set of
  the sleepers if there are any, and condition waits may wake without cause (IEEE Std 1003.1-2008); a
  kernel wake-up makes every sleeping task on the queue runnable and takes it off the queue, while a
  signal leaves it there; a line delivers only while its disable depth is 0 (proxy) or while it is
  unmasked (bottom half), and one handler of a line runs at a time; one thread reads an open proxy
  file; plain loads and stores are sequentially consistent.

## What the proofs found

- `irqproxy` never loses an interrupt, but a read that begins with one pending can still fail: a second
  interrupt landing between `prepare_to_wait` and the locked test takes the event down again, and a
  signal then wins. Two such reads in a row never both fail. It may also deliver one interrupt twice,
  never more often; each extra delivery has its failed read, and one timed-out read is enough, without any race.
- A kernel event wait can report success with no set at all, when another waiter's timer fires; the
  header's promise that success means an event holds exactly when no task's timer can run while another
  task sleeps on the event.
- A set of an auto-reset kernel event can come to nothing in four ways: a zero wait on the queue swallows
  it, a timed wait's timer overrules it, the only task on the queue has been made runnable by a signal so that
  the set wakes nobody, or its raised flag is taken down by the final reset of a task that has slept. The
  first three need a zero, timed or interruptible wait: some wait returns success after the last set, or still
  can, exactly when the event is manual-reset or every wait on it is uninterruptible and has no time limit.
  The fourth spares nobody who sleeps: a raised flag is sure to stay up until taken exactly while no task is
  past its test, and the wait that returns success after the last set may be one that an earlier set had
  woken. The interrupt proxy's reads are timed and interruptible, which is why it needs its `received` flag.
- One set of a user auto-reset event can satisfy two waits. A manual-reset set frees one sleeper only.
- `os_sema_init` leaves the static-initialisation mark alone, so a later `os_sema_init_pre_inited` may reset the count.
- `os_release_interrupt` hangs if `kthread_stop` falls between the thread's stop test and its
  `prepare_to_wait`, and leaves the line masked if it wipes a `pending` the thread has not yet acted on.
- `os_thread_resume` may answer OSAL_NOT_IMPLEMENTED while the thread is still asleep, exactly if more than
  one thread calls it; and a spurious wake-up opens the start gate early.
- PCI enumeration returns the left-to-right maxima of the matching slots: all matches exactly if the table
  lists them ascending with nothing unreadable in the way.

## Model

| member | source | states |
|---|---|---|
| IrqLine.NoInterruptLost | linux_kernel/src/osal_irq.c:419-459 | in every interleaving, an undelivered interrupt means the event is up, or `received` is 0, or the current read has taken the flag or is awake in its wait; a reader never sleeps over an interrupt otherwise |
| IrqLine.ReadAfterHandler | linux_kernel/src/osal_irq.c:433-459 | a read begun with the handler idle and an interrupt undelivered finds `disabled` set; it returns 0 at once if `received` is 0, else the event is up |
| IrqLine.OwedReadReturnsZero | linux_kernel/src/osal_irq.c:443-459 | such a read never blocks and ends in no other status than success, unless a further set met it on the queue before its test |
| IrqLine.OwedReadFinishes | linux_kernel/src/osal_irq.c:443-459 | left to itself it is back within six steps with the interrupt delivered |
| IrqLine.CrossedReadFailsExactly | linux_kernel/src/osal_irq.c:453-456 | only a read so crossed gets as far as a verdict, and it fails exactly when a signal or its timer has come as well |
| IrqLine.NoTwoMissesInARow | linux_kernel/src/osal_irq.c:443-459 | of two consecutive such reads at least one returns 0 |
| IrqWitnesses.CrossedReadFails | linux_kernel/src/osal_irq.c:453-456 | the exception is reachable: a pending interrupt, and the read that should report it returns -EINTR |
| IrqLine.AtMostTwice | linux_kernel/src/osal_irq.c:419-459 | reads that return 0 number at most twice the accepted interrupts |
| IrqLine.TwiceOnlyAfterFailures | linux_kernel/src/osal_irq.c:443-458 | and exceed them by no more than the reads that failed, so with none failed each interrupt is delivered at most once |
| IrqLine.ReceivedExactly | linux_kernel/src/osal_irq.c:443-458 | `received` is 0 exactly while the last read to finish is one that failed |
| IrqLine.SuccessIsNotRepeated | linux_kernel/src/osal_irq.c:443-458 | a read that took the event delivers once, and the read begun next does not answer 0 at once |
| IrqLine.DeliveryReachesAll | linux_kernel/src/osal_irq.c:419-425 | each delivery on the line makes every registered proxy accept the interrupt exactly once before it ends |
| IrqWitnesses.TwiceIsTight | linux_kernel/src/osal_irq.c:443-458 | for every n a run delivers n interrupts 2n times, with n failed reads: both bounds are tight |
| IrqLine.DepthBalanced | linux_kernel/src/osal_irq.c:419-520 | for any number of proxies the disable depth is the number of proxies holding the line, and `enable_irq` is never called at depth 0 |
| IrqLine.HandlerStartsUnheld | linux_kernel/src/osal_irq.c:419-425 | no handler starts while its own proxy holds the line |
| IrqLine.ReleaseIsExact | linux_kernel/src/osal_irq.c:505-520 | release takes off exactly its own proxy's share; a raised event then implies `disabled` |
| IrqLine.StepKeepsInv | linux_kernel/src/osal_irq.c:419-520 | every step of every party keeps depth, exclusion and all per-proxy invariants |
| IrqProxy.AcceptKeeps | linux_kernel/src/osal_irq.c:419-425 | a set on an unheld proxy keeps the no-loss and accounting invariants |
| IrqProxy.ReadKeeps | linux_kernel/src/osal_irq.c:433-459 | every reader step keeps them, and gives up the line exactly at its `enable_irq` |
| IrqProxy.HandlerKeeps | linux_kernel/src/osal_irq.c:423-424 | the handler's later steps keep them and leave the proxy holding the line |
| IrqProxy.TimerKeeps | linux_kernel/src/osal_event.c:71-78 | so does the read's timer, at any moment |
| IrqProxy.SignalKeeps | linux_kernel/src/osal_event.c:207-213 | so does a signal, at any moment |
| IrqProxy.Device.SetEvent | linux_kernel/src/osal_event.c:124-142 | the flag is up exactly if the reader is not on the queue; a reader asleep there is woken and taken off |
| IrqProxy.Device.HandlerSetsEvent | linux_kernel/src/osal_irq.c:419-422 | the handler's first step: the set, and one interrupt accepted and undelivered |
| IrqProxy.Device.HandlerDisablesLine | linux_kernel/src/osal_irq.c:423 | the line's depth rises by one while `disabled` is still 0 |
| IrqProxy.Device.HandlerMarksDisabled | linux_kernel/src/osal_irq.c:424 | `disabled` becomes 1 and the handler is idle again |
| IrqProxy.Device.ReadBegins | linux_kernel/src/osal_irq.c:438-452 | the opening tests; answers 0 exactly when `disabled` is set and `received` is not |
| IrqProxy.Device.ReadClearsDisabled | linux_kernel/src/osal_irq.c:445 | the store before the line is enabled again |
| IrqProxy.Device.ReadEnablesLine | linux_kernel/src/osal_irq.c:446 | the reader's `enable_irq`, one level up |
| IrqProxy.Device.ReadEntersWait | linux_kernel/src/osal_irq.c:453 | the read goes on the event's queue for 1000 ms, interruptibly |
| IrqProxy.Device.WaitTestsFlag | linux_kernel/src/osal_event.c:172-195 | the locked test takes a raised flag, and only that makes the read succeed at once |
| IrqProxy.Device.WaitGoesOn | linux_kernel/src/osal_event.c:197-225 | timer, sleep, dequeue and verdict on the fields; blocked exactly when the scheduler keeps the reader, the flag untouched throughout |
| IrqProxy.Device.WaitReturns | linux_kernel/src/osal_event.c:184-231 | the ways out: off the queue with the status decided, the flag lowered exactly after a wait that slept |
| IrqProxy.Device.ReadEnds | linux_kernel/src/osal_irq.c:453-458 | 0 exactly for a successful wait, and `received` is 1 afterwards exactly for a 0 |
| IrqProxy.Device.ReleasesLine | linux_kernel/src/osal_irq.c:509-515 | one enable exactly if `disabled` or the event was up |
| KernelEvent.NoSleepOnRaisedEvent | linux_kernel/src/osal_event.c:124-202 | a task past its test that is still asleep means the event is down, both modes, any number of waiters, timers and signals |
| KernelEvent.StepKeepsInv | linux_kernel/src/osal_event.c:124-234 | every action of every party keeps it |
| KernelEvent.SetWakesEveryone | linux_kernel/src/osal_event.c:124-142 | a set leaves nobody asleep, and leaves the flag up exactly in manual mode or with an empty queue |
| KernelEvent.TimerWakesEveryone | linux_kernel/src/osal_event.c:71-78 | a timer leaves nobody asleep either, but marks its own task only and leaves the flag alone |
| KernelEvent.SuccessHasOneCause | linux_kernel/src/osal_event.c:156-234 | a wait that slept and succeeds was notified by a set exactly if no other waiter's timer woke it |
| KernelLoss.SuccessMeansSetExactly | linux_kernel/src/osal_event.c:71-225 | every success after sleeping comes from a set exactly when the allowed waits never let one task's timer run while another sleeps; any kinds of wait, both modes |
| KernelEvent.SetUnnoticedExactly | linux_kernel/src/osal_event.c:131-138 | an auto-reset set leaves the flag down and wakes nobody exactly when the queue is occupied by tasks already awake; each of those has a signal |
| KernelEvent.SetReachesUninterruptible | linux_kernel/src/osal_event.c:131-138 | with uninterruptible waits a set that finds the queue occupied always wakes somebody |
| KernelEvent.FlagDroppedExactly | linux_kernel/src/osal_event.c:227-231 | a task's step lowers a raised auto-reset flag without taking it exactly in the final reset of a wait that slept |
| KernelLoss.LastSetAnsweredExactly | linux_kernel/src/osal_event.c:124-234 | in every reachable state some wait has returned success since the last set, or still can, exactly when the event is manual-reset or all allowed waits are uninterruptible and untimed; any kinds of wait, and the answering wait may be one that an earlier set had woken |
| KernelLoss.UnanswerableStays | linux_kernel/src/osal_event.c:124-234 | once no wait can answer the last set, nothing but a further set, a reset or a stray timer changes that |
| KernelLoss.PromisingExactly | linux_kernel/src/osal_event.c:172-231 | with the flag down, the waits counted on to answer a set are exactly those that return success when they alone run on |
| KernelLoss.NotifiedPromisesExactly | linux_kernel/src/osal_event.c:207-225 | a wait that a set has woken is one of them exactly if neither a signal nor its own timer has come and it is no zero wait |
| KernelFlag.SetHeldOrDeliveredExactly | linux_kernel/src/osal_event.c:124-142 | one auto-reset set wakes a task or leaves a flag sure to stay up until taken, exactly if a task sleeps on the queue, or the queue is empty and no task is past its test |
| KernelFlag.FlagStaysUpExactly | linux_kernel/src/osal_event.c:172-231 | a raised auto-reset flag stays up over every run without set, reset or a wait taking it, exactly if no task is past its test |
| KernelFlag.FlagNeverDroppedExactly | linux_kernel/src/osal_event.c:227-231 | in no reachable state is a task about to take down a flag it does not have, exactly when all allowed waits are zero waits |
| KernelFlag.SecondSetDropped | linux_kernel/src/osal_event.c:227-231 | uninterruptible untimed waits only: two sets, one success, the flag down and another task asleep |
| KernelFlag.ResetHoldsUntilSet | linux_kernel/src/osal_event.c:144-154 | in either mode the flag stays down from a reset to the next set, over every run |
| KernelFlag.PollAfterResetTimesOut | linux_kernel/src/osal_event.c:144-188 | so a zero wait entered in between can only time out, in two steps of its own |
| KernelFlag.SetHoldsUntilReset | linux_kernel/src/osal_event.c:124-231 | the flag of a manual-reset event stays up from a set to the next reset, over every run |
| KernelLoss.PollSwallowsSet | linux_kernel/src/osal_event.c:131-195 | a zero wait on the queue before its test leaves the set that finds it there without an answer |
| KernelLoss.TimerSwallowsSet | linux_kernel/src/osal_event.c:214-222 | a timed wait does so to the set that woke it when its timer runs out before the verdict |
| KernelLoss.SignalSwallowsSet | linux_kernel/src/osal_event.c:131-213 | a wait made runnable by a signal does so to the next set, with no timer involved |
| KernelLoss.StrayTimerFakesSuccess | linux_kernel/src/osal_event.c:71-78 | the false success is reachable with no set at all |
| KernelLoss.TimedOutWaiterDropsSet | linux_kernel/src/osal_event.c:207-231 | without any race, a waiter whose timer has fired clears the flag raised after it, and no wait can answer that set |
| KernelWait.MoveKeepsSound | linux_kernel/src/osal_event.c:156-234 | a waiter is asleep only on the queue, awake only with a reason, woken by one cause at most, and runnable on the queue only by a signal |
| KernelWait.WakesKeepSound | linux_kernel/src/osal_event.c:71-142 | wake-ups by set, own or foreign timer and signal keep that, and a set leaves the waiter awake |
| KernelEvent.Event.SetEvent | linux_kernel/src/osal_event.c:124-142 | the whole queue is woken; an auto-reset set that finds it occupied lowers the flag again |
| KernelEvent.Event.NotifyQueue | linux_kernel/src/osal_event.c:137 | every sleeper on the queue is made runnable, dequeued and notified, and nobody else touched |
| KernelEvent.Event.ResetEvent | linux_kernel/src/osal_event.c:144-154 | the flag is down and no waiter touched |
| KernelEvent.Event.PrepareToWait | linux_kernel/src/osal_event.c:167-170 | a fresh waiter, queued and asleep before its test |
| KernelEvent.Event.TimeoutHandler | linux_kernel/src/osal_event.c:71-78 | the mark and the wake-up leave nobody asleep on the queue and only the owner timed out |
| KernelEvent.Event.WakeQueue | linux_kernel/src/osal_event.c:77 | every sleeper on the queue is made runnable and dequeued, all but the owner disturbed |
| KernelEvent.Event.TestFlag | linux_kernel/src/osal_event.c:172-195 | a raised flag is taken in auto-reset mode; a zero wait ends, any other goes on to sleep |
| KernelEvent.Event.WaitOn | linux_kernel/src/osal_event.c:197-205 | timer, sleep and dequeue on the fields; blocked exactly when the scheduler keeps the task |
| KernelEvent.Event.Judge | linux_kernel/src/osal_event.c:207-225 | a signal outranks the time limit, which outranks a wake-up |
| KernelEvent.Event.Decide | linux_kernel/src/osal_event.c:207-231 | the result of a wait that slept, its timer deleted; only an auto-reset wait still has its final reset to do |
| KernelEvent.Event.LeaveWait | linux_kernel/src/osal_event.c:184-193 | the three ways out with their statuses |
| BottomHalf.OncePerTopHalf | linux_kernel/src/osal_irq.c:232-283 | until the release clears it, stores of `pending` equal handler calls, and completed bottom halves, plus the one outstanding |
| BottomHalf.CompletedMeansHandled | linux_kernel/src/osal_irq.c:256-263 | no bottom half is completed without a call of the handler |
| BottomHalf.MaskedExactly | linux_kernel/src/osal_irq.c:192-283 | the line is masked exactly from the mask step to the matching unmask |
| BottomHalf.NeverBlockedOverPending | linux_kernel/src/osal_irq.c:243-282 | blocked over a stored `pending` only while the top half's wake-up is still to come, which unblocks it |
| BottomHalf.RestIsServed | linux_kernel/src/osal_irq.c:243-267 | before the release's clear and with no wake-up outstanding, the thread left to itself goes to sleep with the handler called for every store and the line unmasked unless a top half has just masked it |
| BottomHalf.ReleaseReturnsExactly | linux_kernel/src/osal_irq.c:353-377 | the release returns exactly when the stop does not fall between stop test and `prepare_to_wait`; otherwise nothing can happen any more |
| BottomHalf.ReleaseCanHang | linux_kernel/src/osal_irq.c:243-245 | that moment is reachable |
| BottomHalf.OnlyThreadMoves | linux_kernel/src/osal_irq.c:365-374 | after the stop no other party has a step |
| BottomHalf.WipeLeavesLineMasked | linux_kernel/src/osal_irq.c:367-374 | over every run from the release's clear to the thread's exit, the line ends masked and one store unhandled exactly when a bottom half was pending that the thread had not begun |
| BottomHalf.MaskedAfterExit | linux_kernel/src/osal_irq.c:353-377 | after the thread's exit the line is masked exactly when something was wiped, and every other store was handled |
| BottomHalf.StepKeepsInv | linux_kernel/src/osal_irq.c:232-377 | every step of top half, thread and release keeps the counting and masking invariant |
| BottomHalf.SettlesByExiting | linux_kernel/src/osal_irq.c:243-271 | a stopped thread exits exactly when it is neither on its way to the queue nor asleep on it |
| BottomHalf.LinuxInt.RunLoop | linux_kernel/src/osal_irq.c:243-271 | from any state the loop comes to rest where the model says, blocked exactly if it has not exited |
| BottomHalf.LinuxInt.ThreadMoves | linux_kernel/src/osal_irq.c:243-267 | each piece of the loop changes flags, queue and mask as the model's step does |
| BottomHalf.LinuxInt.LoopTurns | linux_kernel/src/osal_irq.c:243-256 | stop test, queue and the two tests of `pending`; the handler comes next exactly when the second test sees it set |
| BottomHalf.LinuxInt.CallHandler | linux_kernel/src/osal_irq.c:258 | one call of the handler |
| BottomHalf.LinuxInt.ClearsPending | linux_kernel/src/osal_irq.c:261 | the store after it |
| BottomHalf.LinuxInt.EnableDeviceIrq | linux_kernel/src/osal_irq.c:212-262 | the unmask |
| BottomHalf.LinuxInt.WakeThread | linux_kernel/src/osal_irq.c:281-282 | a queued sleeper is made runnable and taken off the queue, nobody else is touched |
| BottomHalf.LinuxInt.CheckAndDisableDeviceIrq | linux_kernel/src/osal_irq.c:192-208 | the top half's mask |
| BottomHalf.LinuxInt.StorePending | linux_kernel/src/osal_irq.c:279 | the top half's store |
| BottomHalf.LinuxInt.ReleaseFreesIrq | linux_kernel/src/osal_irq.c:362-365 | the release's first step: no further top half |
| BottomHalf.LinuxInt.ReleaseClearsPending | linux_kernel/src/osal_irq.c:367-368 | its second: whatever is pending is wiped |
| BottomHalf.LinuxInt.ReleaseStopsThread | linux_kernel/src/osal_irq.c:371-374 | its third: the stop request and one wake-up |
| Semaphore.NoLostWakeup | linux_user/src/osal_sema.c:110-142 | while a thread sleeps the count is at most the signals and re-tests still to come; at rest a sleeper means count 0 |
| Semaphore.ConservationExactly | linux_user/src/osal_sema.c:66-142 | in all runs the count is initial plus puts minus gets, exactly when the static-initialisation mark is set |
| Semaphore.NeverNegativeExactly | linux_user/src/osal_sema.c:110-142 | the count is never negative exactly when the initial value is not |
| Semaphore.PutServesOneGet | linux_user/src/osal_sema.c:110-142 | at count 0 a get sleeps; after one put one get goes through and the count is 0 again |
| Semaphore.GetTakesExactly | linux_user/src/osal_sema.c:116-126 | a thread leaves get, with exactly one unit, exactly when its test finds the count other than 0 |
| Semaphore.StepKeepsInv | linux_user/src/osal_sema.c:66-142 | every step, spurious wake-ups and broad signals included, keeps the no-lost-wakeup invariant |
| Semaphore.Sema.TestCount | linux_user/src/osal_sema.c:116-126 | get takes a unit, or sleeps on zero; used for the first test and every re-test |
| Semaphore.Sema.Increment | linux_user/src/osal_sema.c:136-138 | put adds a unit and owes a signal |
| Semaphore.Sema.SignalNonZero | linux_user/src/osal_sema.c:140-141 | the signal after the unlock |
| Semaphore.Sema.InitPreInitedAgain | linux_user/src/osal_sema.c:66-82 | a repeated initialisation changes nothing unless the mark is 0 |
| UserEvent.NoSleeperStranded | linux_user/src/osal_event.c:115-224 | a raised auto-reset event with a blocked thread has a woken one not yet back at the lock |
| UserEvent.StepKeepsServed | linux_user/src/osal_event.c:115-224 | every action, spurious wake-ups, timeouts and refused waits included, keeps it |
| UserEvent.ReleaseAccount | linux_user/src/osal_event.c:115-224 | exact balance of sets and successful waits; at most two per set, more than one only when a caller overtook a signalled thread |
| UserEvent.SetIsRemembered | linux_user/src/osal_event.c:115-174 | after any set, with or without a sleeper, the next wait succeeds at once and takes the flag exactly in auto-reset mode |
| UserEvent.DropsExactly | linux_user/src/osal_event.c:115-224 | which steps drop a token of that account: a set that finds one there already, a reset or a wait ended without a signal over an unclaimed flag |
| UserEvent.ExpiredWaitDropsFlag | linux_user/src/osal_event.c:206-223 | a wait whose time runs out returns without success and takes an auto-reset flag down with it |
| UserEvent.StepKeepsBalanced | linux_user/src/osal_event.c:115-224 | every action keeps the account exact |
| UserEvent.TwiceIsTight | linux_user/src/osal_event.c:166-174 | for every n, n sets can satisfy 2n waits |
| UserEvent.ManualSetReachesAllExactly | linux_user/src/osal_event.c:123-129 | a manual-reset set frees all blocked threads exactly when there is at most one |
| UserEvent.ManualSetStrandsSecondSleeper | linux_user/src/osal_event.c:126-127 | with two, the second sleeps on with the flag up |
| UserEvent.Event.SetEvent | linux_user/src/osal_event.c:115-132 | the flag is up whoever waits, and the signalled sleepers are unblocked |
| UserEvent.Event.ResetEvent | linux_user/src/osal_event.c:135-148 | lowers the flag and wakes nobody |
| UserEvent.Event.BeginWait | linux_user/src/osal_event.c:164-186 | the first locked region: success on a raised flag, timeout on a zero wait, else asleep |
| UserEvent.Event.EndWait | linux_user/src/osal_event.c:206-223 | the second locked region: timeout exactly if the timer ended the wait |
| Deadline.AbsoluteDeadline | linux_user/src/osal_event.c:193-203 | the deadline is normalised, and it is now plus the wait to the nanosecond exactly when the seconds fit a signed 32-bit long |
| Deadline.RawNanosFits | linux_user/src/osal_event.c:197-203 | the intermediate sum never exceeds 1998999000, fits the type, and one subtraction suffices |
| ThreadJoin.ReturnsOnlyAfterAll | linux_kernel/src/osal_thread.c:160-171 | the join returns only after every initialised thread has set its kill event |
| ThreadJoin.NeverStranded | linux_kernel/src/osal_thread.c:160-179 | it is never left asleep on a thread that has already done so |
| ThreadJoin.ReachableReturns | linux_kernel/src/osal_thread.c:160-171 | once all have, it returns, from any reachable state and for any array length |
| ThreadJoin.KilledForGood | linux_kernel/src/osal_thread.c:66-179 | a set marks exactly its own thread, and no step takes a mark back |
| ThreadJoin.SetReleasesJoin | linux_kernel/src/osal_thread.c:66-179 | a set on the thread the caller waits for gives the caller a step, wherever it stands |
| ThreadJoin.StepKeepsInv | linux_kernel/src/osal_thread.c:66-179 | every set and every step of the caller keeps the invariant behind these |
| ThreadJoin.ThreadWait.WaitAll | linux_kernel/src/osal_thread.c:160-171 | the loop gets as far as the model says and finishes exactly at the end of the array |
| ThreadJoin.ThreadWait.WaitOneStep | linux_kernel/src/osal_thread.c:164-169 | one piece of the loop; uninitialised threads are skipped; blocked exactly when the scheduler keeps the caller |
| ThreadJoin.ThreadWait.TestFlag | linux_kernel/src/osal_event.c:172-195 | the locked test of the wait on one kill event |
| ThreadJoin.ThreadWait.WaitOn | linux_kernel/src/osal_event.c:197-225 | its timer, sleep, dequeue and verdict, blocked exactly when the join has no step |
| ThreadJoin.ThreadWait.LeaveWait | linux_kernel/src/osal_event.c:184-231 | its ways out, the flag lowered after a sleep |
| ThreadJoin.ThreadWait.SetKillEvent | linux_kernel/src/osal_thread.c:84-178 | a set on the event the caller is queued on wakes it and leaves that flag down; any other flag goes up |
| StartGate.NotAsleepOnceResumed | linux_user/src/osal_thread.c:74-103 | after a successful resume the thread is not asleep and its next step reaches the callback, whoever ran first |
| StartGate.AsleepAfterRejection | linux_user/src/osal_thread.c:387-405 | after a rejected resume the thread sleeps only while another resumer is between store and signal |
| StartGate.RejectionPromisesExactly | linux_user/src/osal_thread.c:387-405 | a rejected resume finds the thread out of its sleep in every run exactly when at most one thread ever resumes it, however often |
| StartGate.RejectionCanComeFirst | linux_user/src/osal_thread.c:394-404 | with two, a rejection can come first |
| StartGate.CallbackWaitsForResume | linux_user/src/osal_thread.c:92-99 | the callback never starts before a resume has stored the active state, unless a wake-up was spurious |
| StartGate.SpuriousWakeOpensGate | linux_user/src/osal_thread.c:93-95 | the exception is reachable |
| StartGate.StateTellsLife | linux_user/src/osal_thread.c:74-103 | in every reachable state the state word is suspended only before the first store, active only after it, inactive only after the callback's end |
| StartGate.StepKeepsInv | linux_user/src/osal_thread.c:74-405 | every step of the thread and of any number of resumers keeps the gate's invariant |
| StartGate.ThreadObject.Gate | linux_user/src/osal_thread.c:92-96 | the thread sleeps only while its state is still suspended |
| StartGate.ThreadObject.RetakeMutex | linux_user/src/osal_thread.c:94-96 | the end of the condition wait: no second test |
| StartGate.ThreadObject.CallbackReturns | linux_user/src/osal_thread.c:99-102 | the thread's end and its last store |
| StartGate.ThreadObject.ResumeStores | linux_user/src/osal_thread.c:397-398 | the store under the mutex |
| StartGate.ThreadObject.ResumeSignals | linux_user/src/osal_thread.c:399-401 | the signal and unlock; only here a resume succeeds |
| StartGate.ThreadObject.ResumeTests | linux_user/src/osal_thread.c:394-404 | the unlocked test; rejected exactly when no longer suspended |
| RingList.AddTail | linux_user/include/os/osal_list.h:76-80 | appends to the ring's sequence |
| RingList.Del | linux_user/include/os/osal_list.h:82-84 | takes exactly that node out of the sequence, its own links untouched |
| RingList.Perform | linux_user/include/os/osal_list.h:76-84 | after any legal sequence of insertions and deletions one ring holds exactly the abstract sequence |
| RingList.RemoveUndoesAdd | linux_user/include/os/osal_list.h:76-84 | deleting a node just added restores the sequence |
| RingList.RingIsFunctional | linux_user/include/os/osal_list.h:67-74 | the links determine the sequence |
| RingList.Forward | linux_user/include/os/osal_list.h:86-89 | forward traversal is the sequence |
| RingList.Backward | linux_user/include/os/osal_list.h:98-99 | backward traversal is its reverse |
| RingList.IsEmpty | linux_user/include/os/osal_list.h:96 | true exactly for the empty sequence |
| RingList.RemoveDoomed | linux_user/include/os/osal_list.h:91-94 | deletion-safe iteration visits every original node once in order and leaves exactly the others in order, even when deleted nodes are overwritten |
| RingList.DeleteAndScrap | linux_user/include/os/osal_list.h:82-84 | a deleted node's memory may be reused without harm to the ring |
| RingList.VisitEntry | linux_user/include/os/osal_list.h:91-94 | one pass of the loop keeps the ring and the saved successor |
| RingList.KeptIsWithout | linux_user/include/os/osal_list.h:82-84 | filtering out one node of a ring is removing its place |
| PciScan.EnumerationAscends | linux_user/src/osal_pci.c:205-315 | over any table the slots returned strictly increase, so the iteration ends without repeats |
| PciScan.EnumerationIsOnePass | linux_user/src/osal_pci.c:104-315 | over any table, unreadable lines and devices included, restarting from the top for each device returns just what one pass over the table would |
| PciScan.EnumerationIsRecords | linux_user/src/osal_pci.c:104-315 | over a readable table that is exactly the left-to-right maxima of the matching slots |
| PciScan.FindsAllExactly | linux_user/src/osal_pci.c:219-247 | over any table it finds all matches, in order, exactly when they ascend and no unparsable line, nor an unreadable device behind all earlier matches, precedes one |
| PciScan.AscendingTableFindsAll | linux_user/src/osal_pci.c:205-252 | so over a parsable, ascending table of 16-bit addresses a search by id misses nothing |
| PciScan.AscendingTableFindsAllByClass | linux_user/src/osal_pci.c:254-315 | nor does a search by class, given readable class registers |
| PciScan.FindDevice | linux_user/src/osal_pci.c:205-252 | a handle comes back exactly when there is a first match and memory for it; it carries that line's address moved up one byte and its interrupt number |
| PciScan.FindDeviceByClass | linux_user/src/osal_pci.c:254-315 | the same by class, stopping at an unreadable device, needing only a line's address, and leaving the interrupt number unset |
| PciScan.SlotExactly | linux_user/src/osal_pci.c:228-241 | the slot is the table's address times 256 exactly for addresses of three bytes |
| PciScan.SlotDecodes | linux_user/src/osal_pci.c:241 | for a 16-bit address the slot's bus, device and function, on either side, are the address's bytes and bit fields |
| PciScan.ClassRoundTrip | linux_user/src/osal_pci.c:290-292 | the three class bytes come back out of a class register with any revision (PCI Local Bus Specification 3.0, section 6.2.1) |
| PciScan.KeyExactly | linux_user/src/osal_pci.c:234 | an identity word matches exactly if its high half is the vendor and its low half the device |
| PciScan.RegisterLayout | linux_user/src/osal_pci.c:136-142 | register 0 has the same two halves the other way round, the vendor low (PCI Local Bus Specification 3.0, section 6.2.1) |
| PciScan.ScanFindsExactly | linux_user/src/osal_pci.c:219-247 | a result is exactly the first hit behind the current slot, none exactly if the scan meets the end or something unreadable before one |
| PciScan.NextKeyUndoesSwap | linux_user/src/osal_pci.c:136-142 | the key rebuilt from register 0 undoes the half-word swap against the table |
| PciScan.FindNextDevice | linux_user/src/osal_pci.c:123-150 | resumes the search for the current device's own identity; an unreadable device is an error |
| PciScan.FindNextDeviceByClass | linux_user/src/osal_pci.c:171-201 | the same by class |
| PciScan.CollectById | linux_user/src/osal_pci.c:104-150 | the first/next loop collects the enumeration as far as memory for handles goes, each search re-deriving its key from the device |
| PciScan.CollectByClass | linux_user/src/osal_pci.c:152-201 | the same by class |
| PciAddress.AddressRoundTrip | linux_user/src/osal_pci.c:354-383 | for device below 32 and function below 8 both packings agree and both sides decode what went in |
| PciAddress.PackingsAgreeExactly | linux_kernel/src/osal_pci.c:183-193 | for all bytes the packings agree exactly when no spilled bit changes anything |
| PciAddress.DecodingsAgreeExactly | linux_kernel/src/osal_pci.c:136-140 | the decodings agree exactly when bit 31 is clear |
| PciAddress.AcceptedExactly | linux_user/src/osal_pci.c:325-331 | the path has 21 characters exactly for bus numbers up to 0xFF |
| PciAddress.DigitsInOrder | linux_user/src/osal_pci.c:325-331 | the path's digits are the lower-case ones in order |
| PciAddress.SamePathExactly | linux_user/src/osal_pci.c:325-333 | two accepted slots give the same path exactly when bits 8 to 23 agree |
| PciAddress.DeviceFromSlot | linux_user/src/osal_pci.c:317-352 | each answer with its exact condition |
| MemMap.MapCached | linux_user/src/raw/memmap.c:111-147 | asks for the page-aligned range and returns the pointer at the in-page offset, despite signed intermediates |
| MemMap.MapUncached | linux_user/src/raw/memmap.c:149-235 | the same with unsigned intermediates |
| MemMap.Unmap | linux_user/src/raw/memmap.c:237-251 | releases the page-aligned range of the pointer |
| MemMap.MappingCoversExactly | linux_user/src/raw/memmap.c:118-138 | the mapped range starts on the page of the first byte and, exactly when the lengthened size does not wrap, contains every requested byte; it then ends with the last one |
| MemMap.UnmapUndoesMap | linux_user/src/raw/memmap.c:237-251 | unmapping the returned pointer with the same size releases exactly what mmap handed out |
| MemMap.MapThenUnmap | linux_user/src/raw/memmap.c:149-251 | the two calls in sequence |

## Left out

- IrqLine.OwedReadReturnsZero: carries the condition that no further set crosses the read, because without it the claim is false (IrqWitnesses.CrossedReadFails).
- IrqLine.OwedReadFinishes: the same condition, for the same reason.
- IrqLine.DepthBalanced: other drivers' use of the line and the depth changes the kernel makes when the last handler of a line is freed are not modelled.
- BottomHalf.MaskedExactly: masking done by the kernel's own interrupt flow handler is not modelled.
- Semaphore.ConservationExactly: the count is unbounded; overflow of the C int is not modelled, nor that a late initialisation also resets the mutex and condition variable.
- StartGate.NotAsleepOnceResumed: os_thread_terminate and cancellation are excluded; they give no clean guarantee.
- ThreadJoin.ReturnsOnlyAfterAll: one caller and one wait per thread; a negative count, which the unsigned loop variable would turn into a huge one, is excluded.
- KernelLoss.LastSetAnsweredExactly: does not give each set a success of its own, because sets merge and a final reset can drop one (KernelFlag.SecondSetDropped); KernelFlag.SetHeldOrDeliveredExactly follows a single set.
- KernelLoss.TimedOutWaiterDropsSet: timers are deleted without waiting for a handler already running on another processor; that the timer lives on the waiter's stack is not modelled.
- RingList.RemoveDoomed: the loop body deletes at most the current entry; lists shared between threads are out, the C macros have no lock.
- Opening, allocation and registration failures of the proxy, reads before a write, and the argument checks of osal_irqproxy_write: they touch no shared state.
- The user client's thread (linux_user/src/osal_irq.c) appears only as the reader; each read that returns 0 is one call of its function. Closing the file under a running read is not modelled.
- Event destruction with live waiters, mutex, lock and irqlock wrappers, kernel semaphores and list aliases: library calls or no guarantee to state.
- Threaded shared interrupts, priorities and scheduling policies: delegated to the kernel.
- PciScan.FindNextDevice: the rejection of a null current device is not modelled, nor is the debug output.
- PCI configuration files and /proc parsing beyond a line's fields; configuration space is a function that does not change during an enumeration.
- Pre-silicon branches of the mapping code, firmware loading, tracing, clocks, division helpers, version strings: no protocol in them.
