# A verified model of the TOPPERS/ASP3 kernel, and of two parts of mruby

The project models the real-time kernel under `asp3_dcre/kernel` as a state machine whose steps are
service calls and interrupts, proves what every step keeps and what holds over whole runs, and proves
that the kernel's data structures, updated in place as the C code updates them, make these steps.  The
copy-on-write arrays and the two-buffer quicksort of mruby, which are verified the same way, complete it.

## How it is built

Two descriptions of the kernel stand side by side.

- The plain state machine (`KernelState.dfy`, `KernelCalls.dfy`) has one precedence order of all runnable
  tasks, one queue per object, and a function for each service call.  A priority is always the full
  recomputation, the task to run always the head of the order.
- The class `Kernel.Kernel` (`Kernel.dfy`) has the sixteen ready queues, the bitmap, the cached
  `p_schedtsk`, `dspflg` and the mutex chains, and each C routine as a method with its branches and loops.
  Each method is proved to do what the plain machine does, and `Perform` says so for every call.

What the system promises is then proved about the plain machine.  `KernelInv.dfy` and `KernelSafety.dfy`
hold the invariant and its preservation by every call; `CeilingTheorem.dfy` the classic result on the
priority ceiling protocol; `KernelOrder.dfy` the order in wait queues; `KernelPairs.dfy` calls that undo each
other; `KernelCallLaws.dfy` and `KernelDispatch.dfy` what each call does, when, to whom and where in the queues, said
without the functions that compute it (`KernelLaws.dfy` and `KernelEffects.dfy` say the same of their parts);
`KernelRuns.dfy` laws over runs: timeouts, order of arrival, queued activations; `KernelSteps.dfy` the lemmas
that connect the two descriptions, `ReadyQueue.dfy` and `Lists.dfy` those about bitmap and lists.

| file | contents |
|---|---|
| `EventHeap.dfy` | wrapping event times, the binary heap with back-pointers, as arrays |
| `TimeEvents.dfy` | clocks, timer, time-event service calls, cyclic notifications, `signal_time` |
| `DataQueue.dfy`, `PriDataQueue.dfy`, `MemPool.dfy` | ring buffer; list, free list and watermark; block allocator |
| `Queues.dfy`, `EventFlag.dfy` | the doubly linked ring by pointers; the release loop that edits it |
| `CowArrays.dfy`, `SortSub.dfy` | shared arrays with reference counts; the quicksort |

A lower number is a higher priority, as in the kernel.  `None` stands for `NULL` and for a mutex without
a ceiling.  Times carry an unbounded ghost value beside the wrapped 32-bit one.

## Results that differ from what one would expect

- `fsnd_dtq` stores `E_OK` over `E_NOEXS` (`asp3_dcre/kernel/dataqueue.c:602-616`), so a forced send to a
  data queue that does not exist reports success and does nothing.  The contract of
  `DataQueues.DataQueue.FsndDtq` states this for all queues.
- Whether an event is due is tested on wrapped values.  The test is right exactly as long as the event lags
  by at most 200,000,000 counts (`EventTimes.DueTestExact`, both directions); one count more and it is missed
  (`EventTimes.LateEventMissed`).  The time-event contracts therefore ask, as `NoLag`, that the counter is
  read before a pending event lags by more than that.
- A ceiling mutex's attribute value contains the priority-order bit, so its wait queue is in priority order.

## Model

| member | source | states |
|---|---|---|
| KernelSafety.StepInv | asp3_dcre/kernel/task.c:239-439 | every service call and interrupt event keeps the kernel invariant: links match states, priorities match the ceilings held, chains match owners, timeout blocks match waits, the running task is the one that should run, no termination request is overlooked |
| KernelSafety.RunInv | asp3_dcre/kernel/task.c:239-439 | the invariant holds after every run of calls, of any length and in any order |
| KernelSafety.InitialInv | asp3_dcre/kernel/task.c:93-127 | the state the kernel starts in has the invariant, for every configuration |
| KernelSafety.RunsHighest | asp3_dcre/kernel/task.c:239-285 | in every reachable state outside a handler with dispatching enabled, a task runs if any can, and no runnable task has a higher current priority |
| KernelSafety.LinkMatchesState | asp3_dcre/kernel/wait.h:84-156 | in every reachable state a task's one link is in exactly the ring its state demands, once, and in no other; its timeout block is registered if and only if it waits with one |
| KernelSafety.PriorityIsRaised | asp3_dcre/kernel/mutex.c:246-260 | in every reachable state the current priority is the base priority or a ceiling held, not lower than any of these, and the base priority exceeds no ceiling held or waited for |
| KernelSafety.ChainsMatchOwners | asp3_dcre/kernel/mutex.c:289-334 | in every reachable state a mutex is once on the chain of its owner and on no other, a free mutex has no waiter, and an owner is not dormant and does not wait for its own mutex |
| KernelSafety.WaitersSorted | asp3_dcre/kernel/wait.h:62-74 | in every reachable state a priority-ordered queue is sorted by its waiters' present priorities |
| KernelSafety.RequestsArePending | asp3_dcre/kernel/task_term.c:166-266 | in every reachable state a task with a termination request is runnable, and has termination disabled whenever dispatching is possible |
| WaitOrder.StepStable | asp3_dcre/kernel/wait.h:259-265 | a call may change the order of tasks waiting in one queue only by moving the task it names or the caller; everybody else keeps its place relative to the others |
| WaitOrder.WaitOrderKept | asp3_dcre/kernel/task.c:376-385 | two tasks waiting in the same queue before and after any call, with unchanged priorities and not named by chg_pri, wait in the same order |
| CeilingTheorem.CeilingTheorem | asp3_dcre/kernel/mutex.c:473-518 | when all mutexes are ceiling mutexes, in every run that waits holding none and neither suspends, rotates, changes base priorities, disables dispatching nor re-initialises a mutex, loc_mtx never waits for any mutex and no task ever waits for one: no blocking, no deadlock |
| CeilingTheorem.StepCeilings | asp3_dcre/kernel/mutex.c:289-334 | each such call keeps that every task ahead of a holder in scheduling order has a base priority strictly above each ceiling the holder owns |
| CeilingTheorem.HeldElsewhere | asp3_dcre/kernel/mutex.c:484-513 | if another task holds the mutex, the caller's base priority is above its ceiling |
| CeilingTheorem.LockDecides | asp3_dcre/kernel/mutex.c:484-513 | a lock request is decided at once: E_ILUSE, granted, or E_OBJ because the mutex is the caller's own |
| CeilingTheorem.UnlockCeilings | asp3_dcre/kernel/mutex.c:637-668 | unlocking keeps the ceiling discipline: the lowered task goes ahead of its equals and that is enough |
| KernelSafety.AcquireStaysFirst | asp3_dcre/kernel/mutex.c:289-298 | locking a free mutex leaves the caller the task to run, so the assertion in loc_mtx after it holds and no dispatch is needed |
| KernelSafety.AcquireInv | asp3_dcre/kernel/mutex.c:289-298 | locking a free mutex whose ceiling is not below the base priority keeps the invariant |
| KernelSafety.ReleaseInv | asp3_dcre/kernel/mutex.c:308-334 | unlocking, with the hand-over to the first waiter, keeps the invariant |
| KernelSafety.ReinitFrees | asp3_dcre/kernel/mutex.c:678-718 | after ini_mtx the mutex is free and nobody waits for it |
| KernelSafety.CeilingHidesBase | asp3_dcre/kernel/mutex.c:224-236 | while a ceiling mutex is held, any two permitted base priorities give the same current priority, so chg_pri need not touch it |
| KernelSafety.ChangeBaseInv | asp3_dcre/kernel/task_manage.c:406-455 | a change of the base priority keeps the invariant, refused or not |
| KernelSteps.DroppedPriority | asp3_dcre/kernel/mutex.c:268-279 | the short cut of mutex_drop_priority is exact: dropping a mutex changes the fully recomputed priority only if its ceiling was higher than what remains |
| KernelSteps.TakenPriority | asp3_dcre/kernel/mutex.c:289-298 | one more mutex raises the fully recomputed priority exactly to its ceiling, if that is higher |
| KernelSteps.CalcPriorityFrom | asp3_dcre/kernel/mutex.c:246-260 | scanning the chain with a running minimum gives the recursive recomputation |
| Kernel.Kernel.CalcPriorityLoop | asp3_dcre/kernel/mutex.c:246-260 | the loop computes base priority raised to the ceilings held |
| Kernel.Kernel.CheckCeilpri | asp3_dcre/kernel/mutex.c:183-214 | true exactly if the base priority exceeds no ceiling held and none waited for |
| Kernel.Kernel.ScanCeilmtx | asp3_dcre/kernel/mutex.c:224-236 | true exactly if some ceiling mutex is held |
| Kernel.Kernel.DropPriority | asp3_dcre/kernel/mutex.c:268-279 | the conditional short cut has the effect of full recomputation |
| Kernel.Kernel.MutexAcquire | asp3_dcre/kernel/mutex.c:289-298 | locks, and settles the priority as full recomputation would |
| Kernel.Kernel.MutexRelease | asp3_dcre/kernel/mutex.c:308-334 | hands the mutex to its first waiter, off its queue and timer and with its priority raised, or frees it |
| Kernel.Kernel.MutexReleaseAll | asp3_dcre/kernel/mutex.c:344-352 | passes on every mutex of a task, the newest first, until its chain is empty |
| Kernel.Kernel.LocMtx | asp3_dcre/kernel/mutex.c:473-627 | loc_mtx and tloc_mtx with all their error cases, and the invariant is kept |
| Kernel.Kernel.PlocMtx | asp3_dcre/kernel/mutex.c:528-566 | ploc_mtx with all its error cases, and the invariant is kept |
| Kernel.Kernel.UnlMtx | asp3_dcre/kernel/mutex.c:637-668 | unl_mtx: E_OBJ unless the mutex is the newest held; otherwise released and dispatched |
| Kernel.Kernel.Unchain | asp3_dcre/kernel/mutex.c:698-705 | the pointer walk takes the mutex out of the middle of the chain |
| Kernel.Kernel.IniMtx | asp3_dcre/kernel/mutex.c:678-718 | ini_mtx: waiters released with E_DLT, the owner loses the mutex and its priority is settled |
| KernelSteps.ReinitSteps | asp3_dcre/kernel/mutex.c:678-718 | clearing the owner field first and dropping the priority after it is the same as releasing a mutex nobody waits for |
| KernelSteps.UnlockSteps | asp3_dcre/kernel/mutex.c:637-668 | the newest mutex is the head of the chain and its first waiter is fit to get it |
| CallPairs.UnlockUndoesLock | asp3_dcre/kernel/mutex.c:484-657 | loc_mtx that obtains a mutex, followed by unl_mtx, leaves the whole state as it was: chain, owner, every priority and every place in every queue |
| CallPairs.EnableUndoesDisable | asp3_dcre/kernel/sys_manage.c:365-423 | dis_dsp followed by ena_dsp leaves the whole state as it was, without a dispatch or a termination |
| CallPairs.ResumeUndoesSuspend | asp3_dcre/kernel/task_sync.c:350-458 | a waiting task suspended and resumed goes on waiting in the same place |
| CallPairs.SleepUsesWakeup | asp3_dcre/kernel/task_sync.c:125-252 | a wake-up the running task sends to itself is used up by its next sleep, which does not wait |
| PriorityMap.BitmapSearch | asp3_dcre/kernel/task.c:160-174 | the number of the lowest set bit, by two halvings and a table |
| PriorityMap.PrimapSet | asp3_dcre/kernel/task.c:200-203 | sets exactly the bit of the priority |
| PriorityMap.PrimapClear | asp3_dcre/kernel/task.c:209-212 | clears exactly the bit of the priority |
| ReadyQueues.SearchFindsHead | asp3_dcre/kernel/task.c:220-226 | the bitmap is empty exactly if no task is queued, and otherwise the search finds the head of the whole precedence order |
| ReadyQueues.AppendFits | asp3_dcre/kernel/task.c:239-251 | appending to the queue of a priority is an insertion behind equals in the precedence order; who is the head then |
| ReadyQueues.RemoveFits | asp3_dcre/kernel/task.c:266-285 | unlinking from a queue removes from the precedence order; the successor in the same queue, if any, is the next head |
| ReadyQueues.RequeueFits | asp3_dcre/kernel/task.c:339-375 | moving between queues is leaving and re-entering the precedence order, ahead of or behind equals |
| ReadyQueues.RequeuedHead | asp3_dcre/kernel/task.c:349-373 | which task is at the head after a priority change, in each case change_priority tells apart |
| ReadyQueues.RotateFits | asp3_dcre/kernel/task.c:399-412 | rotating one queue moves its head behind its equals in the precedence order, and nothing if it is alone |
| Kernel.Kernel.SearchSchedtsk | asp3_dcre/kernel/task.c:220-226 | returns the head of the precedence order |
| Kernel.Kernel.MakeRunnable | asp3_dcre/kernel/task.c:239-251 | the task enters behind its equals; bitmap and cached p_schedtsk are again what a full search gives |
| Kernel.Kernel.MakeNonRunnable | asp3_dcre/kernel/task.c:266-285 | the task leaves; bitmap and cached p_schedtsk are again what a full search gives, and the assertion on dspflg holds |
| Kernel.Kernel.ChangePriority | asp3_dcre/kernel/task.c:339-386 | in both modes, the task takes its new place in the ring it is in, ready queue or wait queue; the cache stays right |
| Kernel.Kernel.ChangeReadyPriority | asp3_dcre/kernel/task.c:349-375 | in the ready queues, ahead of equals in mutex mode and behind them otherwise; the cache stays right |
| Kernel.Kernel.RotateReadyQueue | asp3_dcre/kernel/task.c:399-412 | the head of the queue goes behind its equals; the cache stays right |
| KernelSteps.RotateTarget | asp3_dcre/kernel/task.c:399-412 | the head of queue p is the first entry of priority p in the precedence order |
| Kernel.Kernel.constructor | asp3_dcre/kernel/task.c:93-127 | the tables after initialisation are valid and are the initial state of the machine |
| Kernel.Kernel.MakeDormant | asp3_dcre/kernel/task.c:295-304 | all fields get their initial values |
| Kernel.Kernel.MakeActive | asp3_dcre/kernel/task.c:314-320 | the task becomes runnable, behind its equals |
| Kernel.Kernel.TaskTerminate | asp3_dcre/kernel/task.c:422-439 | off ready queue or wait queue and timer, all mutexes passed on, initial values, and restarted if an activation is queued |
| KernelSteps.TerminateSteps | asp3_dcre/kernel/task.c:422-439 | withdrawal from rings and timer, passing on the mutexes, initial values and a queued restart, in this order, add up to one termination; before the hand-over the chain is exactly what the task owns |
| Kernel.Kernel.InsertTpri | asp3_dcre/kernel/wait.h:62-74 | the loop finds the place behind all of the same or higher priority |
| Kernel.Kernel.WobjChangePriority | asp3_dcre/kernel/wait.h:259-265 | a waiter of a priority-ordered object takes its new place; in a first-in first-out queue it stays |
| Kernel.Kernel.WaitDequeueWobj | asp3_dcre/kernel/wait.h:137-142 | out of the queue of the object waited for, and no other |
| Kernel.Kernel.WaitDequeueTmevtb | asp3_dcre/kernel/wait.h:151-156 | the timeout block is off the timer, whether it was registered or not; asks that the union still holds it |
| Kernel.Kernel.MakeNonWait | asp3_dcre/kernel/wait.h:109-128 | waiting becomes runnable, waiting-suspended becomes suspended |
| Kernel.Kernel.WobjQueueInsert | asp3_dcre/kernel/wait.c:141-149 | at the place the object's attribute demands |
| Kernel.Kernel.MakeWaitTmout | asp3_dcre/kernel/wait.c:56-70 | out of the ready queue, with the timeout block registered exactly if there is a timeout |
| Kernel.Kernel.MakeWait | asp3_dcre/kernel/wait.c:157-176 | the whole beginning of a wait: state, queues, timer and p_schedtsk |
| Kernel.Kernel.ReleaseWaiting | asp3_dcre/kernel/wait.c:80-85 | off queue and timer first, then the error code over the shared union, then runnable or suspended |
| Kernel.Kernel.WaitTmout | asp3_dcre/kernel/wait.c:95-110 | a timeout ends the wait like any release, with E_TMOUT, though the timer block is gone already |
| Kernel.Kernel.WaitTmoutOk | asp3_dcre/kernel/wait.c:116-130 | the end of a delay, with E_OK |
| Kernel.Kernel.InitWaitQueue | asp3_dcre/kernel/wait.c:186-196 | the draining loop ends, with every waiter released with E_DLT |
| KernelSafety.AwakeAllEmpties | asp3_dcre/kernel/wait.c:186-196 | after it the queue is empty and no mutex changed hands |
| KernelSteps.AwakeSteps | asp3_dcre/kernel/wait.h:109-156 | removal from queue and timer before the error code is stored amounts to one atomic release |
| Kernel.Kernel.Perform | asp3_dcre/kernel/task.c:239-439 | on every call the queues, bitmap, cache and flags of the kernel make the same step, with the same outcome, as the plain state machine, and stay valid |
| Kernel.Kernel.ActTsk | asp3_dcre/kernel/task_manage.c:258-301 | activation, queued activation, E_QOVR |
| Kernel.Kernel.ChgPri | asp3_dcre/kernel/task_manage.c:406-455 | E_OBJ, E_ILUSE, or the new base priority, shown at once unless a ceiling is held |
| Kernel.Kernel.ExtTsk | asp3_dcre/kernel/task_term.c:109-156 | the caller ends with dispatching enabled again |
| Kernel.Kernel.RasTer | asp3_dcre/kernel/task_term.c:166-213 | terminated at once, or asked to, in which case its wait is broken off with E_RASTER and it is runnable |
| Kernel.Kernel.DisTer | asp3_dcre/kernel/task_term.c:223-238 | termination disabled for the caller, only outside handlers |
| Kernel.Kernel.EnaTer | asp3_dcre/kernel/task_term.c:248-270 | a pending request is carried out, if dispatching is possible |
| Kernel.Kernel.TerTsk | asp3_dcre/kernel/task_term.c:303-333 | E_ILUSE on the caller itself, E_OBJ on a dormant task, else terminated |
| Kernel.Kernel.SlpTsk | asp3_dcre/kernel/task_sync.c:125-196 | slp_tsk and tslp_tsk, including the queued wake-up |
| Kernel.Kernel.WupTsk | asp3_dcre/kernel/task_sync.c:206-252 | ends a sleep, or queues one wake-up, or E_QOVR |
| Kernel.Kernel.RelWai | asp3_dcre/kernel/task_sync.c:303-340 | ends any wait with E_RLWAI |
| Kernel.Kernel.SusTsk | asp3_dcre/kernel/task_sync.c:350-406 | runnable to suspended, waiting to waiting-suspended; never a task with a termination request |
| Kernel.Kernel.RsmTsk | asp3_dcre/kernel/task_sync.c:416-458 | the inverse steps |
| Kernel.Kernel.DlyTsk | asp3_dcre/kernel/task_sync.c:468-499 | a wait that only its timer or a release ends |
| Kernel.Kernel.RotRdq | asp3_dcre/kernel/sys_manage.c:164-195 | the queue of the priority given, or of the caller's base priority |
| Kernel.Kernel.DisDsp | asp3_dcre/kernel/sys_manage.c:365-381 | dispatching disabled: the caller stays the task to run |
| Kernel.Kernel.EnaDsp | asp3_dcre/kernel/sys_manage.c:391-423 | p_schedtsk searched for again; a pending termination of the caller comes first |
| Kernel.Kernel.ChgIpm | asp3_dcre/kernel/interrupt.c:447-481 | the same when the mask becomes TIPM_ENAALL, and dispatching disabled otherwise |
| Kernel.Kernel.WaitObject | asp3_dcre/kernel/wait.c:157-176 | the waiting part of a call on any other object, with its error cases in order |
| Kernel.Kernel.WakeWaiter | asp3_dcre/kernel/wait.c:80-85 | the completing part of a call on any other object |
| CallLaws.TerminationMeans | asp3_dcre/kernel/task.c:422-439 | ext_tsk, ter_tsk, ras_ter, ena_ter, ena_dsp and chg_ipm, when they end a task: initial values, no timer; if an activation was queued it is used up and the task is runnable, behind all of its priority or a higher one and ahead of all lower ones, else it is dormant and in no queue; each of its mutexes goes to the first who waits for it, and nobody else changes |
| CallLaws.TerminatesLaw | asp3_dcre/kernel/task.c:422-439 | a call that ends a task does so stage by stage: off queue and timer, mutexes passed on one by one, initial values, queued start; the caller does not return exactly if it is the task |
| CallLaws.NoReturnLaw | asp3_dcre/kernel/task_term.c:109-156 | a call does not return if and only if it ends its caller |
| StateEffects.EndEffect | asp3_dcre/kernel/task.c:422-439 | the stages of a termination, each said by its effect on fields and queue places |
| StateEffects.AllPassedOnMeans | asp3_dcre/kernel/mutex.c:344-352 | passing on all mutexes: each goes to the head of its own queue, who gets E_OK and is off its timer; hand-overs do not interfere |
| CallLaws.TerTskLaw | asp3_dcre/kernel/task_term.c:303-333 | when ter_tsk is refused, with which error, and when it ends the task |
| CallLaws.RasTerLaw | asp3_dcre/kernel/task_term.c:166-213 | when ras_ter is refused, ends the task, or only tells it: a wait is broken off with E_RASTER, and the task is runnable behind its equals |
| CallLaws.ExtTskLaw | asp3_dcre/kernel/task_term.c:109-156 | ext_tsk ends the caller, except from a handler |
| CallLaws.DisTerLaw | asp3_dcre/kernel/task_term.c:223-238 | dis_ter sets only the flag of the caller |
| CallLaws.EnaTerLaw | asp3_dcre/kernel/task_term.c:248-270 | ena_ter ends the caller if a request is pending and dispatching is possible, else sets the flag |
| CallLaws.BlocksLaw | asp3_dcre/kernel/wait.c:56-70 | a caller that waits leaves the precedence order, stands in the queue of the object at the end or, in a queue in priority order, behind its equals, and has its timeout block registered exactly if it gave a time; nothing else changes |
| CallLaws.SlpTskLaw | asp3_dcre/kernel/task_sync.c:125-196 | when slp_tsk and tslp_tsk are refused, use up a kept wake-up, time out at once, or wait |
| CallLaws.DlyTskLaw | asp3_dcre/kernel/task_sync.c:468-499 | when dly_tsk is refused and when it waits |
| CallLaws.WaitObjectLaw | asp3_dcre/kernel/wait.c:157-176 | when a call on any other object is refused, times out at once, or waits |
| CallLaws.LocMtxLaw | asp3_dcre/kernel/mutex.c:473-627 | when loc_mtx and tloc_mtx are refused, obtain the mutex without moving anybody, time out at once, or wait |
| CallLaws.PlocMtxLaw | asp3_dcre/kernel/mutex.c:528-566 | when ploc_mtx is refused, obtains the mutex, or times out |
| CallLaws.UnlMtxLaw | asp3_dcre/kernel/mutex.c:637-668 | unl_mtx gives up exactly the newest mutex: first the priority is settled, ahead of equals, then the mutex is passed on |
| CallLaws.UnlockMeans | asp3_dcre/kernel/mutex.c:308-334 | after unl_mtx the first who waited owns the mutex, with E_OK, its chain longer by it and off its timer, or nobody does; no other task changes |
| CallLaws.IniMtxLaw | asp3_dcre/kernel/mutex.c:678-718 | everybody who waits is woken with E_DLT, in queue order, and the owner loses the mutex and settles |
| CallLaws.InitObjectLaw | asp3_dcre/kernel/wait.c:186-196 | everybody who waits is woken with E_DLT, in queue order |
| CallLaws.RelWaiLaw | asp3_dcre/kernel/task_sync.c:303-340 | ends the wait of exactly the task named, with E_RLWAI: off its queue and timer, runnable behind its equals or suspended |
| CallLaws.WupTskLaw | asp3_dcre/kernel/task_sync.c:206-252 | ends a sleep with E_OK, keeps one wake-up otherwise, refuses a second |
| CallLaws.WakeWaiterLaw | asp3_dcre/kernel/wait.c:80-85 | ends a wait on this object with E_OK, and no other |
| CallLaws.TimeoutLaw | asp3_dcre/kernel/wait.c:95-130 | a registered timeout ends the wait with E_TMOUT, a delay with E_OK; without one nothing happens |
| CallLaws.ActTskLaw | asp3_dcre/kernel/task_manage.c:258-301 | starts a dormant task behind its equals, queues one activation otherwise, refuses a second |
| CallLaws.SusTskLaw | asp3_dcre/kernel/task_sync.c:350-406 | when sus_tsk is refused; a runnable task leaves the precedence order, a waiting one goes on waiting |
| CallLaws.RsmTskLaw | asp3_dcre/kernel/task_sync.c:416-458 | when rsm_tsk is refused; a suspended task enters behind its equals, a waiting one goes on waiting |
| CallLaws.ChgPriLaw | asp3_dcre/kernel/task_manage.c:406-455 | E_ILUSE exactly if the new base priority is above a ceiling held or waited for; the current priority follows exactly if no ceiling mutex is held, and the task then goes behind its equals in a queue in priority order and keeps its place in any other |
| CallLaws.RotRdqLaw | asp3_dcre/kernel/sys_manage.c:164-195 | the first task of the priority named, or of the caller's base priority, goes behind the others of that priority; nobody else moves |
| CallLaws.DisDspLaw | asp3_dcre/kernel/sys_manage.c:365-381 | dis_dsp changes only the flag |
| CallLaws.EnaDspLaw | asp3_dcre/kernel/sys_manage.c:391-423 | ena_dsp ends a caller with a pending request, else changes only the flag and who runs |
| CallLaws.ChgIpmLaw | asp3_dcre/kernel/interrupt.c:447-481 | chg_ipm likewise with the mask |
| DispatchLaws.RunLaw | asp3_dcre/kernel/task.c:220-226 | after every call the head of the precedence order runs, or in a handler and while dispatching is impossible the same task as before |
| RunLaws.TimeoutAfterWait | asp3_dcre/kernel/wait.c:95-130 | a wait with a time, and then its timeout: the task is off the queue and the timer, runnable behind its equals, with E_TMOUT or after a delay E_OK; without a time nothing happens |
| RunLaws.ArrivesBehind | asp3_dcre/kernel/wait.c:141-149 | who begins to wait stands behind all who wait already, or in priority order behind all of the same or a higher priority |
| RunLaws.FifoKept | asp3_dcre/kernel/wait.h:259-265 | in a first-in first-out queue no call changes the order of two who go on waiting, not even a change of their priorities |
| RunLaws.FirstComeFirstServed | asp3_dcre/kernel/wait.c:141-149 | over any run: who waited first, with no lower priority if that counts, stays ahead as long as both wait |
| RunLaws.ActivationStep | asp3_dcre/kernel/task_manage.c:258-301 | a queued activation changes only by act_tsk and by the termination of its task, which it then starts again |
| RunLaws.ActivationsConserved | asp3_dcre/kernel/task_manage.c:258-301 | over any run the starts of a task and what is still queued are what was queued at first and what act_tsk accepted: no activation is lost and none happens twice |
| RunLaws.QueuedActivationStarts | asp3_dcre/kernel/task.c:434-437 | an activation queued by act_tsk, and whatever calls follow until the task ends: then it starts again, behind its equals, and nothing is queued any more |
| QueueLaws.EnqueueJoins | asp3_dcre/kernel/wait.c:141-149 | a newcomer goes behind its equals or ahead of them in a queue in priority order, and to the end of any other |
| EventTimes.AdvanceIsTrue | asp3_dcre/kernel/time_event.c:95-97 | within one turn of the boundary the 32-bit distance is the true one |
| EventTimes.DueTestExact | asp3_dcre/kernel/time_event.c:584-585 | an event in the past is recognised as due if and only if it lags by no more than 200,000,000 |
| EventTimes.FutureNotDue | asp3_dcre/kernel/time_event.c:584-585 | an event in the future is never taken for due |
| EventTimes.LateEventMissed | asp3_dcre/kernel/time_event.c:584-585 | one count beyond the margin an overdue event is not recognised |
| HeapOrder.MoveSlots | asp3_dcre/kernel/time_event.c:158-184 | moving a node into the hole keeps slots and back-pointers inverse to each other |
| HeapOrder.UpStep | asp3_dcre/kernel/time_event.c:158-184 | a hole moved up leaves the rest in heap order |
| HeapOrder.DownStep | asp3_dcre/kernel/time_event.c:198-234 | a hole moved to the earlier child leaves the rest in heap order |
| HeapOrder.OpenAt | asp3_dcre/kernel/time_event.c:265-316 | after an arbitrary event leaves, the last one has to move up or down and never both |
| HeapOrder.TopIsFirst | asp3_dcre/kernel/time_event.c:322-349 | no event is earlier than the one in slot 1 |
| TimeEventHeap.EventHeap.Compare | asp3_dcre/kernel/time_event.c:95-97 | comparing wrapped times relative to the boundary compares true times, for all events within reach |
| TimeEventHeap.EventHeap.Up | asp3_dcre/kernel/time_event.c:158-184 | ends at the slot where the event fits, back-pointers right |
| TimeEventHeap.EventHeap.Down | asp3_dcre/kernel/time_event.c:198-234 | ends at the slot where the event fits, back-pointers right |
| TimeEventHeap.EventHeap.Insert | asp3_dcre/kernel/time_event.c:245-259 | the pending events gain exactly this one; heap order and back-pointers kept |
| TimeEventHeap.EventHeap.Delete | asp3_dcre/kernel/time_event.c:265-316 | the pending events lose exactly this one, wherever it is, the last slot included |
| TimeEventHeap.EventHeap.DeleteTop | asp3_dcre/kernel/time_event.c:322-349 | the event returned is the earliest and exactly it is gone |
| TimeEventHeap.EventHeap.MoveBoundary | asp3_dcre/kernel/time_event.c:357-383 | a boundary moved within reach of all events keeps the heap in order |
| TimeEvents.TimeManager.constructor | asp3_dcre/kernel/time_event.c:135-144 | no event pending and both clocks at zero |
| TimeEvents.TimeManager.Reach | asp3_dcre/kernel/time_event.c:357-383 | margin, longest relative time, time step and backward adjustment together stay below 2^32: every pending event is within reach of the next boundary |
| TimeEvents.CounterAdvance | asp3_dcre/kernel/time_event.c:361-367 | the elapsed counts are recovered from two readings of the wrapping hardware counter |
| TimeEvents.WrapCounted | asp3_dcre/kernel/time_event.c:370-382 | the 32-bit clock has become smaller exactly when it wrapped, so each wrap is counted once |
| TimeEvents.TimeManager.RaiseMonotonic | asp3_dcre/kernel/time_event.c:370-382 | the monotonic clock becomes the most advanced event time and the carry goes into systim_offset, also after a backward adjustment |
| TimeEvents.TimeManager.UpdateCurrent | asp3_dcre/kernel/time_event.c:357-383 | event time advances by the counts elapsed; all clocks, the heap and the armed timer stay right |
| TimeEvents.TimeManager.SetHrtEvent | asp3_dcre/kernel/time_event.c:404-423 | the timer is set to the earliest event, or less far, at most HRTCNT_BOUND ahead |
| TimeEvents.TimeManager.Register | asp3_dcre/kernel/time_event.c:433-436 | one more pending event, at its time |
| TimeEvents.TimeManager.Enqueue | asp3_dcre/kernel/time_event.c:447-467 | the event is pending for its time from now; the timer interrupt comes no later than any pending event though it is set again only for a new top |
| TimeEvents.TimeManager.Dequeue | asp3_dcre/kernel/time_event.c:477-494 | exactly this event is gone; the timer still comes early enough |
| TimeEvents.TimeManager.CheckAdjtim | asp3_dcre/kernel/time_event.c:504-514 | refuses exactly if an event lags by a second, or the clock is a second behind its most advanced value |
| TimeEvents.TimeManager.SetTim | asp3_dcre/kernel/time_manage.c:97-113 | from now on system time is the time set plus the growth of the most advanced event time |
| TimeEvents.TimeManager.GetTim | asp3_dcre/kernel/time_manage.c:123-139 | the time set last plus the growth of the most advanced event time since, modulo 2^64: it does not decrease |
| TimeEvents.TimeManager.AdjTim | asp3_dcre/kernel/time_manage.c:149-186 | E_PAR and E_OBJ exactly when they are due; otherwise event time is shifted, the heap stays in order and the timer early enough |
| TimeEvents.TimeManager.AdjustReach | asp3_dcre/kernel/time_manage.c:160-178 | an adjustment that check_adjtim accepts leaves every pending event within reach of the boundary |
| TimeEvents.TimeManager.StartAt | asp3_dcre/kernel/cyclic.c:289-321 | started for the phase given, and if it was started before its old event is gone |
| TimeEvents.TimeManager.StopAt | asp3_dcre/kernel/cyclic.c:331-357 | not pending afterwards; nothing happens if it was stopped |
| TimeEvents.TimeManager.CallCyclic | asp3_dcre/kernel/cyclic.c:406-426 | the next call is one period after the time of this one, however late this one is |
| TimeEvents.ServeAgain | asp3_dcre/kernel/cyclic.c:406-426 | the k-th call of a cyclic notification is at first + k * period |
| TimeEvents.DueCalls | asp3_dcre/kernel/time_event.c:557-599 | a notification whose event is not due any more has been called at every one of its times that is past and at no other |
| TimeEvents.TimeManager.RunHandler | asp3_dcre/kernel/cyclic.c:406-426 | what a handler asks for takes effect, request by request |
| TimeEvents.TimeManager.FireOne | asp3_dcre/kernel/time_event.c:584-589 | one turn calls the earliest due event, registers it again if it is cyclic, lets its handler's requests take effect, and leaves no event due at that time that was not due before |
| TimeEvents.TimeManager.FireDue | asp3_dcre/kernel/time_event.c:584-589 | the inner loop ends, for any handlers that start and stop notifications, and leaves nothing due |
| TimeEvents.TimeManager.SignalTime | asp3_dcre/kernel/time_event.c:557-599 | ends; calls in non-decreasing order of time, none early; leaves no due event; calls each notification that handlers leave alone at exactly its times; the pending events after it are those before it changed callback by callback and request by request; the timer is armed afterwards |
| DataQueues.StoredAppend | asp3_dcre/kernel/dataqueue.c:200-208 | a word stored at the tail of the ring, wrapping, is appended to the contents |
| DataQueues.StoredDrop | asp3_dcre/kernel/dataqueue.c:241-249 | the word at the head of the ring is the oldest |
| DataQueues.DataQueue.EnqueueData | asp3_dcre/kernel/dataqueue.c:200-208 | appends |
| DataQueues.DataQueue.ForceEnqueueData | asp3_dcre/kernel/dataqueue.c:218-231 | appends, and loses the oldest word exactly if the buffer was full |
| DataQueues.DataQueue.DequeueData | asp3_dcre/kernel/dataqueue.c:241-249 | takes the oldest word |
| DataQueues.DataQueue.SendData | asp3_dcre/kernel/dataqueue.c:259-276 | fails exactly if nobody waits to receive and the buffer is full; a waiting receiver gets the word directly |
| DataQueues.DataQueue.SndDtq | asp3_dcre/kernel/dataqueue.c:449-485 | each outcome exactly when it is due; a word is stored, handed to the first receiver, or waits with its sender; buffer plus waiting senders is one line in sending order; senders wait only when the buffer is full, capacity 0 included, never together with receivers; refused calls change nothing |
| DataQueues.DataQueue.ForceSendData | asp3_dcre/kernel/dataqueue.c:286-298 | a waiting receiver gets the word, else it is forced into the buffer |
| DataQueues.DataQueue.FsndDtq | asp3_dcre/kernel/dataqueue.c:590-622 | as the code does: E_OK is returned even for a queue that does not exist, which is left unchanged |
| DataQueues.DataQueue.ReceiveData | asp3_dcre/kernel/dataqueue.c:308-332 | takes the first word of the line, of buffer and waiting senders together, and the first sender moves up into the buffer |
| DataQueues.DataQueue.RcvDtq | asp3_dcre/kernel/dataqueue.c:632-673 | each outcome exactly when it is due: receives the first word of the line if anything is pending, waits behind other receivers or times out only when nothing is; refused calls change nothing |
| DataQueues.DataQueue.IniDtq | asp3_dcre/kernel/dataqueue.c:777-807 | everybody who waits is released and nothing is stored |
| PriDataQueues.InsertKeepsOrder | asp3_dcre/kernel/pridataq.c:194-221 | stable priority order: behind all items of the same or higher priority, ahead of all others |
| PriDataQueues.InsertArrives | asp3_dcre/kernel/pridataq.c:211-220 | the new item, and no other, has come in: behind all of its priority, ahead of all others |
| PriDataQueues.ReceivedOne | asp3_dcre/kernel/pridataq.c:282-309 | conservation: the item received and the items left, stored or with senders, are those there were |
| PriDataQueues.TakeFree | asp3_dcre/kernel/pridataq.c:199-202 | a node of the free list moves to the live ones and live, free and unused nodes still partition the pool |
| PriDataQueues.TakeUnused | asp3_dcre/kernel/pridataq.c:203-206 | so does the node at the watermark |
| PriDataQueues.GiveBack | asp3_dcre/kernel/pridataq.c:231-244 | so does a node given back |
| LinkedChains.ChainInsert | asp3_dcre/kernel/pridataq.c:211-220 | storing through the pointer to the link inserts the node at that place of the list |
| PriDataQueues.PriDataQueue.FindPlace | asp3_dcre/kernel/pridataq.c:211-217 | the pointer-to-pointer loop stops at the place of the stable order |
| PriDataQueues.PriDataQueue.EnqueuePridata | asp3_dcre/kernel/pridataq.c:194-221 | a stable priority insertion; the pool stays partitioned and the watermark within capacity |
| PriDataQueues.PriDataQueue.DequeuePridata | asp3_dcre/kernel/pridataq.c:231-244 | takes the most urgent, oldest item; its node is free again |
| PriDataQueues.PriDataQueue.SendPridata | asp3_dcre/kernel/pridataq.c:254-272 | fails exactly if nobody waits to receive and the pool is used up |
| PriDataQueues.PriDataQueue.ReceivePridata | asp3_dcre/kernel/pridataq.c:282-309 | the most urgent item; the first waiting sender's item takes the room, or with capacity 0 goes to the receiver |
| PriDataQueues.PriDataQueue.SndPdq | asp3_dcre/kernel/pridataq.c:431-472 | each outcome exactly when it is due; the item is stored behind its equals or handed to the first receiver; senders wait only when no node is free |
| PriDataQueues.PriDataQueue.RcvPdq | asp3_dcre/kernel/pridataq.c:586-628 | one item leaves, the most urgent one; it and the items left, stored or with senders, are those there were; the first sender's item comes in behind its equals and the sender is woken; waits, or times out if polling, exactly if there is neither item nor sender |
| PriDataQueues.PriDataQueue.IniPdq | asp3_dcre/kernel/pridataq.c:733-764 | everybody who waits is released, the pool is as new |
| MemPools.OffsetTest | asp3_dcre/kernel/mempfix.c:494-500 | the offset tests accept exactly the addresses of blocks |
| MemPools.AddressDistinct | asp3_dcre/kernel/mempfix.c:182-198 | different blocks have different addresses |
| MemPools.MemPool.GetMpfBlock | asp3_dcre/kernel/mempfix.c:182-198 | the block was not allocated and now exactly it is in addition |
| MemPools.MemPool.GetMpf | asp3_dcre/kernel/mempfix.c:342-378 | each outcome exactly when it is due; a task waits, or times out if polling, exactly when no block is free |
| MemPools.MemPool.RelMpf | asp3_dcre/kernel/mempfix.c:476-524 | accepts exactly the addresses of allocated blocks; the block goes to the first waiter, else back to the pool |
| MemPools.MemPool.FreeLink | asp3_dcre/kernel/mempfix.c:494-517 | no link of the free list can be mistaken for the mark of an allocated block |
| MemPools.MemPool.IniMpf | asp3_dcre/kernel/mempfix.c:534-563 | all blocks free, everybody who waits released |
| EventFlags.FewerBits | asp3_dcre/kernel/eventflag.c:364 | clearing bits satisfies no waiter, so clr_flg need not look at the queue |
| EventFlags.ProgressStep | asp3_dcre/kernel/eventflag.c:309-323 | what one turn of set_flg's loop, which may unlink the node it stands on, does for the part walked so far |
| EventFlags.StopAtFirst | asp3_dcre/kernel/eventflag.c:309-323 | with TA_CLR the loop ends at the first satisfied waiter in queue order |
| EventFlags.Quiet | asp3_dcre/kernel/eventflag.c:309-323 | afterwards no waiter's condition holds |
| EventFlags.EventFlag.CheckFlgCond | asp3_dcre/kernel/eventflag.c:181-192 | the AND or OR condition on the pattern; the pattern is cleared exactly if it holds and TA_CLR is set |
| EventFlags.EventFlag.ReleaseSatisfied | asp3_dcre/kernel/eventflag.c:309-323 | on the real ring: exactly the satisfied waiters are unlinked, in order, each with the pattern; with TA_CLR only the first |
| EventFlags.EventFlag.SetFlg | asp3_dcre/kernel/eventflag.c:291-339 | no queued waiter's condition holds before or after; exactly the satisfied ones are released |
| EventFlags.EventFlag.ClrFlg | asp3_dcre/kernel/eventflag.c:349-372 | clears the bits, and still no waiter's condition holds |
| EventFlags.EventFlag.WaiFlg | asp3_dcre/kernel/eventflag.c:382-466 | each outcome exactly when it is due; a task waits only with a condition that does not hold |
| EventFlags.EventFlag.IniFlg | asp3_dcre/kernel/eventflag.c:535-562 | all waiters released, the initial pattern restored |
| Queues.InsertPrev | asp3_dcre/include/queue.h:90-96 | the entry stands before the given node of the ring, at the end if that is the header; the links are a ring again |
| Queues.InsertNext | asp3_dcre/include/queue.h:105-111 | the entry stands behind the given node |
| Queues.Delete | asp3_dcre/include/queue.h:119-123 | exactly this entry leaves the ring and it still points to its successor |
| Queues.DeleteNext | asp3_dcre/include/queue.h:134-143 | returns the first entry, and the ring is the rest |
| Queues.Empty | asp3_dcre/include/queue.h:151-158 | true exactly if there is only the header |
| Queues.SplicedRing | asp3_dcre/include/queue.h:90-111 | four pointer assignments turn a ring into the ring with one entry more |
| Queues.InsertTpri | asp3_dcre/kernel/wait.h:62-74 | on the real ring: behind all of the same or higher priority and ahead of all others |
| SharedArrays.UnshareSound | mruby-1.2.0/src/array.c:121-147 | giving an array a private buffer changes no array as a sequence and keeps reference counts exact |
| SharedArrays.ShareSound | mruby-1.2.0/src/array.c:157-173 | so does putting a buffer under a shared block |
| SharedArrays.AttachSound | mruby-1.2.0/src/array.c:634-647 | a view of a shared buffer is the subsequence, and one reference more is counted |
| SharedArrays.PokeSound | mruby-1.2.0/src/array.c:478-499 | the only user of a shared buffer may write into it without anybody noticing |
| SharedArrays.DroppedSound | mruby-1.2.0/src/array.c:624-631 | dropping an array frees the buffer exactly with its last user |
| SharedArrays.RewriteSound | mruby-1.2.0/src/array.c:176-199 | an array that owns its buffer may rewrite or move it without anybody noticing |
| SharedArrays.ValueMove | mruby-1.2.0/src/value_array.h:7-25 | a correct move although the stretches may overlap |
| SharedArrays.ArrayCopy | mruby-1.2.0/src/array.c:78-85 | the loop copies |
| SharedArrays.FillWithNil | mruby-1.2.0/src/array.c:111-118 | the loop fills |
| SharedArrays.Arrays.AryModify | mruby-1.2.0/src/array.c:121-147 | the same elements, in a buffer nobody else uses |
| SharedArrays.Arrays.AryMakeShared | mruby-1.2.0/src/array.c:157-173 | the same elements, in a buffer that can be shared |
| SharedArrays.Arrays.DecrefBlock | mruby-1.2.0/src/array.c:624-631 | one reference less; block and buffer go with the last |
| SharedArrays.Arrays.ExpandCapa | mruby-1.2.0/src/array.c:176-199 | room for the length asked for, or refused exactly if it exceeds the maximum |
| SharedArrays.Arrays.New | mruby-1.2.0/src/array.c:88-96 | a new array with these elements; all others unchanged |
| SharedArrays.Arrays.Push | mruby-1.2.0/src/array.c:405-414 | appends; all other arrays, sharing a buffer or not, are unchanged |
| SharedArrays.Arrays.Pop | mruby-1.2.0/src/array.c:431-437 | takes the last element; all others unchanged |
| SharedArrays.Arrays.Shift | mruby-1.2.0/src/array.c:442-471 | takes the first element, by moving the window of a shared buffer or sliding; all others unchanged |
| SharedArrays.Arrays.Unshift | mruby-1.2.0/src/array.c:478-528 | prepends, in the room before the window if the buffer has no other user; all others unchanged |
| SharedArrays.Arrays.Set | mruby-1.2.0/src/array.c:543-564 | sets an element, filling a gap with nil; all others unchanged |
| SharedArrays.Arrays.Splice | mruby-1.2.0/src/array.c:567-621 | replaces a stretch by a value or another array's elements, also one on the same buffer; all others unchanged |
| SharedArrays.Arrays.Aget | mruby-1.2.0/src/array.c:695-726 | the stretch asked for as a new array, or nothing if it starts outside |
| SharedArrays.Arrays.Subseq | mruby-1.2.0/src/array.c:634-647 | a new array that is the stretch, sharing the buffer; all others unchanged |
| SharedArrays.Arrays.Free | mruby-1.2.0/src/gc.c:734-739 | the array is gone; all others unchanged |
| SortSub.Divide | mruby-1.2.0/mrblib/enum.rb:334-347 | the loop divides the stretch into elements not above and above the key and loses none |
| SortSub.Join | mruby-1.2.0/mrblib/enum.rb:349-353 | the sorted parts with the key between them are the sorted form of the whole |
| SortSub.SortSub | mruby-1.2.0/mrblib/enum.rb:321-354 | for every total preorder: a sorted permutation of the stretch of whichever array is the source, nothing written outside the stretch in either array, and the recursion ends |
| SortSub.Sort | mruby-1.2.0/mrblib/enum.rb:366-373 | a sorted permutation of the elements |

## Left out

- CPU lock and its `E_CTX`, `TA_NOEXS` objects other than data queues, priority data queues, memory pools and event flags, access by `TSK_SELF`: uniform guards in front of what is modelled.
- Dynamic creation and deletion (`acre_*`, `del_*`): table bookkeeping; the list removal of `del_mtx` is the walk of `ini_mtx`, proved as `Kernel.Kernel.Unchain`.
- Inquiry calls (`ref_*`, `get_*` other than `get_tim`), notification parameters, trace logging: no state change.
- Semaphores: the kernel machine covers their waits as a wait on an object; the counter adds an easy member.
- Alarm notifications have no class of their own: they are the notifications with period 0 in `TimeEvents`.
- Interrupt entry and exit, context switching and the timer device are target-dependent: an interrupt is a step that sets or clears the handler flag, a dispatch assigns `p_schedtsk` to `p_runtsk`, the counter advances by an arbitrary amount between two readings.
- Each service call is one atomic step; the windows `delay_for_interrupt` opens within long loops are not modelled.
- Kernel.Kernel.ChgIpm: the mask is modelled as `TIPM_ENAALL` or not, so the range check with `E_PAR` and the other mask values are not stated.
- The bit encoding of `tstat` is a datatype, and the current priority is a table beside the task records.
- Kernel.Kernel.TaskTerminate: the state field becomes dormant before the mutexes are passed on, where the C code sets it after that; `mutex_release` reads the state of the waiter only, never that of the terminating task.
- Wait queues in the kernel machine are sequences; the ring of pointers beneath them is proved by itself in `Queues` and used as such in `EventFlags`, but one task's link is not shared between the two models.
- The kernel machine keeps the set of registered timeout blocks; their times and the heap are in `TimeEvents`.
- DataQueues.DataQueue.SndDtq: the place a priority-ordered wait queue takes the caller in is a parameter, because priorities of tasks belong to the kernel machine; the same holds for `PriDataQueues.PriDataQueue.SndPdq` and `MemPools.MemPool.GetMpf`.
- TimeEvents.TimeManager.SignalTime: assumes that the counter stands still while it runs, that `TSTEP_HRTCNT` is at least 1 and that handlers start and stop notifications but do not adjust the clock; the outer loop then runs at most twice.
- TimeEvents.TimeManager.Enqueue: the counter is read and the timer set at the same instant, so a timer set while the counter moves on is not modelled.
- The remaining time of an event block (`tmevt_lefttim`) is not modelled.
- SharedArrays.Arrays.ExpandCapa: capacities are unbounded integers, so the doubling cannot overflow as a C integer could.
- Allocation failure, garbage-collection write barriers, `ary_shrink_capa`, `resize`, `concat`, `replace`, and an array spliced into itself.
- SortSub.SortSub: the comparison is a function that is a total preorder; a block that answers nil or changes the array is not modelled.
