# A verified model of the fiber runtime and its buffers

This project models the concurrent core of the server framework and the data paths built on
it, and proves what they promise:

* **The fiber runtime as a step system** (`Runtime*.dfy`). N workers of one IOManager share a
  task queue; fibers, (fd, event) registrations, timers and hooked blocking calls move by
  steps. Every unit of work handed to the runtime is a *ticket*: the very fiber or callback
  stored, with a serial number. The invariant is proved for every step, so every theorem
  holds for every number of workers and every interleaving. User code is arbitrary: any step
  of `UserStep` may come at any time.
* **The registry, the scheduler pass and the fibers as classes** (`IOManager.dfy`,
  `Scheduler.dfy`), with epoll as a map from descriptors to masks.
* **TimerManager** (`TimerManager.dfy`): a set ordered by mutable deadlines in unsigned 64-bit
  arithmetic.
* **ByteArray** (`ByteArray.dfy`): the linked nodes and their cursor refine one flat sequence
  of bytes, `Contents()`; `Codec.dfy` and `TypedArray.dfy` put the typed writers and readers
  on top, `Stream.dfy` the socket and the fixed-size loops.
* **HTTP bodies** (`Chunked.dfy`, `HttpConnection.dfy`): the chunked and the Content-Length
  reader over arbitrary reads, with the in-place shifting buffer.
* **The log pattern parser** (`LogPattern.dfy`) and the printer it undoes.

## Results that say something is wrong or conditional

* `RuntimeRuns.TimeoutCanGetLost`: a hooked call's timer is armed before its `addEvent`
  (`src/hook.cpp:121-131`). If the timer callback runs in between, its `cancelEvent` finds
  nothing, and no later callback of the call does anything. `RuntimeTimeouts.LostIffTooEarly`:
  in every run in which the call waits on, its time-out is lost if and only if, when `addEvent`
  was called, the call was marked and no callback was on its way to `cancelEvent`. A time-out
  that is not lost ends the wait (`RingEndsWait`, `TimeoutDelivers`), a lost one never does
  (`LostForever`).
* `RuntimeRuns.TimeoutCanHitNextCall`: a callback that is past its check when the call returns
  still runs `cancelEvent` and wakes whoever has registered under the key by then
  (`src/hook.cpp:121-128`). `RuntimeCancels.OverActsIff`: a call that has returned can cause
  anything if and only if such a callback is under way and something is registered under its
  key; one that returned with `tinfo->cancelled` still 0 never does (`CallReturnsClean`,
  `GoneForever`).
* `RuntimeShutdown.NeverStops`: an entry pinned to a thread that serves it no more, or never
  did, stays in the queue in every run, and no worker whose idle fiber had not ended by then
  ever leaves, of which there is one (`SomeoneStays`); `CanBeStranded` is such a run.
  `BlockedIff` says exactly when: some step has scheduled an entry for a thread that is no
  worker or for a worker that has left or found nothing after its idle fiber ended; or such a
  worker has found nothing although an entry of its own was there, whose fiber was still
  executing. A caller can rule both out (`NeverBlocked`): it never happens in a run in which
  every schedule call asks for no thread or for a worker whose idle fiber has not ended.
* `RuntimeRuns.RecycledTooSoon`: a callback that calls `addEvent` for the fiber it runs in and
  returns before it is woken makes the state assertion of `swapIn` fail. `SafeIfWoken`: in
  every run in which no callback does so, none of these assertions fails and no fiber executes
  on two workers.
* `RuntimeOrphans.OrphanedIff`: a fiber is left in HOLD with nothing in the runtime that refers
  to it exactly if it suspends itself without a wake outstanding, or `delEvent` deletes the
  registration it waits for. Unless user code keeps a pointer, it is destroyed then, and the
  assertion of `~Fiber` (`src/fiber.cpp:84-89`) fails.
* `IOManager.IOManager.Dispatch`: the assertion in `triggerEvent` fails exactly for a report
  that names a registered event together with one deleted since the report was taken;
  `StaleReportAborts` is such a run.
* `TimerManager.TimerManager.Refresh` and `ListExpired` re-insert without looking at the
  front; a wakeup is lost exactly if nobody has been notified and a new deadline is earlier
  than the one the waiting thread saw. `ClockBackLosesWakeup` does so with a clock that went
  back. With a clock that never does, and without wrap-around, none is ever lost: that is part
  of the invariant `Valid()` of every operation, `NoWakeupLost` says what it means.
* `TypedArray.RoundTrip`: writing and reading back fails exactly for a list that ends in an
  empty string and fills the last node (`read` of no bytes then dereferences a null `m_cur`).
* `HttpConnection.ReadSize`: a chunk-size line without leading zeros yields its size if and only
  if no piece of input ends inside it, because `execute` starts over; otherwise a smaller one
  or an error (`Chunked.ScanPiece`, `Chunked.SuffixValue`).
* `HttpConnection.RecvSized`: a body is also lost when the number of bytes read from the
  stream, converted to int, is not positive.
* `LogPattern.DoublePercent` and `TextAfterField`: `%%` is not an escape, and text behind a
  directive without format comes back exactly if it begins with neither a letter nor a brace.

## Assumptions of the step system

* The end of a fiber's burst (yield, switch back and the bookkeeping after `swapIn`) is one
  step; so are `stopping(timeout)` and the size check with the resize in `addEvent`.
* `cancelAll` and the dispatch of one epoll report are taken apart into one trigger per event,
  and the callbacks of `listExpiredCb` are collected and scheduled one by one. These are
  smaller steps than the code's, so the theorems cover more interleavings.
* A fiber is scheduled, registered or put to sleep by user code only when no wake is
  outstanding for it and it is not inside a hooked call (`Wakeable`); `addEvent` is called with
  the event not registered, by a fiber on a worker; a callback does not finish while a wake of
  the fiber that hosts it is outstanding. These are conditions on the callers.
* Threads outside the workers act only before `stop`. The root fiber of `use_caller` is a
  worker like the others. Time is left out here: any armed timer may expire at any moment.
* The harvest of an epoll report and its dispatch are taken together: any registered event may
  be dispatched, and a report with several events is dispatched one event after the other. So a
  report that is older than a `delEvent` does not occur in the step system, and its abort
  (`IOManager.StaleReportAborts`) is outside `NoAssertFails` and `Replay`;
  `RuntimeRegistry.ReportAgrees` covers whole reports of any age.

## Model

| member | source | states |
|---|---|---|
| RuntimeSteps.StepKeeps | src/scheduler.cpp:156-271 | every step of user code, of a hooked call, of a worker loop or of an idle fiber keeps the invariant of the runtime |
| RuntimeSteps.InitKeeps | src/scheduler.cpp:83-98 | the invariant holds when the workers start |
| RuntimeSteps.RunKeeps | src/scheduler.cpp:156-271 | it holds after every run |
| RuntimeSteps.ReachableInv | src/scheduler.cpp:156-271 | it holds in every reachable state, for any number of workers |
| RuntimeSteps.ReachableRun | src/scheduler.cpp:156-271 | what a run reaches from a reachable state is reachable |
| RuntimeSteps.UserSchedules | src/scheduler.h:28-38 | schedule of a callback, a fiber or a new fiber keeps the invariant |
| RuntimeSteps.UserAdds | src/iomanager.cpp:105-162 | addEvent with a callback or for the current fiber keeps it |
| RuntimeSteps.UserEvents | src/iomanager.cpp:163-227 | delEvent, cancelEvent and the start of stop keep it |
| RuntimeSteps.UserTimers | src/timer.cpp:50-59 | adding, cancelling and sleeping on timers keep it |
| RuntimeSteps.UserEnds | src/fiber.cpp:193-251 | both yields and the end of a fiber, with the bookkeeping after swapIn, keep it |
| RuntimeSteps.HookKeeps | src/hook.cpp:104-154 | every step of a hooked call and of its time-out lambda keeps it |
| RuntimeSteps.LoopKeeps | src/iomanager.cpp:290-396 | every step of the worker loop and of the idle fiber keeps it |
| RuntimeSteps.CheckStoppingOk | src/iomanager.cpp:283-289 | so does the stopping check that ends an idle fiber |
| RuntimeCalls.ArmLimitedOk | src/hook.cpp:119-129 | arming the condition timer of a call keeps every fact about calls, timers and wakes |
| RuntimeCalls.RegisterCallOk | src/hook.cpp:130-131 | so does registering its fiber |
| RuntimeCalls.SwapInOk | src/hook.cpp:140-141 | so does resuming it |
| RuntimeCalls.FailCallOk | src/hook.cpp:132-138 | so does giving up after a failed addEvent |
| RuntimeCalls.DisarmCallOk | src/hook.cpp:141-143 | so does cancelling the timer after the wake |
| RuntimeCalls.NoTimerLeft | src/hook.cpp:141-143 | after timer->cancel() no timer of the call is armed |
| RuntimeCalls.CheckCallOk | src/hook.cpp:144-149 | so does the look at tinfo->cancelled: a marked call returns with ETIMEDOUT, one that is not marked is back before its system call if it retries and returns otherwise |
| RuntimeCalls.ExpireFlagOk | src/hook.cpp:121-128 | so does the time-out lambda that marks the call |
| RuntimeCalls.CancelCallOk | src/hook.cpp:127-127 | so does its cancelEvent, whatever is registered by then |
| RuntimeCalls.ResumeOk | src/hook.cpp:163-175 | so does the timer callback that schedules a sleeping fiber |
| RuntimeHistory.StepForward | src/scheduler.h:28-56 | every step moves tickets only along the stations registered/armed, collected, queued, in hand, inside/used/dropped, and loses none |
| RuntimeHistory.SentOnce | src/scheduler.h:152-160 | over any run a ticket is put into the queue at most once, and exactly once if it is past the queue at the end |
| RuntimeHistory.ExactlyOneWake | src/iomanager.cpp:44-266 | every accepted registration is, after any run, still registered under its key, deleted and never scheduled, or scheduled exactly once with the very fiber or callback stored |
| RuntimeHistory.ExactlyOneExpiry | src/timer.cpp:154-190 | a timer's callback is still armed, cancelled and never scheduled, just collected, or scheduled exactly once |
| RuntimeHistory.StepQueue | src/scheduler.cpp:175-202 | a step leaves m_fibers alone, appends one entry with the thread it asks for, or lets a worker take the first entry it may take |
| RuntimeHistory.QueuedWhileExecuting | src/scheduler.cpp:190-193 | a fiber queued while executing stays queued under every step while it executes |
| RuntimeEffects.StepEffect | src/scheduler.cpp:156-271 | the one ticket that each step issues or moves, with the very fiber or callback, the serial number and the place it is in then; no step issues or moves another |
| RuntimeEffects.DequeueTakes | src/scheduler.cpp:175-202 | the first entry neither pinned to another thread nor of an executing fiber leaves the queue for the hand of the worker and is counted; if there is none nothing changes but the point of the worker |
| RuntimeEffects.FiberTaken | src/scheduler.cpp:207-221 | a fiber taken up is swapped in exactly if it has not finished; otherwise it is dropped as it is |
| RuntimeEffects.CallbackTaken | src/scheduler.cpp:222-232 | a callback runs in the recycled fiber of the worker, or in a new one if there is none |
| RuntimeEffects.FiberYields | src/fiber.cpp:193-209 | a yield leaves HOLD, YieldToReady also puts the fiber at the back of the queue for any thread, and a recycled fiber that yields is given up |
| RuntimeEffects.FiberEnds | src/fiber.cpp:224-251 | the end of a fiber leaves TERM, EXCEPT if it threw, and a fiber that ran a callback INIT again for recycling |
| RuntimeEffects.TimersArmed | src/timer.cpp:106-123 | addTimer arms a timer of the kind asked for; sleep and hooked calls arm one-shots, a call without time-out none |
| RuntimeEffects.TimerCollected | src/timer.cpp:181-189 | a collected recurring timer stays armed, a one-shot does not; its task is handed over once |
| RuntimeEffects.StopsIff | src/iomanager.cpp:283-289 | an idle fiber ends exactly if stop was requested and queue, registrations, timers and the tasks being worked on are none |
| RuntimeEffects.LeavesIff | src/scheduler.cpp:252-268 | a worker that finds nothing leaves exactly if its idle fiber has ended, and goes idle otherwise |
| RuntimeTheorems.NoAssertFails | src/fiber.cpp:108-209 | no state assertion of reset, swapIn, the yields and the end of a fiber fails in any run, nor the EXEC check of addEvent |
| RuntimeRegistry.StepRegs | src/iomanager.cpp:105-266 | every step of the runtime changes the registrations as one call of addEvent, delEvent, cancelEvent or dispatch does, or not at all |
| RuntimeRegistry.RunCalls | src/iomanager.cpp:105-266 | the calls of a run, made one after the other, lead to the registrations of the run |
| RuntimeRegistry.Replay | src/iomanager.cpp:44-266 | class IOManager can follow every run of the runtime, in which each dispatch is of one event registered at that moment: no operation fails; the registrations, the scheduled tasks and the pending counter agree |
| RuntimeRegistry.ScheduledQueued | src/iomanager.cpp:44-57 | what the class schedules in a step is what the step puts into the queue |
| RuntimeRegistry.ReportRun | src/iomanager.cpp:347-388 | a report of registered events is dispatched by one step per event, with the same registrations left and the same tasks queued in order |
| RuntimeRegistry.ReportAgrees | src/iomanager.cpp:347-388 | any report, however old: it is those steps if it names registered events only, nothing if it names none, and aborts if it names some of either kind |
| RuntimeQueue.TakesIffEligible | src/scheduler.cpp:175-202 | a thread may take an element of m_fibers exactly if the worker may take the entry it stands for |
| RuntimeQueue.DequeueAgrees | src/scheduler.cpp:175-202 | the scan of the class takes the entry the step takes, and list, counter and fibers agree afterwards |
| RuntimeQueue.ScheduleAgrees | src/scheduler.h:152-160 | scheduleNoLock of the class appends the element of the entry the step appends |
| RuntimeClock.AddAgrees | src/timer.cpp:106-123 | addTimer of class TimerManager arms the timer that the AddTimer step arms, recurring or not |
| RuntimeClock.CancelAgrees | src/timer.cpp:50-59 | cancel takes out the timer the step takes out |
| RuntimeClock.CollectRun | src/timer.cpp:154-190 | a worker may collect any armed timers one after the other, and just the one-shots among them are gone |
| RuntimeClock.ExpireAgrees | src/timer.cpp:154-190 | listExpiredCb is such a run of steps, for the same timers in the same order, and the armed timers agree afterwards |
| RuntimeTheorems.Executing | src/fiber.cpp:128-138 | the fiber a worker is in is marked EXEC by that worker |
| RuntimeTheorems.TakenUp | src/scheduler.cpp:207-211 | the fiber of a dequeued task exists and is executing nowhere |
| RuntimeTheorems.SpareAtHead | src/scheduler.cpp:222-243 | outside swapIn the recycled cb_fiber is absent, or INIT without callback and without a wake |
| RuntimeTheorems.OneOwner | src/scheduler.cpp:207-212 | no fiber is executing on two workers |
| RuntimeTheorems.ExecutesIffOwned | src/fiber.cpp:128-146 | a fiber is EXEC if and only if some worker is inside its swapIn |
| RuntimeTheorems.HeldWhereRecorded | src/scheduler.cpp:175-251 | a ticket is in a container exactly if it was last moved there |
| RuntimeTheorems.Conservation | src/scheduler.cpp:175-251 | every ticket ever issued is in exactly one container or retired and in none, nothing else is in any, and the queue lists nothing twice |
| RuntimeTheorems.Bookkeeping | src/iomanager.cpp:143-266 | per (fd, event): accepted adds = triggers + deletions + 1 if registered |
| RuntimeTheorems.Counters | src/scheduler.cpp:196-263 | m_activeThreadCount counts the workers between dequeue and decrement, m_idleThreadCount those inside the idle fiber |
| RuntimeTheorems.OneWake | src/iomanager.cpp:149-160 | at most one ticket in the runtime can still resume a given fiber |
| RuntimeTheorems.Drained | src/scheduler.cpp:100-153 | when all workers have left run, queue, registrations and timers are empty, both counters are 0, and every ticket is retired or inside a suspended callback |
| RuntimeTheorems.LeavesOnlyWhenStopped | src/scheduler.cpp:76-80 | a worker has left only if stop was requested |
| RuntimeTheorems.NoWorkerStuck | src/scheduler.cpp:167-268 | every worker that has not left has an enabled step of its own |
| RuntimeTimeouts.CallReturnsClean | src/hook.cpp:104-154 | when a hooked call returns it has no armed timer, no registration or other ticket can resume its fiber, it was resumed once per registration, ETIMEDOUT means an own timer expired, and if it is not marked nothing of it can act any more |
| RuntimeTimeouts.CallBegins | src/hook.cpp:104-108 | a new call is the one asked for, unmarked, without timer, about to issue its system call |
| RuntimeTimeouts.CallEndsIff | src/hook.cpp:107-153 | a step ends a call if and only if it is its own system call not blocking, its failure branch, or its check after a wake with the call marked or not retrying |
| RuntimeTimeouts.CallStepsOn | src/hook.cpp:107-149 | every other step of the call takes it to the next of its points, or suspends it |
| RuntimeTimeouts.Retries | src/hook.cpp:139-149 | after a wake without time-out a retrying call is alive and about to issue its system call again, which may return or block |
| RuntimeTimeouts.CallOver | src/hook.cpp:141-153 | of a call that is over no timer is ever armed, and its counts of registrations and resumptions agree |
| RuntimeTimeouts.SuspendedCall | src/hook.cpp:139-141 | a suspended call waits for exactly one ticket: registered, on its way, or deleted by somebody |
| RuntimeCancels.StepCancels | src/hook.cpp:121-128 | a lambda comes to its cancelEvent only through the check that marks the call, and leaves that point only by cancelling |
| RuntimeCancels.StepCall | src/hook.cpp:104-154 | under every step a call keeps its key, fiber, kind and whether it retries, ends exactly with a step that gives control back, and is marked exactly by the check of its own lambda |
| RuntimeCancels.OverActsIff | src/hook.cpp:121-128 | a call that has returned can still act if and only if a cancelEvent of it is under way and its key is registered, and then triggers just that registration |
| RuntimeCancels.GoneStays | src/hook.cpp:121-128 | a returned call with no cancelEvent under way stays so under every step, and its lambdas change nothing |
| RuntimeCancels.GoneForever | src/hook.cpp:121-128 | the same over runs of any length |
| RuntimeRuns.TimeoutCanHitNextCall | src/hook.cpp:121-128 | a concrete run: the lambda of a call that returned with ETIMEDOUT wakes the next call on the same descriptor, which has no time-out |
| RuntimeTimeouts.TimeoutDelivers | src/hook.cpp:126-127 | a time-out under way puts the waiting call's registration into the queue |
| RuntimeTimeouts.UnmarkedRings | src/hook.cpp:119-131 | a waiting call that is not marked still has its time-out on the way to the check |
| RuntimeTimeouts.RingEndsWait | src/hook.cpp:121-128 | the check of a waiting unmarked call is followed by its cancelEvent, and that ends the wait |
| RuntimeTimeouts.LostAtAdd | src/hook.cpp:119-131 | at addEvent the time-out is lost if and only if the call is marked and no cancelEvent of it is under way |
| RuntimeTimeouts.LostUnchanged | src/hook.cpp:119-131 | while the call waits, no step loses its time-out or brings it back |
| RuntimeTimeouts.LostIffTooEarly | src/hook.cpp:119-131 | so in every run in which the call waits on, its time-out is lost if and only if it was at addEvent |
| RuntimeTimeouts.StepRegKept | src/iomanager.cpp:163-266 | only dispatch, delEvent and cancelEvent on the key end a registration |
| RuntimeTimeouts.LostStays | src/hook.cpp:121-131 | a lost time-out stays lost under every step that does not trigger or delete the key, and the call does not change |
| RuntimeTimeouts.LostForever | src/hook.cpp:121-131 | so the call sleeps on in every run in which nobody else triggers or deletes the key |
| RuntimeRuns.TimeoutCanGetLost | src/hook.cpp:119-141 | such a state is reachable: a concrete run of two workers |
| RuntimeRuns.RecycledTooSoon | src/scheduler.cpp:222-243 | a run in which a callback finishes while a wake of its fiber is outstanding: the recycled cb_fiber executes while another worker takes up the old wake |
| RuntimeRuns.SafeIfWoken | src/fiber.cpp:128-138 | in every run in which no callback finishes while a wake of its fiber is outstanding, no state assertion fails and no fiber executes on two workers |
| RuntimeOrphans.HeldFiberReferenced | src/fiber.cpp:84-89 | the runtime refers to a suspended fiber if and only if a wake of it is outstanding |
| RuntimeOrphans.OrphanedIff | src/fiber.cpp:84-89 | a fiber is left suspended and unreferenced exactly by suspending itself without an outstanding wake, or by the deletion of the registration it waits for |
| RuntimeShutdown.StepWorker | src/scheduler.cpp:167-268 | a worker that has left or found nothing after its idle fiber ended stays so, it gets there only by finding nothing, and an idle fiber ends only when stopping holds |
| RuntimeShutdown.StrandedStays | src/scheduler.cpp:175-190 | no step takes an entry pinned to no worker or to one that has left or is about to, nor lets another idle fiber end |
| RuntimeShutdown.NeverStops | src/scheduler.cpp:76-80 | so in every run the entry stays and the workers still inside never leave |
| RuntimeShutdown.SomeoneStays | src/scheduler.cpp:76-80 | and there is such a worker |
| RuntimeShutdown.BlockedStep | src/scheduler.cpp:175-202 | after a step an entry is stranded if and only if one was before or the step strands one |
| RuntimeShutdown.BlockedIff | src/scheduler.cpp:167-268 | in every run an entry is stranded in the end if and only if some step has stranded one |
| RuntimeShutdown.ServedStep | src/scheduler.cpp:175-202 | while schedule calls ask only for workers whose idle fiber has not ended, every entry of the queue is pinned to such a worker or to none |
| RuntimeShutdown.NeverBlocked | src/scheduler.h:28-38 | so in every run of such calls nothing is ever stranded |
| RuntimeShutdown.CanBeStranded | src/scheduler.cpp:175-190 | it happens: a concrete run of two workers |
| IOManager.FdContext.Trigger | src/iomanager.cpp:44-57 | the stored task comes out, bit and context are cleared, the other event is untouched |
| IOManager.IOManager.constructor | src/iomanager.cpp:58-80 | 32 empty contexts, nothing registered |
| IOManager.IOManager.ContextResize | src/iomanager.cpp:94-103 | the contexts below the size stay, new ones are empty and agree with the registry; a smaller size cuts contexts off |
| IOManager.IOManager.AddEvent | src/iomanager.cpp:105-162 | fails exactly if the kernel refuses for a reason of its own (ADD/MOD is always legal), else registers exactly this task; registry coherence is kept |
| IOManager.IOManager.DelEvent | src/iomanager.cpp:163-195 | succeeds exactly on a registered event the kernel does not refuse; the task is forgotten, nothing is scheduled |
| IOManager.IOManager.CancelEvent | src/iomanager.cpp:196-227 | succeeds under the same condition; exactly that task is scheduled |
| IOManager.IOManager.CancelAll | src/iomanager.cpp:228-266 | removes all registrations of the descriptor and no other and schedules their tasks, READ first; its final assertion holds |
| IOManager.IOManager.TriggerAll | src/iomanager.cpp:379-387 | completes exactly if all events named are registered, and then schedules and clears exactly those |
| IOManager.IOManager.Dispatch | src/iomanager.cpp:347-388 | aborts if and only if a live report names an event not registered any more; otherwise an error or hang-up removes every registration of the descriptor and queues all its tasks, READ first, a report without one does so for exactly the reported events, and the kernel keeps the rest |
| IOManager.StaleReportAborts | src/iomanager.cpp:347-388 | a report taken before a delEvent and dispatched after it aborts |
| IOManager.MirrorsAdd | src/iomanager.cpp:128-147 | the kernel's masks equal the registry after ADD or MOD |
| IOManager.MirrorsDrop | src/iomanager.cpp:174-190 | the same after MOD or DEL for one event |
| IOManager.MirrorsRemove | src/iomanager.cpp:365-376 | the same after removing several events at once |
| Scheduler.Fiber.SwapIn | src/fiber.cpp:128-251 | the state left behind is the one of the way control came back; only a normal return clears the callback |
| Scheduler.Scheduler.ScheduleNoLock | src/scheduler.h:152-160 | an entry with a fiber or callback goes to the back, an empty one is dropped; tickle exactly if the list was empty |
| Scheduler.Scheduler.Dequeue | src/scheduler.cpp:175-202 | the first entry the thread may take leaves the list and is counted, the others keep their order; tickle exactly if an entry pinned elsewhere was passed or one is left behind |
| Scheduler.Scheduler.RunTask | src/scheduler.cpp:207-251 | one pass for a fiber or callback: what is rescheduled, held, dropped or recycled, and the next cb_fiber is null or INIT without callback |
| TimerManager.StrictTotalOrder | src/timer.cpp:14-32 | the comparator is a strict total order on timers and null: null first, then by deadline, then by address |
| TimerManager.Found | src/timer.cpp:50-97 | in a sorted set find hits every timer at its place |
| TimerManager.InsertedSorted | src/timer.cpp:113-114 | insertion keeps the set sorted |
| TimerManager.RemovedElems | src/timer.cpp:54-55 | erasing removes exactly that timer and keeps the order |
| TimerManager.TimerManager.AtMostOnce | src/timer.cpp:154-190 | a one-shot is collected at most once, a cancelled timer never again, and the callback is set exactly while the timer is in the set |
| TimerManager.TimerManager.NoWakeupLost | src/timer.cpp:113-152 | with a clock that never went back and no wrap-around, after any operations: the waiting thread has been notified since it looked, or no timer is due before the deadline it saw; and no time read is taken for a clock set back |
| TimerManager.TimerManager.SetDeadline | src/timer.cpp:61-99 | m_next is assigned only to a timer outside the set, so the order survives |
| TimerManager.PlusMinusModulo | src/timer.cpp:61-99 | adding a period and taking it off a deadline are exact modulo 2^64 and undo each other |
| TimerManager.TimerManager.Insert | src/timer.cpp:113-123 | adds exactly this timer and never loses a wakeup; notified if it came to the front |
| TimerManager.TimerManager.AddTimer | src/timer.cpp:106-123 | the new timer is in the set with deadline now + ms modulo 2^64 |
| TimerManager.TimerManager.Cancel | src/timer.cpp:50-59 | true exactly if the timer had its callback; afterwards it has none and is not in the set |
| TimerManager.TimerManager.Refresh | src/timer.cpp:61-74 | deadline now + ms; a wakeup is lost exactly if nobody was notified and the new deadline is before the one seen, and never with a clock that does not go back and no wrap-around |
| TimerManager.TimerManager.Reset | src/timer.cpp:76-99 | when it acts, when it only reports success, the new period and deadline; never loses a wakeup |
| TimerManager.TimerManager.GetTimerNext | src/timer.cpp:139-152 | the time to the earliest deadline, 0 if due, the maximum if none; restarts the promise of a wakeup |
| TimerManager.TimerManager.DetectClockRollover | src/timer.cpp:192-199 | true exactly for a step back of more than 3600000 ms, or any step back within the first hour |
| TimerManager.TimerManager.ListExpired | src/timer.cpp:154-190 | collects, in deadline order, exactly the timers due (all if the clock was set back), re-arms the recurring ones one period from now, drops one-shots, touches no other; exactly when a wakeup is lost, and never with a clock that does not go back and no wrap-around |
| TimerManager.TimerManager.ExpiredMeans | src/timer.cpp:154-190 | timer by timer: a collected one-shot is out for good, a collected recurring timer is in again with a deadline of now plus its period modulo 2^64, any other timer is as it was |
| TimerManager.TimerManager.ExpiredEnd | src/timer.cpp:168-175 | lower_bound with any probe address and the loop after it cut the set exactly behind the timers due |
| TimerManager.TimerManager.ReArmedOnTime | src/timer.cpp:181-189 | without wrap-around and set-back clock re-arming loses no wakeup |
| TimerManager.TookEach | src/timer.cpp:181-182 | the callbacks delivered are those of the collected timers, position by position |
| TimerManager.OnTimeEach | src/timer.cpp:183-186 | the lost-wakeup condition, timer by timer |
| TimerManager.ClockBackLosesWakeup | src/timer.cpp:61-74 | refresh after a clock set back loses a wakeup |
| ByteArray.ByteArray.CursorNode | src/bytearray.h:173-180 | m_cur is node position / baseSize, null exactly at the capacity |
| ByteArray.ByteArray.AddCapacity | src/bytearray.cpp:499-528 | room for n bytes with the least number of new nodes; contents unchanged, cursor off null |
| ByteArray.ByteArray.Write | src/bytearray.cpp:349-379 | the bytes before the position and behind the bytes written are the old ones, those between are the bytes written, at any node size |
| ByteArray.PatchMeans | src/bytearray.cpp:349-379 | overwriting at a position: the length, what is before, between and behind |
| ByteArray.ByteArray.Read | src/bytearray.cpp:381-409 | out_of_range exactly past the size and without effect, a null m_cur exactly for no bytes at the capacity, else the bytes behind the position |
| ByteArray.ByteArray.SetPosition | src/bytearray.cpp:441-457 | any position up to the capacity; past the size it extends, old contents stay |
| ByteArray.ByteArray.Clear | src/bytearray.cpp:335-347 | one node, no contents |
| ByteArray.ByteArray.ToString | src/bytearray.cpp:530-538 | exactly the unread bytes, cursor unmoved |
| ByteArray.ByteArray.ReadConst | src/bytearray.cpp:411-439 | the const read, started at the cursor as toString does, gives exactly those bytes |
| ByteArray.FlatStore | src/bytearray.cpp:358-371 | storing in one node changes exactly one stretch of the flat bytes |
| ByteArray.FlatRead | src/bytearray.cpp:389-402 | a stretch inside a node is a stretch of the flat bytes |
| ByteArray.ByteArray.SpanListShows | src/bytearray.cpp:555-651 | the spans, concatenated, are exactly the bytes asked for |
| ByteArray.ByteArray.SpanListDisjoint | src/bytearray.cpp:555-651 | no two spans overlap |
| ByteArray.ByteArray.GetReadBuffers | src/bytearray.cpp:555-584 | disjoint spans showing the next min(len, unread) bytes |
| ByteArray.ByteArray.GetReadBuffersAt | src/bytearray.cpp:586-621 | the same from any position: the contents where they reach, else bytes of the capacity not written yet, and a null pointer exactly past the capacity |
| ByteArray.ByteArray.GetWriteBuffers | src/bytearray.cpp:623-651 | disjoint spans over the next len bytes of capacity; contents and position unchanged |
| ByteArray.ByteArray.Fill | src/socket_stream.cpp:35-47 | filling the first bytes of the write spans and advancing is the same as writing those bytes |
| Stream.ReadInto | src/socket_stream.cpp:35-47 | the effect of read(ByteArray) is that of one write of the bytes received |
| Stream.WriteFrom | src/socket_stream.cpp:57-68 | the peer gets the next unread bytes in order and the position moves behind them |
| Stream.ReadFixSize | src/stream.cpp:11-23 | for any sizes of single reads: all `length` bytes in order; fewer exactly if the stream ended or the peer refused once; a steady peer delivers all it has |
| Stream.ReadFixSizeInto | src/stream.cpp:25-36 | the same into a ByteArray, as one write of the bytes that arrived |
| Stream.WriteFixSize | src/stream.cpp:38-50 | the peer has taken exactly the buffer, or refused once after a prefix; a steady peer takes all |
| Stream.WriteFixSizeFrom | src/stream.cpp:53-63 | the same for the unread bytes of a ByteArray |
| Stream.ToIntExact | src/stream.cpp:22-22 | the int returned equals the length exactly below 2^31; else it is congruent to it modulo 2^32 |
| Codec.HostIndependent | src/endian.h:32-54 | swapping twice is the identity, and swapping when the orders differ stores the bytes in the array's order on every host |
| Codec.HostIndependentRead | src/bytearray.cpp:202-254 | the readers see the number in the array's order on every host |
| Codec.FixedRoundTrip | src/bytearray.cpp:62-103 | fixed-width numbers come back in both orders |
| Codec.FixedDecodes | src/bytearray.cpp:190-254 | signed and unsigned fixed-width values decode from their bytes, whatever follows |
| Codec.FixedByte | src/endian.h:32-54 | the k-th byte, from the end that the order names, is the k-th digit of the number in base 256 |
| Codec.EncodedByte | src/bytearray.cpp:62-103 | the same for any integer of any width, negative ones as two's complement |
| Codec.RangesAre | src/bytearray.cpp:62-103 | what fits the types of 8, 16, 32 and 64 bits, signed or not |
| Codec.WrapIsModulo | src/bytearray.cpp:105-119 | the wrap-around used is reduction modulo 2^bits |
| Codec.WrapRoundTrip | src/bytearray.cpp:202-254 | two's complement goes both ways |
| Codec.ZigZagRoundTrip | src/bytearray.cpp:105-127 | zigzag maps every signed value, the most negative included, to 2v or -2v-1, and decoding undoes it |
| Codec.UnZigZagRoundTrip | src/bytearray.cpp:105-127 | every unsigned value is the zigzag of its decoding: a bijection |
| Codec.VarintRoundTrip | src/bytearray.cpp:260-290 | the readers' loop undoes the writers and consumes exactly those bytes |
| Codec.VarDecodes | src/bytearray.cpp:256-290 | the same for all four varint types |
| Codec.VarintWidths | src/bytearray.cpp:133-157 | at most 5 bytes for 32 bits, 10 for 64 |
| Codec.VarintByte | src/bytearray.cpp:133-157 | the k-th byte is the k-th digit in base 128 with the top bit set on all but the last, which is not zero unless it is the only one |
| Codec.VarintComplete | src/bytearray.cpp:133-157 | only the last byte of an encoding is below 128, and it stands for the number (unsigned LEB128, section 7.6 of DWARF 4) |
| Codec.VarintMinimal | src/bytearray.cpp:133-157 | no other encoding of the number is shorter |
| Codec.PrefixFree | src/bytearray.cpp:133-157 | no encoding is a proper prefix of another |
| TypedArray.WriteFixed | src/bytearray.cpp:62-103 | writes the bytes of the value in the array's order, on any host |
| TypedArray.Groups | src/bytearray.cpp:133-157 | the loop produces the varint and never outgrows its buffer |
| TypedArray.WriteText | src/bytearray.cpp:171-186 | writes the length in 2, 4 or 8 bytes or as a varint, cut to that width, and all bytes of the string, however long |
| Codec.PrefixByte | src/bytearray.cpp:171-186 | the prefix has 2, 4 or 8 bytes, and byte k from the end that the order names is digit k in base 256 of the length modulo 2^16, 2^32 or 2^64; the fourth kind is the varint of the length |
| Codec.TextFits | src/bytearray.cpp:171-186 | the string lengths for which nothing is cut |
| Codec.LengthDecodes | src/bytearray.cpp:306-333 | a length comes back modulo 2^16, 2^32 or 2^64 by the width of its prefix, so a string that is too long is cut |
| TypedArray.ReadFixed | src/bytearray.cpp:190-254 | decodes the next bytes, or throws without effect |
| TypedArray.ReadUint | src/bytearray.cpp:260-290 | on any bytes: the number of the groups up to the first byte below 128 or the full width, within its width; or out_of_range with everything consumed |
| TypedArray.ReadText | src/bytearray.cpp:306-333 | on any bytes: the string its prefix announces, or out_of_range exactly when prefix or string are cut off, or null dereferenced exactly for an empty one at the capacity |
| TypedArray.ReadAll | src/bytearray.cpp:190-333 | the matching readers return the list and leave nothing to read, or fault exactly in that case |
| TypedArray.RoundTrip | src/bytearray.cpp:62-333 | for every list of values, node size, byte order and pair of hosts the list comes back, unless it ends in an empty string and its bytes are a multiple of the node size |
| Chunked.ScanWhole | src/http/httpclient_parser.rl.cc:122-294 | a whole size line is consumed, nothing more, and yields the value of its digits |
| Chunked.ScanPart | src/http/httpclient_parser.rl.cc:122-294 | a proper part of a line is consumed and finishes nothing |
| Chunked.HexRoundTrip | src/http/httpclient_parser.rl.cc:158-169 | the canonical lower-case size text has the value of its number |
| Chunked.HexMeansNumeral | src/http/httpclient_parser.rl.cc:158-169 | a text of digits in lower case, upper case or both mixed, taken from a table of the 22 characters, has the value of the digits times powers of 16 |
| Chunked.HexMeans | src/http/httpclient_parser.rl.cc:122-135 | the digits of a size are exactly those 22 characters |
| Chunked.SizeMeans | src/http/httpclient_parser.rl.cc:164-164 | the int stored is the number if it is below 2^31, its low 32 bits below 2^63, and -1 above, where strtol saturates |
| Chunked.ScanRejects | src/http/httpclient_parser.rl.cc:122-294 | a line that begins with no digit, a byte that may not follow the digits and a CR without LF are errors, at exactly that byte |
| Chunked.ScanPiece | src/http/http_parser.cpp:247-255 | what one execute makes of a piece of a size line after earlier pieces: the rest of the digits is taken for the whole, a piece behind the digits is an error |
| Chunked.SuffixValue | src/http/httpclient_parser.rl.cc:158-169 | digits without the first k have the same value if and only if those are zeros, else a smaller one |
| HttpConnection.Parser.Execute | src/http/http_parser.cpp:247-255 | starts over, stops where the machine stops, and moves the rest to the front |
| HttpConnection.ReadSize | src/http/http_connection.cpp:71-96 | with a size line ahead the digits from the last cut on are its size and exactly the line is consumed; without leading zeros the size is right if and only if no piece of input ends inside the line; with none it fails only if the peer refuses |
| HttpConnection.TakeChunk | src/http/http_connection.cpp:100-119 | exactly content_len bytes go to the body and two more are skipped, from the buffer or by any number of reads; it fails only if the stream is too short or the peer refuses |
| HttpConnection.RecvChunked | src/http/http_connection.cpp:67-119 | if neither the header buffer nor a read ends inside a size line, the body is the concatenation of the chunks and the bytes after it are untouched, exactly unless the peer refuses a read, which a steady peer never does (section 7.1 of RFC 9112) |
| HttpConnection.InLineMeans | src/http/http_connection.cpp:71-96 | a position is inside a size line exactly if it lies behind the end of some chunks by less than the length of the next line |
| HttpConnection.OneChunk | src/http/http_connection.cpp:67-119 | one body byte by byte: fourteen bytes on the wire, four bytes of body |
| HttpConnection.RecvSized | src/http/http_session.cpp:56-77 | a delivered body is exactly the first Content-Length bytes of buffer and stream; exactly when none is delivered; below 2^31 bytes from the stream a steady peer's body always is (section 6.2 of RFC 9112) |
| LogPattern.LogFormatter.ScanDirective | src/logger.cpp:404-442 | the inner loop with its status flags ends at the same place with the same name and format as the grammar of directives |
| LogPattern.LogFormatter.Init | src/logger.cpp:386-486 | init terminates on every pattern; its items are those of the parsed elements one by one (`ItemMeans`), and the error flag is set exactly for an unclosed format or an unknown directive |
| LogPattern.ItemMeans | src/logger.cpp:473-486 | text is kept as it is, each of the twelve letters becomes its directive with its format, any other name an error text, an unclosed format the pattern error |
| LogPattern.Build | src/logger.cpp:386-486 | the formatter of a printed list has the items meant: adjacent literals merged into exactly their text, every field the directive of its letter with its format or an error text, and error exactly if there is a field that is none of the twelve |
| LogPattern.ItemsOneByOne | src/logger.cpp:473-486 | for a list without adjacent or empty literals those items correspond to the parts position by position |
| LogPattern.PrintableMeans | src/logger.cpp:386-457 | exactly which lists these are, part by part |
| LogPattern.UnclosedFormat | src/logger.cpp:450-455 | a format that is never closed gives the pattern error, and everything behind the percent sign is text again |
| LogPattern.ParseOfPrint | src/logger.cpp:386-457 | parsing undoes printing from any point of a pattern on |
| LogPattern.RoundTrip | src/logger.cpp:386-457 | a printed list of literals and directives comes back with adjacent literals merged |
| LogPattern.TextAfterField | src/logger.cpp:412-416 | text behind a directive without format comes back if and only if it begins with neither a letter nor a brace |
| LogPattern.DoublePercent | src/logger.cpp:397-403 | the second of two percent signs is scanned again as the beginning of what follows, for every rest of the pattern |
| LogPattern.DoublePercentWord | src/logger.cpp:397-416 | so a word behind it is taken for a directive |

## Left out

- ucontext switching, stacks, thread start-up, pipes, logging, `dlsym`: foreign calls; a fiber's code is any sequence of steps.
- Memory order and the mutexes: every critical section is one step or part of one.
- Fairness: nothing says that a step that stays enabled is taken; `RuntimeTheorems.NoWorkerStuck` says that there is one.
- The hooked calls, src/hook.cpp, in imperative form: they are a protocol between a fiber, a timer and the registry, so their program points are steps of the runtime; the branches before the first system call (hook disabled, not a socket, closed) and the values of errno other than ETIMEDOUT are not modelled.
- IOManager.IOManager.AddEvent: `Scheduler::GetThis()` non-null and the state of the current fiber are taken from the caller; negative descriptors are not modelled.
- IOManager.IOManager.TriggerAll: after an abort nothing is said about the state, as the process is gone.
- Scheduler.Fiber.SwapIn: how control comes back is up to the code of the fiber, so it is a parameter.
- Scheduler.Scheduler.RunTask: what the burst itself and other threads do to the list meanwhile is the matter of the step system.
- IOManager.IOManager.ContextResize: what is lost with contexts cut off by a smaller size is not followed further; the size check and the resize are one step here.
- Timers with an empty `std::function`: the callback is never null when a timer is made.
- ByteArray.ByteArray.AddCapacity: the number of nodes is an integer ceiling, where the source computes it in floating point; they agree for sizes below 2^53.
- TypedArray.ReadText: a string too long to allocate is not modelled.
- `writeToFile`, `readFromFile`, `toHexString`, `isLittleEndian`, floats as bit copies: file I/O, formatting and simple casts.
- HttpConnection.RecvChunked: chunk extensions and the header states of the machine end in `NotModelled`; headers are taken as already parsed. A negative or overflowing size ends in `LengthError` or `Overrun`, where `std::string` throws or reads past its input.
- HttpConnection.RecvSized: an allocation that fails is not modelled.
- The generated header machines, URI parsing, servlets, address arithmetic, configuration, YAML, MySQL and daemon code: simple maps and generated tables that would only add easy members.
