# Verification model of a coroutine server framework

This project models the hard core of a C++ coroutine server framework and proves properties of the model:

- **The runtime** (`Protocol`, `WakeTokens`, `WakeSteps`, `WakeRuns`, `RunInvariants`, `RunResults`,
  `RunWitnesses`, `HookEffects`, `TimeoutRuns`): N workers in `Scheduler::Run`, their idle fibers in `IOManager::Idle`, application fibers and callbacks, the hooked blocking calls
  (`sleep`, `do_io`, `connect`, `close`), timers and epoll, as one step machine. A step is one critical section, one
  Resume, one Yield or one access of an atomic counter. A failed ASSERT halts the run. The main result counts, for every
  fiber, the places that will wake it: exactly one while it is suspended, none otherwise, in every reachable state.
- **The base scheduler** (`Scheduler`): the queue as a class, and the shutdown protocol of N workers as a step machine.
- **Event registration** (`IoManager` on values, `IoEffects` field by field, `IoManagerObject` as classes updated in
  place): the ledger of registered events and its agreement with the kernel's interest list.
- **Control transfer** (`FiberSwitch`): saved contexts and `swapcontext`, proved to be call and return on one stack per
  thread.
- **The timer manager** (`Timers` on values, `TimerObject` as a class, `TimerRuns` for whole runs, `TimerEffects`
  field by field).
- **The byte array** (`Blocks`, `ByteArrays`, `FlatBuffer`): a linked list of fixed-size blocks that behaves as one flat
  buffer, and its scatter views.
- **The codec** (`Codec`, `Wire`, `WireFormat`, `Messages`): byte order, varints, zigzag, strings, the bytes on the wire,
  and the message round trip through the blocks.
- **Percent-encoding** (`Url`) and **the nonblocking flag** of hooked sockets (`FdFlags`).

Conventions. Where the source mutates an object, a class does, and each method is proved to change the abstract value
(`View()`, or the ghost fields `nodes` and `flat`) as a specification function says; the lemmas are about those functions.
Clock readings, the outcome of `epoll_ctl` and of `fcntl`, what `epoll_wait` reports and the machine's byte order are
parameters. `hide` statements only keep definitions out of a proof that does not need them. Fibers, timers and callbacks are
named by numbers; a callback is named by what it does when it is called. Words of flags are sets of bit numbers.

Where the code and its surroundings disagree, the model follows the code: `=` is left unescaped by `UrlEncode`, unlike
section 2.3 of RFC 3986; the idle loop triggers `real_events` without masking them (`RunWitnesses.StaleReadinessAsserts`);
`DelEvent` on a descriptor that a fiber waits for strands that fiber (`RunResults.LostStaysSuspended`); a failed `F_SETFL`
still changes the flag that `F_GETFL` shows (`FdFlags.ShownIsPlain`); a string whose length does not fit its prefix is written
in full behind a truncated length (`Wire.TextReadsBack`); reading an empty string at the end of the last block dereferences a
null cursor (`Messages.RoundTrip`).

## Model

| member | source | states |
|---|---|---|
| `RunInvariants.EveryRunKeepsInv` | serverframework/fiber/scheduler.cc:138-219 | For any number of workers, with outside submitters and failing epoll_ctl calls, every legal run keeps the whole invariant: one wake source per suspended fiber, exact counters, ledger and kernel agreement, one worker per running fiber |
| `RunResults.OneWakeSource` | serverframework/net/hook.cc:106-152 | In every reachable state a fiber committed to suspend has exactly one wake source (event context, timer, popped callback, running wake callback, queue entry or the worker about to resume it) and any other fiber none; both directions |
| `RunResults.ResumeNeverAsserts` | serverframework/fiber/fiber.cc:145-148 | In every reachable state the assertion of Resume holds for the task a worker took, and no two workers run or hold the same fiber |
| `RunResults.OneDispatchPerSuspension` | serverframework/net/hook.cc:159-173 | In every reachable state a fiber has been dispatched exactly once for each suspension it has left; READY means suspended, TERM means nothing is owed |
| `RunResults.LedgerInEveryRun` | serverframework/net/iomanager.cc:154-331 | In every run pending_event_count_ equals the number of set event bits and is never negative; a bit is set exactly when its context holds one of callback and fiber; adds equal triggers plus deletes plus pending |
| `RunResults.KernelInEveryRun` | serverframework/net/iomanager.cc:178-198 | In every run the kernel's interest list equals the registered events on a descriptor if and only if it was not closed while an event was registered on it; one that was has bits set and no kernel entry |
| `RunResults.LosesAgreement` | serverframework/net/hook.cc:361-376 | Over every step of the runtime: agreement on a descriptor ends if and only if the step closes it while an event is registered on it, and it never comes back |
| `RunResults.CountersInEveryRun` | serverframework/fiber/scheduler.cc:177-215 | active_thread_count_ and idle_thread_count_ equal the number of workers in those phases, in every run |
| `RunResults.LosesWakeSource` | serverframework/net/iomanager.cc:214-251 | Over every step of the runtime: a fiber that stays suspended loses its only wake source if and only if the step is a DelEvent of an event that is registered and held by it, on a descriptor not closed while registered, and epoll_ctl does not fail |
| `RunResults.AllHeldExactly` | serverframework/net/iomanager.cc:214-251 | In every run, every suspended fiber has a wake source if and only if no DelEvent of the run took a fiber's registration away |
| `RunResults.LostStaysSuspended` | serverframework/net/iomanager.cc:214-251 | A fiber stranded by DelEvent is never dispatched again, whatever happens later |
| `RunResults.OneWorkerSnapshot` | serverframework/net/iomanager.cc:356-361 | With one worker and no submission after Stop, the three reads of Stopping are one snapshot, and what they saw stays true |
| `RunResults.OneWorkerLeavesNothing` | serverframework/net/iomanager.cc:356-383 | When the only worker leaves Run: queue empty, no timer armed, no event registered; a fiber has finished if and only if DelEvent did not strand it, and all have if and only if no DelEvent of the run took a fiber's registration away |
| `RunResults.OneWorkerNeverAsserts` | serverframework/net/iomanager.cc:424-468 | With one worker, each descriptor reported at most once per epoll_wait, and no removal of events by other threads, TriggerEvent's ASSERT never fails in the idle loop: every report that is due can be handled, whatever epoll_ctl does |
| `RunResults.ForeignSchedule` | serverframework/fiber/scheduler.h:63-74 | Scheduling a fiber by hand leaves it suspended with exactly one wake source if and only if DelEvent had stranded it; no other fiber is touched |
| `RunResults.YieldNeedsCommit` | serverframework/fiber/fiber.cc:164-180 | A fiber that yields has a wake source afterwards if and only if it had committed to suspend and was not stranded meanwhile |
| `RunWitnesses.ExitIsReachable` | serverframework/fiber/scheduler.cc:206-216 | There is a legal run in which the only worker leaves Run |
| `RunWitnesses.ExitCanStrand` | serverframework/net/iomanager.cc:214-251 | There is a legal run in which the only worker leaves Run while a fiber is still suspended in a hooked read, because a callback deleted the event that it waited for |
| `RunWitnesses.OutsideTimerIsMissed` | serverframework/net/iomanager.cc:356-361 | There is a legal run in which the only worker leaves Run with a timer armed, because another thread armed it between the worker's reads |
| `RunWitnesses.CloseCanClobber` | serverframework/net/hook.cc:361-376 | There is a legal run that closes a registered descriptor: CancelAll's epoll_ctl fails and close goes on |
| `RunWitnesses.StaleReadinessAsserts` | serverframework/net/iomanager.cc:461-468 | There is a legal run of two workers whose next iteration of the event loop fails TriggerEvent's ASSERT: one worker has a report for both events, the other cancels READ first |
| `WakeSteps.HookOne` | serverframework/net/hook.cc:111-149 | Each step of a hooked call (register, disarm, return, retry, close, wake, timeout, cancel, yield, end) keeps exactly one wake source per suspended fiber |
| `WakeSteps.CodeOne` | serverframework/net/hook.cc:164-171 | Each step of application code (schedule, spawn, event and timer calls, starting a sleep or an io call, closing) keeps it too |
| `WakeSteps.IdleOne` | serverframework/net/iomanager.cc:403-469 | Each step of the idle loop (expiry, scheduling popped callbacks, handling reports) keeps it too |
| `WakeSteps.ExpireOne` | serverframework/util/timer.cc:158-170 | Expiry moves each wake from the timer set to the popped callbacks and loses or doubles none |
| `HookEffects.TimeoutEffect` | serverframework/net/hook.cc:116-128 | The timeout of a live call marks it cancelled and cancels exactly the event the call registered on its descriptor: the holder is queued, the other event and other descriptors are untouched |
| `HookEffects.TimeoutWakes` | serverframework/net/hook.cc:119-125 | In particular the fiber that waits in the call is queued, on any thread |
| `HookEffects.LateTimeout` | serverframework/net/hook.cc:120-123 | The timeout of a call that returned or was cancelled before does nothing |
| `TimeoutRuns.TimeoutIsPending` | serverframework/net/hook.cc:111-128 | In every run, a fiber that waits in a hooked call with a timeout has a live timer_info, and its own timer carries exactly that info, descriptor and event, or that callback is on its way, or the call is cancelled already; timer names are unique |
| `HookEffects.BeginEffect` | serverframework/net/hook.cc:103-128 | A call makes a live timer_info of its own and a one-shot timer for its descriptor and event |
| `HookEffects.RegisterEffect` | serverframework/net/hook.cc:130-139 | The call registers its event on its descriptor for the calling fiber and waits; when AddEvent fails it goes on without waiting |
| `HookEffects.DisarmEffect` | serverframework/net/hook.cc:134-142 | Afterwards the call's own timer is not armed, and every other one is as it was |
| `HookEffects.RetryEffect` | serverframework/net/hook.cc:143-147 | A retry happens only when not cancelled, keeps the timer_info and arms a new timer for the same descriptor and event |
| `HookEffects.ReturnEffect` | serverframework/net/hook.cc:103-104 | When the call returns its timer_info dies |
| `HookEffects.SleepEffect` | serverframework/net/hook.cc:164-172 | A sleep arms one one-shot timer that will schedule the calling fiber, and suspends |
| `HookEffects.WakeEffect` | serverframework/net/hook.cc:166-170 | When it expires exactly that fiber is queued, on any thread |
| `HookEffects.CloseEffect` | serverframework/net/hook.cc:361-376 | close queues everybody who waits on the descriptor, READ first, and leaves nothing registered and no kernel entry |
| `HookEffects.ResumeEffect` | serverframework/fiber/scheduler.cc:191-205 | A callback task runs in a new fiber that does what the callback says; a fiber task goes on after its wait |
| `HookEffects.ExpireEffect` | serverframework/net/iomanager.cc:403-411 | The idle loop pops the first k callbacks in order; recurring and later timers stay armed, one-shot ones are gone |
| `HookEffects.DeliverEffect` | serverframework/net/iomanager.cc:406-409 | Each popped callback goes to the end of the queue for any thread |
| `HookEffects.ReportEffect` | serverframework/net/iomanager.cc:424-468 | A report takes away exactly the registered events it names, or all on error and hang-up, and queues their holders, READ first |
| `HookEffects.SpawnEffect` | serverframework/fiber/scheduler.h:126-133 | A new fiber is READY and queued for the thread it was asked for |
| `HookEffects.EventCallEffect` | serverframework/net/iomanager.cc:202-210 | AddEvent with a callback of the application registers exactly that callback and suspends nobody |
| `Scheduler.Scheduler.Schedule` | serverframework/fiber/scheduler.h:126-133 | Appends a non-empty task, drops an empty one, and asks for a tickle exactly when the queue was empty |
| `Scheduler.Scheduler.Fetch` | serverframework/fiber/scheduler.cc:154-189 | Nothing is taken if and only if every entry is pinned to another thread or its fiber is RUNNING; otherwise the first entry that is neither is taken, and only that; exact tickle flag |
| `Scheduler.EveryRunKeepsInv` | serverframework/fiber/scheduler.cc:150-217 | In every run of N workers, with submissions at any time, the counters are exact, scheduled tasks equal queued plus in flight plus finished as multisets, pinned tasks went to their thread, and unpinned callbacks left in the order they came |
| `Scheduler.PlainPick` | serverframework/fiber/scheduler.cc:155-182 | Whatever the scan skips, an unpinned callback that it takes is the oldest one queued |
| `Scheduler.TakeNoneExactly` | serverframework/fiber/scheduler.cc:157-182 | A worker finds nothing if and only if no queued task is unpinned or pinned to it with a fiber that is not running (or none) |
| `Scheduler.RunningInEveryRun` | serverframework/fiber/scheduler.cc:191-205 | In every run a worker runs its task's fiber, that fiber is RUNNING, no two workers run the same one, and nobody else is RUNNING |
| `Scheduler.YieldExactly` | serverframework/fiber/fiber.cc:164-180 | A fiber leaves RUNNING exactly by its own yield, for TERM exactly when it ended, and TERM is final |
| `Scheduler.StoppingIsStable` | serverframework/fiber/scheduler.cc:80-94 | With no outside submission after Stop, once Stopping() is true it is true at every later point of the run |
| `Scheduler.ExitMeansAllDone` | serverframework/fiber/scheduler.cc:97-136 | With no outside submission after Stop, when any worker has left Run: queue empty, nothing in flight, every task ever scheduled has finished, unpinned callbacks were dispatched in order |
| `Scheduler.OnlyLateSubmissionUndoesStopping` | serverframework/fiber/scheduler.h:63-74 | In any run where Stopping() is true, the next step of whatever kind keeps it true if and only if it is not a non-empty submission from outside |
| `Scheduler.LateSubmissionRun` | serverframework/fiber/scheduler.cc:97-102 | A legal run in which such a submission undoes Stopping() |
| `IoManager.AddEventLedger` | serverframework/net/iomanager.cc:193-211 | AddEvent keeps the ledger, and the context it fills was empty, so its second ASSERT cannot fail |
| `IoManager.DelEventLedger` | serverframework/net/iomanager.cc:244-250 | DelEvent keeps the ledger |
| `IoManager.TriggerLedger` | serverframework/net/iomanager.cc:84-102 | A trigger schedules exactly the task that the context holds and keeps the ledger |
| `IoManager.CancelEventLedger` | serverframework/net/iomanager.cc:283-287 | CancelEvent keeps the ledger |
| `IoManager.CancelAllLedger` | serverframework/net/iomanager.cc:319-330 | CancelAll keeps the ledger |
| `IoManager.HandleReadyLedger` | serverframework/net/iomanager.cc:442-468 | Handling a report keeps the ledger when the delivered bits are registered |
| `IoManager.AddEventKernel` | serverframework/net/iomanager.cc:178-198 | ADD only for an absent descriptor, MOD only for a present one; the kernel mask equals the registered events afterwards, also when epoll_ctl fails; it succeeds exactly when the environment lets it |
| `IoManager.DelEventKernel` | serverframework/net/iomanager.cc:229-247 | The same for DelEvent, with its exact result |
| `IoManager.CancelEventKernel` | serverframework/net/iomanager.cc:268-284 | The same for CancelEvent, with its exact result |
| `IoManager.CancelAllKernel` | serverframework/net/iomanager.cc:305-329 | The same for CancelAll; afterwards nothing is registered, so its last ASSERT cannot fail |
| `IoManager.HandleReadyKernel` | serverframework/net/iomanager.cc:447-468 | The same for a handled report |
| `IoManager.CloseKeepsAgreement` | serverframework/net/hook.cc:361-376 | For any set of descriptors closed while registered before: closing keeps the agreement outside that set if and only if nothing is registered on the descriptor or it is in the set; counting it in, the agreement is exact again |
| `IoManager.DeadStaysDead` | serverframework/net/iomanager.cc:178-191 | On a descriptor closed while registered every later AddEvent, DelEvent, CancelEvent and CancelAll fails, every report is ignored, and nothing changes |
| `IoManager.AssertsExactly` | serverframework/net/iomanager.cc:461-468 | The iteration as written, with TriggerEvent's ASSERT as a possible failure, gets through if and only if the delivered bits are registered (or it stops earlier), and then it is the specified step |
| `IoEffects.AddEventEffect` | serverframework/net/iomanager.cc:154-212 | Success exactly when epoll_ctl goes through; then the event is registered for exactly the given holder; the other event, other descriptors and the queue are unchanged |
| `IoEffects.DelEventEffect` | serverframework/net/iomanager.cc:214-251 | The event goes and nobody is queued; everything else is unchanged |
| `IoEffects.CancelEventEffect` | serverframework/net/iomanager.cc:253-288 | The event goes and its holder is queued; everything else is unchanged |
| `IoEffects.CancelAllEffect` | serverframework/net/iomanager.cc:290-331 | Both events go and their holders are queued, READ first; other descriptors are unchanged |
| `IoEffects.HandleReadyEffect` | serverframework/net/iomanager.cc:424-468 | After a report an event is registered if and only if it was before, there is no error or hang-up, and the report does not name it; the holders of those that went are queued, READ first; other descriptors are unchanged |
| `IoEffects.AddedIsScheduled` | serverframework/net/iomanager.cc:202-210 | What is queued when the event goes off is what was given to AddEvent: the callback, or else the calling fiber, on any thread |
| `IoEffects.AssertsFromReport` | serverframework/net/iomanager.cc:442-468 | The guard of TriggerEvent's ASSERT in terms of the report and the registered bits |
| `IoEffects.GrownExactly` | serverframework/net/iomanager.cc:143-166 | The table grows to 1.5 times the descriptor, only when it is too short, and keeps its contexts |
| `IoManagerObject.FdContext.TriggerEvent` | serverframework/net/iomanager.cc:84-102 | Clears the bit and the context and returns what was held |
| `IoManagerObject.IOManager.ContextResize` | serverframework/net/iomanager.cc:143-152 | Exactly `size` contexts: the first ones are kept, new ones are empty, and a smaller size cuts the table |
| `IoManagerObject.IOManager.AddEvent` | serverframework/net/iomanager.cc:154-212 | The in-place code does what the value specification says, and its inner ASSERT holds |
| `IoManagerObject.IOManager.DelEvent` | serverframework/net/iomanager.cc:214-251 | The in-place code does what the value specification says |
| `IoManagerObject.IOManager.CancelEvent` | serverframework/net/iomanager.cc:253-288 | The in-place code does what the value specification says |
| `IoManagerObject.IOManager.CancelAll` | serverframework/net/iomanager.cc:290-331 | The in-place code does what the value specification says, and its last ASSERT holds |
| `IoManagerObject.IOManager.HandleReady` | serverframework/net/iomanager.cc:424-468 | One iteration of the event loop does what the value specification says |
| `IoManagerObject.Replay` | serverframework/net/iomanager.cc:143-468 | Any sequence of calls on a new object that gets past its ASSERTs ends in the folded value functions, with an exact ledger and a kernel that agrees |
| `FiberSwitch.EveryRunIsCallAndReturn` | serverframework/fiber/fiber.cc:145-196 | For any number of threads, every run in which task code does not call Resume and only READY fibers are resumed refines call and return on one stack per thread: no stale context is loaded, the ASSERT of Yield holds, and each thread executes the top of its stack (that only READY fibers are resumed is `RunResults.ResumeNeverAsserts`) |
| `FiberSwitch.ResumeAsserts` | serverframework/fiber/fiber.cc:145-148 | Resume called by the right code fails if and only if the fiber is not READY |
| `FiberSwitch.ReturnsToResumer` | serverframework/fiber/fiber.cc:164-180 | A yielding or finishing fiber returns to exactly the fiber that executed on the thread before its Resume (task to scheduler, scheduler to main) |
| `FiberSwitch.RanAndReturned` | serverframework/fiber/fiber.cc:185-196 | The same, when the thread did nothing else in between, whatever the other threads did |
| `FiberSwitch.OneRunningTask` | serverframework/fiber/scheduler.cc:142-146 | t_fiber names the task while it executes, a thread has at most one running task fiber, and every RUNNING fiber is on some thread's stack |
| `FiberSwitch.ResumeEffect` | serverframework/fiber/fiber.cc:145-162 | A disciplined Resume saves the resumer in its own context and enters the fiber in its own |
| `FiberSwitch.BackEffect` | serverframework/fiber/fiber.cc:164-180 | Yield and MainFunc's end load the context of the fiber below and leave the fiber READY in its own context, or TERM |
| `FiberSwitch.ResumeFields` | serverframework/fiber/fiber.cc:145-162 | Resume field by field: t_fiber, states, contexts, and that no other fiber or thread changes |
| `FiberSwitch.BackFields` | serverframework/fiber/fiber.cc:164-196 | Yield and the end of MainFunc field by field: t_fiber is the thread's main fiber, the fiber READY or TERM, nothing else changes |
| `FiberSwitch.NewFields` | serverframework/fiber/fiber.cc:79-142 | New and reset fibers are READY with a context of their own |
| `FiberSwitch.StartKeepsInv` | serverframework/fiber/scheduler.cc:25-43 | The state set up by the constructor and by Run is a good start: worker threads schedule on their main fiber, the caller thread on its root fiber |
| `FiberSwitch.NestedResume` | serverframework/fiber/fiber.cc:150-156 | Why the discipline is needed: whenever task code resumes another task, it comes back unnamed by t_fiber and with the scheduler's context used up |
| `Timers.ComparatorIsStrictTotalOrder` | serverframework/util/timer.cc:8-26 | The comparator is a strict total order, null pointers included |
| `Timers.FindFinds` | serverframework/util/timer.cc:40-41 | In an ordered set, find finds exactly the members |
| `TimerEffects.AddEffect` | serverframework/util/timer.cc:93-99 | A new timer is due at now + ms and armed; every other timer is unchanged; notified if and only if it became the first and nobody was notified yet |
| `TimerEffects.CancelEffect` | serverframework/util/timer.cc:36-45 | True exactly with a callback; then the timer loses it and leaves the set and nothing else changes; otherwise nothing changes at all |
| `TimerEffects.RefreshEffect` | serverframework/util/timer.cc:47-60 | The timer is due at now plus its period; every other timer and the flag are unchanged |
| `TimerEffects.ResetEffect` | serverframework/util/timer.cc:62-85 | The timer gets the new period and deadline, and is notified like a new one; every other timer is unchanged; asking for the same period changes nothing |
| `TimerEffects.NextEffect` | serverframework/util/timer.cc:115-129 | The flag is taken back, what is seen is the earliest deadline, and no timer changes |
| `TimerEffects.ExpireEffect` | serverframework/util/timer.cc:131-171 | The reading is noted, exactly the due timers (or all after a rollover) have fired once, in order, and the flag is left alone |
| `TimerRuns.EveryRunKeepsIntegrity` | serverframework/util/timer.cc:36-85 | In every run, for any clock readings: the set is strictly ordered, a callback is there exactly in members, next_ - ms_ is the last arming time, and a one-shot timer has fired at most once |
| `TimerRuns.Step` | serverframework/util/timer.cc:36-184 | Every call, for any reading, is defined and keeps that integrity; the wake-up flag stays right if and only if no deadline is re-armed before the one last seen; nothing fires early if and only if the call is no inexact expiry |
| `TimerRuns.NoCallIsUndefined` | serverframework/util/timer.cc:36-45 | In every run, for any clock readings, every next call is defined: the unchecked find and erase of Cancel always finds its timer |
| `TimerRuns.CancelFinds` | serverframework/util/timer.cc:38-42 | Under the invariant find returns the timer itself |
| `TimerRuns.RefreshResult` | serverframework/util/timer.cc:47-60 | Refresh succeeds exactly on a timer that has its callback, and then counts from now |
| `TimerRuns.ResetResult` | serverframework/util/timer.cc:62-85 | When reset succeeds, and the new deadline: from now, or from the last arming time |
| `TimerRuns.NextKeeps` | serverframework/util/timer.cc:115-129 | GetNextTimer reports no timer exactly when there is none, and otherwise the time to the earliest deadline; it makes the flag right whatever it was |
| `TimerRuns.EarlierDeadlineWasNotified` | serverframework/util/timer.cc:173-184 | In every run where no refresh reads less than its timer's arming time and no expiry detects a rollover: if some armed deadline is earlier than the one last seen by GetNextTimer, OnTimerInsertedAtFront was called since, and once only |
| `TimerRuns.RealClockIsInOrder` | serverframework/util/timer.cc:131-145 | With a clock that never goes back and any number of threads, some of which read it before they get the lock, those two conditions hold if and only if no expiry detects a rollover |
| `TimerRuns.MonotoneIsInOrder` | serverframework/util/timer.cc:186-194 | When the readings of a run never go back from call to call, both conditions hold and every expiry is exact |
| `TimerRuns.ExpiryInOrder` | serverframework/util/timer.cc:158-163 | Expiry hands out the callback of each timer it takes, in deadline order, each once |
| `TimerRuns.ExpiryRearms` | serverframework/util/timer.cc:162-170 | A taken one-shot timer is disarmed, a taken recurring one is armed at now + ms, the others are untouched |
| `TimerRuns.FiresInEveryRun` | serverframework/util/timer.cc:131-171 | In every run, for any readings, a one-shot timer fires at most once; membership and arming time are as stated |
| `TimerRuns.NeverEarlyExactly` | serverframework/util/timer.cc:131-171 | In every run nothing has fired before its deadline if and only if every expiry of it was exact |
| `TimerRuns.NothingFiresAfterCancel` | serverframework/util/timer.cc:36-45 | After Cancel returned true the timer never fires again in any continuation, whatever the clock says |
| `TimerRuns.RolloverExactly` | serverframework/util/timer.cc:186-194 | DetectClockRollover with its wrapping subtraction is true exactly for a step back of more than an hour, or any step back in the first hour |
| `TimerRuns.ExactUnlessRollover` | serverframework/util/timer.cc:144-158 | For any reading, also one that goes back: expiry takes exactly the due timers if and only if no rollover is detected or every armed timer is due |
| `TimerRuns.ExactForReadings` | serverframework/util/timer.cc:186-194 | The same in terms of the two readings: it goes wrong exactly for a step back of more than an hour, or any in the first hour, while some timer is not due |
| `TimerRuns.StepBackFiresEarly` | serverframework/util/timer.cc:132-145 | A run of two workers and a perfect clock in the first hour after boot: the second had read 999 before it waited for the lock, the first expired at 1000, and a timer fires an hour early |
| `TimerRuns.StepBackIsSilent` | serverframework/util/timer.cc:162-170 | Such a run that moves a recurring timer before the deadline last seen without notifying anybody |
| `TimerObject.TimerManager.Cancel` | serverframework/util/timer.cc:36-45 | The in-place code does what the value specification says and is one step of a run, and its iterator is valid |
| `TimerObject.TimerManager.Refresh` | serverframework/util/timer.cc:47-60 | The in-place code does what the value specification says and is one step of a run |
| `TimerObject.TimerManager.Reset` | serverframework/util/timer.cc:62-85 | The in-place code does what the value specification says and is one step of a run |
| `TimerObject.TimerManager.AddTimer` | serverframework/util/timer.cc:93-99 | The in-place code does what the value specification says and is one step of a run |
| `TimerObject.TimerManager.GetNextTimer` | serverframework/util/timer.cc:115-129 | The in-place code does what the value specification says and is one step of a run |
| `TimerObject.TimerManager.ExpiredEnd` | serverframework/util/timer.cc:153-157 | lower_bound of a throw-away timer plus the scan for equal deadlines finds the end of the due timers, wherever that timer is allocated |
| `TimerObject.TimerManager.ListExpiredCb` | serverframework/util/timer.cc:131-171 | The in-place code does what the value specification says and is one step of a run |
| `TimerObject.Replay` | serverframework/util/timer.cc:36-184 | Any sequence of possible calls on a new object, for any clock readings, is a run of the specification, so every call is defined and the set keeps its integrity |
| `FlatBuffer.Replay` | serverframework/util/bytearray.cc:300-624 | Any sequence of write, reserving, partial or full scatter write, read, SetPosition, Clear, ToString, and gather from the cursor or from any position, on a fresh array of any block size, gives result by result what the flat buffer gives, refusals and null dereferences included |
| `FlatBuffer.DoWrite` | serverframework/util/bytearray.cc:313-346 | write, and filling the slices of GetWriteBuffers, have one and the same effect on the flat buffer |
| `Blocks.SplitIsDivMod` | serverframework/util/bytearray.cc:319-320 | Splitting a position by repeated subtraction is division and remainder by the block size |
| `Blocks.CeilDivExactly` | serverframework/util/bytearray.cc:480-481 | The number of blocks AddCapacity adds is the least that makes room |
| `ByteArrays.ByteArray.CursorNull` | serverframework/util/bytearray.cc:407-423 | cur_ is null exactly when the position is at the capacity |
| `ByteArrays.ByteArray.SetPosition` | serverframework/util/bytearray.cc:407-423 | Refused exactly beyond the capacity; otherwise the position is set, the size grows if needed, and cur_ is block number position / base |
| `ByteArrays.ByteArray.Clear` | serverframework/util/bytearray.cc:300-311 | Only the first block stays, with its bytes |
| `ByteArrays.ByteArray.AddCapacity` | serverframework/util/bytearray.cc:471-500 | Room for n bytes from the position on, old blocks and bytes kept, exactly ceil(missing / base) blocks added, cursor repaired |
| `ByteArrays.ByteArray.Write` | serverframework/util/bytearray.cc:313-346 | Changes exactly the n bytes from the position on; position, size and capacity as promised |
| `ByteArrays.ByteArray.Read` | serverframework/util/bytearray.cc:348-375 | Out of range exactly when fewer bytes are left; null dereference exactly for nothing at the capacity; otherwise exactly the bytes at the position |
| `ByteArrays.ByteArray.ToString` | serverframework/util/bytearray.cc:502-510 | The readable bytes, without changing anything |
| `ByteArrays.ByteArray.GetReadBuffers` | serverframework/util/bytearray.cc:527-557 | The slices tile the readable range block by block and hold exactly those bytes |
| `ByteArrays.ByteArray.GetReadBuffersFrom` | serverframework/util/bytearray.cc:559-594 | From any position: the slices tile and hold exactly the n bytes from there, n being cut to what is readable at the cursor; null dereference exactly when n > 0 and the range leaves the blocks |
| `ByteArrays.ByteArray.GetWriteBuffers` | serverframework/util/bytearray.cc:596-624 | Makes room, keeps position and content, and the slices tile exactly the next len bytes |
| `ByteArrays.ByteArray.WriteThroughBuffers` | serverframework/util/bytearray.cc:596-624 | Reserving len bytes, filling the slices with as many bytes as there are and moving the position: for len bytes exactly the postconditions of write |
| `Codec.WrittenOnAnyHost` | serverframework/util/endian_conv.h:19-41 | The bytes written depend on the array's byte order only, not on the machine's |
| `Codec.LoadedOnAnyHost` | serverframework/util/bytearray.cc:200-218 | So does the value read |
| `Codec.ImageRoundTrip` | serverframework/util/bytearray.cc:67-100 | Fixed-width integers come back in either byte order |
| `Codec.ZigzagIs` | serverframework/util/bytearray.cc:102-116 | The wrapping two's-complement code computes 2v or -2v-1, also for the smallest value |
| `Codec.UnzigzagZigzag` | serverframework/util/bytearray.cc:102-120 | Decoding undoes zigzag on every signed value |
| `Codec.ZigzagUnzigzag` | serverframework/util/bytearray.cc:118-120 | Zigzag undoes decoding on every unsigned value, so it is a bijection |
| `Codec.VarintLength` | serverframework/util/bytearray.cc:126-150 | At most k bytes if and only if at most 7k bits |
| `Codec.ZigzagLength` | serverframework/util/bytearray.cc:122-139 | A signed value takes at most k bytes if and only if it lies in [-2^(7k-1), 2^(7k-1)) |
| `Codec.VarintTotals` | serverframework/util/bytearray.cc:127-142 | Never more than 5 bytes for 32 bits and 10 for 64 |
| `Codec.VarintRoundTrip` | serverframework/util/bytearray.cc:224-252 | Reading back a varint that fits the width gives the value and consumes exactly its bytes, whatever follows |
| `WireFormat.UnsignedFormat` | serverframework/util/bytearray.cc:59-100 | 1, 2, 4 or 8 bytes, with byte i at its place value for either byte order; float and double patterns likewise |
| `WireFormat.SignedFormat` | serverframework/util/bytearray.cc:57-93 | The same for signed numbers in two's complement |
| `WireFormat.Ranges` | serverframework/util/bytearray.cc:57-162 | The range of each number type, with the numbers written out |
| `WireFormat.VarintSpells` | serverframework/util/bytearray.cc:126-150 | Byte i of a varint holds bits 7i to 7i+6 and says whether more follow (section 7.6 of DWARF 5) |
| `WireFormat.TextFormat` | serverframework/util/bytearray.cc:164-177 | A length of exactly 2, 4 or 8 bytes, spelled in the array's byte order with what exceeds it lost, and then the string |
| `WireFormat.VintTextFormat` | serverframework/util/bytearray.cc:179-182 | The length as a varint, and then the string |
| `WireFormat.FixedReads` | serverframework/util/bytearray.cc:188-220 | A fixed-width reader takes n bytes and gives the number they spell; with fewer left it takes none |
| `WireFormat.VarintReads` | serverframework/util/bytearray.cc:224-252 | The varint readers on any bytes: they take up to the first byte below 128 and at most 5 or 10, what exceeds the width is cut off, and exhausted input is out of range with everything taken |
| `WireFormat.TextReads` | serverframework/util/bytearray.cc:268-298 | The string readers on any bytes, with both failures |
| `WireFormat.ShortFits` | serverframework/util/bytearray.cc:164-182 | A string fits its prefix exactly below 2^16, 2^32 or 2^64 bytes |
| `Wire.TextReadsBack` | serverframework/util/bytearray.cc:164-182 | What any string reads back as, including one whose length was truncated by its prefix |
| `Wire.ValueRoundTrip` | serverframework/util/bytearray.cc:188-298 | A value of any kind comes back if and only if its length fits its prefix and it is not an empty string ending both the message and the last block |
| `Wire.MessageExactly` | tests/test_bytearray.cc:18-38 | Any list of mixed values comes back if and only if every string fits its prefix and the list does not end in an empty string at the end of the last block |
| `Messages.Groups` | serverframework/util/bytearray.cc:126-150 | The varint loop fills tmp with the LEB128 bytes (section 7.6 of DWARF 5) and never writes past its 5 or 10 bytes |
| `Messages.WriteValue` | serverframework/util/bytearray.cc:57-182 | Each typed writer puts exactly the encoding of its value at the position |
| `Messages.ReadVaruint` | serverframework/util/bytearray.cc:224-252 | The varint reader on the blocks, with truncation and exhausted input, and the position it leaves behind |
| `Messages.ReadValue` | serverframework/util/bytearray.cc:188-298 | Each typed reader does what the reference decoder says of the unread bytes, failures included |
| `Messages.RoundTrip` | tests/test_bytearray.cc:18-38 | On a fresh array, for any block size, byte order, machine and message: write all, SetPosition(0), read all gives the same values if and only if every string is shorter than 2^16, 2^32 or 2^64 bytes as its prefix says and the message does not both end in an empty string and fill its blocks exactly; when the strings are short enough, nothing is left to read |
| `Url.UrlEncode` | serverframework/util/util.cc:681-710 | The lazily allocated loop equals the per-character definition |
| `Url.UrlDecode` | serverframework/util/util.cc:712-742 | The lazily allocated loop equals the per-character definition |
| `Url.DecodeEncode` | serverframework/util/util.cc:681-742 | What decoding the encoding gives, for all four combinations of the settings |
| `Url.RoundTrip` | serverframework/util/util.cc:681-742 | Same setting: always the string itself; mixed settings: if and only if no space was written as a plus sign and read literally |
| `Url.EncodedAlphabet` | serverframework/util/util.cc:399-660 | Only unreserved characters, escapes and plus signs are written; bounds on the length, and the string keeps its length if and only if no character needs an escape |
| `Url.EncodeInjective` | serverframework/util/util.cc:681-710 | Different strings have different encodings |
| `Url.UnreservedExactly` | serverframework/util/util.cc:399-660 | Letters, digits and - . _ ~ = are written as they are |
| `Url.EscapeExactly` | serverframework/util/util.cc:681-710 | Every other character is a percent sign and its two upper-case digits, except a space as a plus sign |
| `Url.AnyCase` | serverframework/util/util.cc:724-731 | An escape with digits of either case stands for its byte |
| `Url.OtherwiseItself` | serverframework/util/util.cc:712-742 | Everything else stands for itself, a percent sign without two digits included |
| `FdFlags.SetFl` | serverframework/net/hook.cc:382-397 | The F_SETFL hook: tracked sockets get the framework's flag, others are passed through |
| `FdFlags.GetFl` | serverframework/net/hook.cc:398-411 | The F_GETFL hook shows the flag the program asked for, others are passed through |
| `FdFlags.Fionbio` | serverframework/net/hook.cc:457-473 | FIONBIO is noted and passed on unchanged |
| `FdFlags.WithExactly` | serverframework/net/hook.cc:390-394 | Only the nonblocking bit is forced, every other bit is the program's |
| `FdFlags.ShownIsPlain` | serverframework/net/hook.cc:382-411 | After any calls, failed ones included, F_GETFL shows what an unhooked descriptor shows if and only if the last flag asked for is the last one granted |
| `FdFlags.Transparent` | serverframework/net/fd_manager.cc:32-61 | If all calls succeed, the hooks cannot be told apart at any point of the run if and only if the socket was created blocking |
| `FdFlags.StaysNonblocking` | serverframework/net/fd_manager.cc:47-52 | The real descriptor is nonblocking if and only if no accepted FIONBIO 0 came after the last accepted F_SETFL or FIONBIO 1; with F_SETFL calls only, always |

## Left out

- Real system calls (epoll_wait, pipe, ucontext, pthread, getaddrinfo, dlsym): nondeterministic steps or shadow state.
- Concurrent `ContextResize`: the lookup of AddEvent is one step with the registration; its size is not checked again after relocking in the source.
- An exit guarantee for an IO manager with several workers: the three reads of Stopping are not one snapshot, so the code does not give one.
- Immediate wake-up on Schedule, blocking times of epoll_wait, and liveness under the operating system's scheduling.
- What happens after TriggerEvent's ASSERT fails on readiness for events that are no longer registered: the run ends there (`RunWitnesses.StaleReadinessAsserts`).
- Early exits of the hooks (hooks disabled, no context, closed, not a socket, user asked for nonblocking, call succeeded at once): no suspension, so they are application code in the step machine.
- Application code that schedules somebody else's fiber, yields without a commitment, or resumes fibers itself is not a step of the runtime; `RunResults.ForeignSchedule`, `RunResults.YieldNeedsCommit` and `FiberSwitch.NestedResume` state what it would do.
- Which attempt of a hooked call a timeout belongs to: do_io keeps one timer_info across its retries, so with several workers a popped timeout of an earlier attempt may end a later one.
- AddConditionTimer's weak pointer: a flag that says whether the hooked call is still alive.
- 64-bit wrap of deadlines; only the subtraction in DetectClockRollover wraps.
- TimerObject.TimerManager: timers are records in a table keyed by address, not objects; shared ownership is not modelled.
- FiberSwitch: control transfer is modelled on values, because swapcontext is not a sequential statement; Resume and Yield are one step each.
- Protocol: the timer set is an ordered list whose due prefix is chosen freely; deadlines are the business of `TimerRuns`.
- `ByteArray::read(buf, size, position)`: only as ToString uses it, because it starts from the cursor.
- `ByteArray::WriteToFile`, `ReadFromFile`, `ToHexString`, and a block size of zero.
- Messages.ReadVaruint: `|=` of groups is addition, which is the same because each group lies above the bits read before (`Messages.GroupsAreDisjoint`).
- FdFlags: fstat finds the descriptor and the calls inside FdCtx::Init succeed; timeouts are not modelled.
- `serverframework/net/address.cc`, `Socket`, `TcpServer`, `Stream`, threads and mutexes, logging, configuration, environment, daemon and file-system utilities: easy or mostly library calls.
