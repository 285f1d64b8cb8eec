# Verified model of the server framework's core

A Dafny model of four parts of a C++ coroutine server framework, with machine-checked proofs of what they promise:

1. the coroutine scheduler and its fibers (`source/scheduler.cpp`, `source/fiber.cpp`): workers that share one queue,
   two counters and a set of six-state fibers;
2. the IO event registry (`source/iomanager.cpp`): a table of event bits and slots, a pending count and the kernel's
   interest set, changed by five operations and feeding the scheduler;
3. the log pattern compiler (`source/log.cpp`, `LogFormatter::init`);
4. incremental reconfiguration of loggers and the loading of settings from YAML (`source/log.cpp`,
   `source/config.hpp`, `source/config.cpp`).

`dafny verify dfyconfig.toml` checks everything.

## How it is built

Each part exists twice. A specification on values says what every operation does, and the theorems about whole runs
and histories are proved of it. Beside it, classes with the source's fields and loops are proved, method by method, to
compute that specification, so the theorems hold of them.

| part | specification and theorems | objects and loops |
|---|---|---|
| scheduler, fibers | `Protocol`, `Ownership`, `Executions`, `Steps`, `Shutdown`, `Counterexamples`, `Fifo`, `Delivery`, `Scripts` | `Scheduler` (`SchedulerModel`), `CallerDrain` |
| event registry | `Registry`, `Lifecycle`, `EventsAndRuns` | `IOManager` (`IOManagerModel`) |
| log patterns | `Pattern` | `LogFormatter` (`LogFormatterModel`) |
| loggers, settings | `Loggers`, `Config` | `LoggerConfig`, `Config.ConfigArg`, `ConfigMgr` (`ConfigMgrModel`) |

**The scheduler protocol.** A state holds the queue, the counters, the stop flags, all fibers, all registrations and,
for each worker, where it stands in `run`. Every step is one locked section or one atomic update of the source, so a
run is any interleaving of any number of workers. In particular "the fiber leaves its thread", "the active count goes
down" and "the worker acts on the fiber's state" are three separate steps. Calls of the registry are steps too, by
tasks, by the dispatch loop and by threads that are not workers, with those that the code accepts by mistake
(`DelOther`) and those that fail an assertion (`FailedCall`). Two conditions on runs appear in the theorems:

- *Discipline* (`WakeDiscipline`), a demand on the callers of the framework: a task makes at most one wake-up for a
  fiber per suspension and none for one that ends; nothing is scheduled or registered from outside once `stop` has
  been called; and no call of the registry fails its assertion, that is, `addEvent` is called for a free event,
  `cancelEvent` for the only event of its descriptor, and epoll does not report an unregistered event together with a
  registered one.
- *Hand-over* (`Handover`), an assumption on timing that no lock of the source enforces: a fiber that has woken itself
  is not picked up by another worker between leaving its thread and being acted on by its old one. `yieldToHold` sets
  HOLD before it switches (`source/fiber.cpp:187-192`), so the entry in the queue is eligible too early.

Ownership of fibers is false of the code without either. `HandoverExact` says exactly when a scan is safe: it leaves
ownership safe from every disciplined continuation if and only if the fiber it takes has been settled.
`EarlyPickupBreaksOwnership` is a run from the start that ends with one fiber on two workers. Without the discipline,
scheduling a fiber that is queued already, or a worker's parked callback fiber, lets a disciplined continuation fail an
assertion wherever two workers are free to take it (`QueuedScheduleBreaks`, `ParkedScheduleBreaks`); `DoubleWakeAborts`
is such a run from the start.

A third fact is counted instead of excluded: a `delEvent` of an event that is not registered, accepted because the
other event of its descriptor is, makes the pending count one too low. `Missed` counts these calls in a run, and the
theorems about the pending count hold exactly up to that number.

**Shutdown.** The active count goes down before a READY fiber is queued again (`source/scheduler.cpp:196-199`), so
`stopped()` can be true while that fiber is in no count. The scheduler still drains every unpinned entry
(`DrainSafety`), but a pinned entry and a registration can be left behind: `WindowLosesWork` is such a run. Being
stopped is final exactly when no worker is in that window, or dispatching an event that a miscount has hidden
(`StoppedIsStable`). A run whose idle checks never succeed inside the window ends with an empty queue, and with
exactly as many registrations left as deletes were miscounted (`CleanShutdown`, `ShutdownTable`); `MiscountLosesEvent`
is a run that loses one that way.

**The registry.** The answers of epoll are a parameter `ok` of each operation; a call of `epoll_ctl` fails when `ok`
is false, for a second ADD, and for MOD or DEL of a descriptor that is absent. Each operation is a step under the lock
of its context, so the operations of several threads interleave freely. Facts of the code are modelled as they are and
their consequences stated exactly:

- `delEvent` tests `events | event` (line 161), so it also accepts an event that is not registered. When the other
  event of the descriptor is, the pending count ends up too low (`DelEventExact`, `DeleteMiscounts`);
- `cancelEvent` asserts that no event is left (line 221), so it aborts exactly when the other event was registered too
  (`CancelEventExact`, `SharedCancelAborts`);
- the dispatch loop does not mask what it finds with what is registered (lines 352-360), so a hang-up on a descriptor
  with one event registered aborts (`DispatchExact`, `HangUpAborts`);
- `cancelAll` lets fd equal to the table size through its bound check (line 227) to an access out of range, which the
  model treats as a failed assertion (`CancelAllExact`);
- `addEvent` drops its lock between finding the table too small and resizing it (lines 104-108), so a late call can
  cut off contexts that another call has added (`ResizeLateExact`, `ResizeLateLoses`).

`AgreementExact` puts them together: after any run, table, kernel and pending count agree if and only if no assertion
failed and no delete was miscounted. `RunRefines` joins registry and scheduler: the registry steps of every
disciplined run of the protocol, interleaved as they may be, are a run of the registry from a new manager, with the
same registrations, deliveries and miscounts.

**Patterns.** `%%` emits a percent sign but scans the second one again, and an unterminated brace neither consumes
more than its percent sign nor flushes the literal before it (`source/log.cpp:485-488`, `541-545`). Printing and
compiling are inverse exactly on canonical token lists (`RoundTrip`), and compiling is compositional exactly when the
first part does not end in a percent sign (`Compositional`).

**Loggers.** Applying a history of settings difference by difference gives, for every name, a logger read off the
newest setting and the formatters ever given (`HistoryAt`). Level and appenders depend on the newest setting alone;
the formatter does not: dropping it from a definition does not bring the default back (`DirectExact`,
`FormatterOutlives`).

## Model

| member | source | states |
|---|---|---|
| Ownership.InvKeeps | source/scheduler.cpp:156-247 | one step of any worker, under the discipline and the hand-over condition, keeps the whole invariant: no assertion fails, every fiber in execution has exactly one worker, no fiber has two wake-ups, counters count their workers |
| Steps.ScanExact | source/scheduler.cpp:163-185 | a scan takes into hand the first entry that is not pinned to another thread and not a running fiber, and counts it active; when there is none nothing changes |
| Steps.StartCallback | source/scheduler.cpp:206-215 | a callback in hand, and no other, runs on the worker's reusable fiber or on a new one; every other fiber, the queue and the counts stay |
| Steps.StartFiber | source/scheduler.cpp:192-195 | a fiber in hand is resumed with the callback it has; everything else stays |
| Steps.StartDropped | source/scheduler.cpp:228-231 | a fiber in hand that has ended is dropped and uncounted |
| Steps.SwitchExact | source/fiber.cpp:180-217 | the state each kind of leaving leaves behind; only a normal return drops the callback, and nothing else changes |
| Steps.DecrementExact | source/scheduler.cpp:196 | the active count goes down before the fiber's state is acted on, and nothing else changes |
| Steps.SettleReady | source/scheduler.cpp:198-199 | a READY fiber is queued last, for any thread; with it a callback fiber is given up |
| Steps.SettleEnded | source/scheduler.cpp:220-222 | a fiber that has ended is not queued; a callback fiber is kept for the next callback |
| Steps.SettleHeld | source/scheduler.cpp:200-202 | any other fiber is on HOLD with its callback; a callback fiber is given up |
| Steps.LeaveExact | source/scheduler.cpp:234-240 | a worker that found nothing leaves when its idle fiber has ended, and else enters it and counts itself idle |
| Steps.IdleExact | source/scheduler.cpp:254-260 | the idle fiber goes on to read the pending count exactly when stop was requested, the queue is empty and nothing is active |
| Steps.PendingExact | source/iomanager.cpp:282-285 | it then ends exactly when nothing is pending |
| Steps.IdleYieldExact | source/iomanager.cpp:363-367 | after a round of dispatching the worker is idle no more and scans again |
| Executions.FiberOwnership | source/scheduler.cpp:163-225 | in every state of every disciplined run a fiber is EXEC exactly when some worker runs it, and never two do; no assertion has failed |
| Executions.NeverResumedTwice | source/fiber.cpp:143-151 | a fiber about to be resumed is INIT, HOLD or READY, and no other worker refers to it, so `swapIn` cannot fail and TERM or EXCEPT is never resumed |
| Executions.WorkerLoop | source/scheduler.cpp:152-246 | the active count is the number of workers between dequeue and decrement, the idle count that of workers in the idle fiber; at the loop head the reusable callback fiber is INIT, has no callback and no other owner |
| Executions.HandoverExact | source/scheduler.cpp:163-205 | a scan leaves every disciplined continuation with each fiber EXEC exactly when one worker runs it and no failed assertion, if and only if the fiber it takes has been settled by its previous worker |
| Executions.DisciplineExact | source/scheduler.cpp:156-247 | a step of a worker, or a failing call of the registry, keeps the whole invariant (more than ownership) if and only if it meets the discipline and the hand-over condition |
| Executions.QueuedScheduleBreaks | source/scheduler.hpp:91-99 | in any state of the invariant, scheduling a fiber once more that is queued and settled, where two workers at their loop heads find no other entry, leaves a disciplined continuation in which ownership breaks or an assertion fails |
| Executions.ParkedScheduleBreaks | source/scheduler.cpp:206-215 | the same for scheduling the parked callback fiber of a worker that, like another one, finds nothing to take |
| Executions.NoLostReady | source/scheduler.cpp:196-219 | a fiber that yielded READY is always queued or about to be queued or resumed by a worker, through the window in which it is in no count |
| Executions.DrainSafety | source/scheduler.cpp:156-247 | once all workers have left `run`, over any interleaving: only pinned entries are queued, no fiber is EXEC, both counts are zero |
| Counterexamples.EarlyPickupBreaksOwnership | source/fiber.cpp:187-192 | the discipline alone is not enough: a run from the start in which one fiber runs on two workers |
| Counterexamples.DoubleWakeAborts | source/fiber.cpp:143-151 | the timing alone is not enough: a disciplined run reaches a state in which one second wake-up of a fiber lets a disciplined continuation reach the state where `swapIn`'s assertion has failed |
| Counterexamples.WindowLosesWork | source/scheduler.cpp:196-199 | a disciplined run after which all workers have exited while an event is registered and a pinned entry queued |
| Counterexamples.MiscountLosesEvent | source/iomanager.cpp:161-181 | a disciplined run with clean idle checks after which all workers have exited, the pending count is zero and an event is registered |
| Shutdown.NoInvisibleFiber | source/scheduler.cpp:162-219 | a fiber that runs or has a wake-up is covered by the queue, the active count or the pending count, or is in the READY window, or is registered after a miscounted delete |
| Shutdown.NoInvisibleRegistration | source/iomanager.cpp:135-136 | from addEvent's increment until delivery is queued or deletion begins, the pending count plus the number of deletes miscounted so far is at least one |
| Shutdown.PendingCovers | source/iomanager.cpp:218-219 | in any state, one registration that is not being deleted keeps the pending count, corrected by what was miscounted, positive, whatever operations are between count and bit |
| Shutdown.PendingExact | source/iomanager.cpp:161-181 | the pending count is the set bits plus the operations ahead minus those behind, if and only if no delete was miscounted |
| Delivery.CallbackCovered | source/scheduler.cpp:162-216 | from any state of the invariant, a queued callback is, after every disciplined continuation, still queued, or in the hand of a worker, or what that worker's fiber runs, until that fiber has left its thread; the worker keeps the active count above zero, so the scheduler does not look stopped before |
| Delivery.DeliveryCovered | source/iomanager.cpp:31-45 | the same for a registered callback from the moment its event is triggered, in every disciplined run from the start |
| Shutdown.StoppedIsStable | source/scheduler.cpp:254-260 | an instant at which `stopped()` is true is final if and only if no worker is in the READY window and none is dispatching a hidden registration; without miscounts the second never happens |
| Shutdown.CleanShutdown | source/iomanager.cpp:282-285 | when no idle check succeeds inside that window, all workers exiting means: empty queue, no count, exactly as many registrations left as deletes were miscounted, no other wake-up |
| Shutdown.EmptyIsFinal | source/scheduler.cpp:156-247 | once every idle fiber has ended, an empty queue and registry stay so in every disciplined continuation if and only if no worker holds, runs or carries back a task |
| Fifo.GlobalFifo | source/scheduler.cpp:163-185 | over any run, the unpinned callbacks dequeued followed by those still queued are those enqueued, in order; the same for the callbacks pinned to each thread |
| Fifo.Conservation | source/scheduler.hpp:91-99 | over any run, every entry enqueued, fiber or callback, is dequeued once or still queued |
| Fifo.TakesOldest | source/scheduler.cpp:163-185 | a scan takes the oldest callback of the class it takes from and leaves the other classes as they are |
| Fifo.PinnedStaysHome | source/scheduler.cpp:166-170 | a pinned entry is dequeued by its own thread only |
| SchedulerModel.Fiber.Reset | source/fiber.cpp:106-124 | a dead or new fiber gets a new callback and becomes INIT |
| SchedulerModel.Fiber.SwapIn | source/fiber.cpp:143-151 | the fiber becomes EXEC and keeps its callback |
| SchedulerModel.Fiber.SwapOut | source/fiber.cpp:180-221 | the state each kind of leaving leaves behind; only a normal end drops the callback |
| SchedulerModel.Scheduler.ScheduleNoLock | source/scheduler.hpp:91-99 | a payload is queued last, an empty one not at all; the answer says whether the queue was empty |
| SchedulerModel.Scheduler.FindNext | source/scheduler.cpp:163-178 | the loop finds the first entry that is not pinned elsewhere and not a running fiber, and reports whether it passed one pinned elsewhere |
| SchedulerModel.Scheduler.TakeNext | source/scheduler.cpp:162-186 | the locked section is the protocol's scan: entry removed, active count up, or nothing changed |
| SchedulerModel.Scheduler.StartTask | source/scheduler.cpp:192-215 | what is in hand is resumed, run on the reusable fiber, or dropped when it is finished, as the protocol's start step |
| SchedulerModel.Scheduler.Settle | source/scheduler.cpp:198-226 | READY is queued again, finished callback fibers are reset for reuse, anything else is put on HOLD, as the protocol's settle step |
| SchedulerModel.Scheduler.LeaveOrIdle | source/scheduler.cpp:233-240 | the loop is left when the idle fiber is TERM, else the idle fiber is entered and counted |
| SchedulerModel.Scheduler.CheckQueue | source/scheduler.cpp:254-260 | the first read of `stopped()` |
| SchedulerModel.Scheduler.CheckPending | source/iomanager.cpp:282-285 | the second read, which ends the idle fiber |
| CallerDrain.Caller.Run | source/scheduler.cpp:119-248 | with the caller's thread as the only worker and finite task scripts, the loop ends by steps of the protocol with the queue empty and the active count zero; every task made has ended or is suspended with no wake-up, and exactly the work of the suspended ones is not performed |
| CallerDrain.Caller.Perform | source/fiber.cpp:180-217 | a running fiber carries out its script up to the action that makes it leave, in the state of that action and with the rest of its script kept |
| CallerDrain.StopWithTasks | source/scheduler.cpp:84-124 | the same for a scheduler that is built, given any tasks and stopped; when no task suspends without a wake-up, every one has ended and all their work is performed |
| Registry.GrowCovers | source/iomanager.cpp:100-109 | growth covers fd, keeps every context and registers nothing |
| Registry.GrowSize | source/iomanager.cpp:100-107 | a table beyond fd stays as it is, another grows to one and a half times fd, rounded down |
| Lifecycle.TriggerExact | source/iomanager.cpp:31-45 | triggering hands over exactly the registration of its bit, empties its slot and nothing else, and fails exactly when there is none |
| Lifecycle.CtlExact | source/iomanager.cpp:120-125 | for a context the kernel mirrors, ADD is asked only when absent and MOD or DEL only when present, so epoll_ctl refuses only for reasons of its own |
| Lifecycle.AddEventExact | source/iomanager.cpp:97-149 | registers exactly what it is given, 0 is answered exactly then; aborts exactly when the event is taken, so the slot assertion cannot fail; a refusal changes no registration, no count and no mask |
| Lifecycle.DelEventExact | source/iomanager.cpp:151-186 | drops exactly its registration without delivery; true is answered exactly when epoll accepts and some event of the descriptor is registered; the count drifts exactly when that was the other event |
| Lifecycle.CancelEventExact | source/iomanager.cpp:188-223 | delivers exactly its registration, and aborts exactly when the other event is registered too |
| Lifecycle.CancelAllExact | source/iomanager.cpp:225-266 | delivers both registrations, reading first; goes wrong exactly at fd equal to the table size |
| Lifecycle.DispatchExact | source/iomanager.cpp:321-360 | delivers what is registered among the events found, reading first and nothing after a failed assertion, and aborts exactly when one event found is registered and another is not |
| Lifecycle.RealEventsExact | source/iomanager.cpp:323-334 | EPOLLIN, an error or a hang-up is reading, EPOLLOUT, an error or a hang-up is writing, and no other bit is an event |
| Lifecycle.DispatchBits | source/iomanager.cpp:323-360 | from the bits epoll reports: each registration is delivered exactly when its bits are reported and epoll accepts, and the entry aborts exactly when both events are reported and one of them alone is registered |
| Lifecycle.BatchIsRun | source/iomanager.cpp:312-361 | the loop over what epoll reported is a run of its entries up to the first that aborts, and stays sound exactly when every entry meets its assertions where it is reached |
| Lifecycle.ExactlyOnce | source/iomanager.cpp:97-266 | over any run, the registrations accepted are, as a multiset, those delivered with their scheduler and payload, those deleted and those still held |
| Lifecycle.AgreementExact | source/iomanager.cpp:97-361 | bits, slots, contexts, kernel and pending count agree after a run if and only if no assertion failed and no delete was miscounted; otherwise the count is low by the number of miscounts |
| Lifecycle.DeleteMiscounts | source/iomanager.cpp:161-163 | after registering reading and deleting writing, the pending count is zero with an event registered |
| Lifecycle.HangUpAborts | source/iomanager.cpp:323-325 | a hang-up on a descriptor with only reading registered fails an assertion |
| Lifecycle.HangUpDeliversNothing | source/iomanager.cpp:352-360 | a hang-up on a descriptor with only writing registered fails at reading and delivers nothing |
| Lifecycle.SharedCancelAborts | source/iomanager.cpp:221 | cancelling one of two registered events fails an assertion |
| Lifecycle.ResizeLateExact | source/iomanager.cpp:100-109 | a table resized by a call that looked at it too early stays sound if and only if no context cut off has a registration |
| Lifecycle.ResizeLateLoses | source/iomanager.cpp:104-108 | a late addEvent of fd 40 loses the registration of fd 100 |
| EventsAndRuns.AddRefines | source/iomanager.cpp:135-146 | whatever other operations are in flight, the protocol's step that writes bit and slot is addEvent on the table |
| EventsAndRuns.DelRefines | source/iomanager.cpp:181-184 | the same for the step that clears them and delEvent |
| EventsAndRuns.DelOtherRefines | source/iomanager.cpp:161-184 | the same for delEvent of the event that is not registered, which is miscounted on both sides |
| EventsAndRuns.CancelRefines | source/iomanager.cpp:218-219 | the same for cancelEvent of a lone event, which queues its payload unpinned |
| EventsAndRuns.TriggerRefines | source/iomanager.cpp:352-360 | the same for one event reported to the dispatch loop |
| EventsAndRuns.RunRefines | source/iomanager.cpp:97-361 | the registry steps of every disciplined run of any number of threads are a run of the registry from a new manager: all assertions hold, the same registrations remain, the same deliveries were made in the same order, as many deletes were miscounted |
| EventsAndRuns.ShutdownTable | source/iomanager.cpp:282-285 | after a clean shutdown the manager that this run leads to has count zero, and its table is as empty as a new one if and only if no delete was miscounted |
| IOManagerModel.FdContext.TriggerEvent | source/iomanager.cpp:31-45 | the object's bit and slot are cleared and its payload scheduled, or the assertion fails and nothing changes |
| IOManagerModel.IOManager.ContextResize | source/iomanager.cpp:85-94 | the loop fills the table with new contexts numbered by place, or cuts it off, and keeps the other objects |
| IOManagerModel.IOManager.AddEvent | source/iomanager.cpp:97-149 | table, count, kernel and answer are those of the registry's addEvent |
| IOManagerModel.IOManager.DelEvent | source/iomanager.cpp:151-186 | the same for delEvent |
| IOManagerModel.IOManager.CancelEvent | source/iomanager.cpp:188-223 | the same for cancelEvent |
| IOManagerModel.IOManager.CancelAll | source/iomanager.cpp:225-266 | the same for cancelAll |
| IOManagerModel.IOManager.Dispatch | source/iomanager.cpp:312-361 | the same for the dispatch loop over a batch, which ends at a failed assertion |
| Pattern.Tiling | source/log.cpp:479-550 | without an unterminated brace, the texts of the tokens put together are the pattern itself |
| Pattern.CompileInjective | source/log.cpp:479-550 | two such patterns with the same tokens are the same pattern |
| Pattern.RoundTrip | source/log.cpp:479-550 | a token list is the compilation of its own text if and only if it is canonical |
| Pattern.Compositional | source/log.cpp:479-550 | compiling a+b gives the tokens of a and of b, for b starting with a conversion, if and only if a does not end in a percent sign |
| Pattern.NoPercentEscape | source/log.cpp:485-488 | no pattern compiles to plain text that holds a percent sign |
| Pattern.NameCharExact | source/log.cpp:498-499 | a conversion name consists of the letters of both cases and closing braces |
| Pattern.UnterminatedExact | source/log.cpp:541-549 | a brace that is not closed gives one error token before the text collected so far, and all the rest is read as text |
| LogFormatterModel.LogFormatter.ScanConversion | source/log.cpp:491-530 | the inner loop finds the name, option and end that the recursive definition gives, or the unterminated brace |
| LogFormatterModel.LogFormatter.SplitPattern | source/log.cpp:479-550 | the outer loop's entries are those of the pattern's tokens; it reports an error exactly for an unterminated brace |
| LogFormatterModel.LogFormatter.Init | source/log.cpp:474-595 | the items are, in order, the text of a literal, the known conversion with its option, or the error text; the error flag is set exactly when a brace is unterminated or a conversion is none of the twelve; without an error the items written as a pattern are the pattern up to empty braces |
| LogFormatterModel.ItemsRoundTrip | source/log.cpp:574-589 | the items of a pattern without errors and without empty braces, written as a pattern, are the pattern itself |
| LogFormatterModel.ItemsInjective | source/log.cpp:574-589 | two patterns without errors that give the same items differ in empty braces only |
| LogFormatterModel.SingleConversionExact | source/log.cpp:557-568 | a percent sign and one more character are a pattern without errors exactly for the twelve letters |
| Loggers.OnChangeAt | source/log.cpp:785-846 | what the two loops of the listener mean for each name: equal definitions leave it, a new or changed one defines it, a missing one silences it |
| Loggers.HistoryAt | source/log.cpp:785-846 | after any history of settings, every name's logger is what the newest setting and the formatters ever given to it say |
| Loggers.DirectExact | source/log.cpp:791-835 | level and appenders are those of applying the newest setting directly; the whole logger is, if and only if the newest definition has a well-formed formatter or the ones before changed nothing |
| Loggers.AppendersExact | source/log.cpp:806-834 | after any history a defined logger has the level of its definition and one appender for each of the definition, of that kind, level and file, with its own formatter exactly when the definition gives one without errors, else with the logger's; the logger's is the definition's, if it is well formed, else the one before |
| Loggers.DroppedSilent | source/log.cpp:837-845 | a name that was defined and is not any more has level 0 and no appenders |
| Loggers.UntouchedExact | source/log.cpp:785-846 | a logger no setting names is neither made nor changed |
| Loggers.FormatterOutlives | source/log.cpp:806-810 | a history in which the formatter is not the one of direct application |
| Loggers.HistoryWellFormatted | source/log.cpp:241-276 | over any history every attached appender has a formatter, and one without its own has its logger's |
| Loggers.AddAppenderExact | source/log.cpp:302-312 | addAppender puts the appender last, with the logger's formatter if it has none; it keeps every appender in step with the logger if and only if the appender is new, has its own formatter, or brings the logger's |
| Loggers.SharedAppenderStrays | source/log.cpp:302-312 | an appender taken over from a logger with another formatter keeps that one |
| Loggers.SetFormatterFollows | source/log.cpp:251-276 | setFormatter gives every appender without its own the new formatter and leaves the others as they are; an erroneous pattern changes nothing |
| Loggers.HistoryPattern | source/log.cpp:251-263 | after any history a logger's formatter is the one it had before or a pattern without errors |
| Loggers.CallsChain | source/config.hpp:347-362 | a listener is handed a chain: each old value is the last new one, none is idle, and the last is the newest value set |
| Loggers.CallsReplay | source/config.hpp:347-362 | replaying that chain of calls is exactly what the setting did to the loggers |
| LoggerConfig.Logger.SetFormatter | source/log.cpp:251-276 | the object and its loop over appenders compute the specification's setFormatter |
| LoggerConfig.Logger.Configure | source/log.cpp:806-834 | the listener's order of work on one logger comes to its definition |
| LoggerConfig.LoggerManager.GetLogger | source/log.cpp:608-622 | the known logger, or a new one stored under the name; every other name keeps its object |
| LoggerConfig.LoggerManager.OnChange | source/log.cpp:785-846 | the listener's two loops over logger objects compute the specification's change |
| LoggerConfig.LogSetting.SetValue | source/config.hpp:347-362 | an equal value changes nothing; else the listener runs on old and new value, then the new one is stored |
| Config.PruningIsFiltering | source/config.cpp:20-36 | leaving out subtrees with bad keys is filtering the whole pre-order by the dotted key |
| Config.LowerIdentity | source/config.cpp:49-50 | lower-casing changes no listed key |
| Config.AllowedExact | source/config.cpp:23 | a key may hold lower-case letters, digits, the dot and the underscore |
| Config.NodeReached | source/config.cpp:29-35 | every node of a tree is visited under the names on its path, joined by dots |
| Config.SiblingsInOrder | source/config.cpp:30-33 | of two children with the same name the later is visited later |
| Config.LoadGives | source/config.cpp:43-61 | what the loop gives a setting is the texts of all nodes with its dotted key that convert, in the order of the tree |
| Config.ConfigArg.FromString | source/config.hpp:329-340 | a text that converts is set and every registered listener, and no other, hears of the change; one that does not changes nothing and nobody hears |
| Config.LoadExact | source/config.cpp:39-62 | each setting holds the value of the last node anywhere in the tree that has its dotted key and converts, else its old value; none is added |
| Config.LoadTwice | source/config.cpp:39-62 | loading the same tree again changes nothing |
| Config.ConfigArg.SetValue | source/config.hpp:347-362 | every registered listener is told of a change once with old and new value, others and equal values not at all |
| Config.ConfigArg.AddListener | source/config.hpp:366-372 | a new id, larger than all before |
| Config.ConfigArg.DelListener | source/config.hpp:374-377 | exactly that listener is gone |
| ConfigMgrModel.ListAllMember | source/config.cpp:20-36 | the recursion appends exactly the listed members to the list it is given |
| ConfigMgrModel.ConfigMgr.LoadFromYaml | source/config.cpp:39-62 | every setting object takes, one after the other, the texts of all nodes with its dotted key that convert, and each of its listeners, and no other, hears the chain of these changes |

## Left out

- `ucontext`, stacks and `shared_ptr` lifetimes: a switch is control passing between a worker and its task; fibers in use are assumed alive.
- `Thread`, `Semaphore`, mutexes and guards: they are the atomicity of steps.
- `notify`, the notify pipe, `EINTR` and the five-second timeout of `epoll_wait`: they decide when a worker looks again, not what it does; a waiting worker may go on at any time. The notify descriptor is assumed never to be registered by callers.
- Liveness with several workers: a run may stop being scheduled; termination is proved for the caller-thread scheduler.
- CallerDrain.Caller.Run: task scripts are finite trees of schedule (a new callback or a suspended fiber, unpinned or pinned to the caller's thread), yield, suspend, wake oneself, return and raise; no task registers an event.
- The step granularity: the decrement, the hand-over and the inspection of a fiber's state are separate steps, while one operation on an fd context is one step in `Lifecycle` and two (count, bit) in `Protocol`.
- Calls of the registry from threads that are not workers: each is one step, and they register callbacks only.
- The width of the pending count: after a miscount it can fall below zero, where the source's unsigned counter wraps; both are different from zero, which is all that is tested.
- Executions.FiberOwnership: rests on the discipline and on the hand-over assumption described above, which no lock of the source enforces.
- Executions.DisciplineExact: about the invariant, not about ownership alone, which some steps outside the discipline, such as waking a finished fiber, do not always break; `QueuedScheduleBreaks` and `ParkedScheduleBreaks` say where two of them do.
- Shutdown.CleanShutdown: rests on idle checks not succeeding inside the READY window; `WindowLosesWork` shows why.
- Lifecycle.CancelAllExact: an access out of range at fd equal to the table size ends the run; what the source then does is not promised by anything.
- Negative descriptors and a null scheduler in `addEvent`: assumed not to occur.
- The dropped read lock between lookup and resize in `addEvent` (lines 104-108): looking up and growing are one step in runs; `Lifecycle.ResizeLateExact` says what a late resize does to the table, not what later operations make of it.
- A moved-from `std::function` or `shared_ptr` is taken to be empty, so triggering leaves an empty slot.
- The range overload of `schedule` (source/scheduler.hpp:59-73): it cannot be instantiated as written.
- `isalpha` and `tolower` are those of the C locale.
- Rendering of log events, `strftime`, files, standard output, singletons and the fallback to the root logger in `log`: input and output.
- Sharing of one appender object by several loggers: appenders are values inside their logger; a formatter is known by its pattern.
- Appender definitions of a type other than 1 and 2: the listener would use a null appender (source/log.cpp:815-823); the YAML reader makes no others.
- The order of names in a `std::set` of definitions: a set is a sequence with distinct names, and no result depends on the order.
- Reading and writing YAML text, `LexicalCast` and appender levels from YAML: a node carries its text, and a conversion is any partial function of setting name and text.
- Listener ids: the source counts them for all settings of one type together, the model for each setting.
- Exceptions thrown by listeners or by the idle fiber: assumed not to occur.
