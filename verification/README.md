# Sylar server core: a Dafny model

Sylar is a C++ server framework. This project models its four hard parts and proves what they are for:

- **The fiber scheduler** (`src/scheduler.cpp`, `src/scheduler.h`, `src/fiber.cpp`). Any number of worker threads share a
  locked list of tasks, run fibers and callbacks, requeue those that yield, spin in an idle fiber and leave when a test
  for "nothing left" holds. `Protocol.dfy` is the transition system, one label for each critical section or switch;
  tasks are arbitrary finite scripts. `ProtocolInvariant.dfy` and `ProtocolSteps.dfy` prove what every step keeps,
  `Execution.dfy` that tasks run their own code to its end, `Shutdown.dfy`, `Leaving.dfy`, `Drain.dfy`, `Finish.dfy`,
  `Bypass.dfy`, `Stranding.dfy` and `Pins.dfy` what stopping, waiting and pinning guarantee, and `Scheduler.dfy` holds the scheduler object whose methods update its fields and do exactly those
  steps. `Contexts.dfy` and `FiberRuntime.dfy` treat the thread-local pointers, saved contexts and states of `fiber.cpp`
  in the same way, and `SchedulerContexts.dfy` shows that every run of the scheduler uses them as they require.
- **Log patterns** (`src/log.cpp`): `Pattern.dfy` holds the scanner of `LogFormatter::init` as the nested index loops it
  is, proved against a recursive reading of patterns; `PatternLaws.dfy` and `PatternRoundTrip.dfy` prove what that
  reading promises, and `PatternRendering.dfy` what a pattern writes, letter by letter.
- **The logger graph**: appenders that inherit formatters and routing to the root logger (`LoggerGraph.dfy`,
  `Logger.dfy`), the lock hierarchy (`Locks.dfy`), and the listener that turns one set of log definitions into the next
  (`Reconfigure.dfy`, `LoggerManager.dfy`). `LogOutput.dfy` says in the fields of a definition which appenders a logger
  then has, and which lines they write.
- **Configuration** (`src/config.cpp`, `src/config.h`): flattening a tree to dotted names (`ConfigTree.dfy`), which node
  a name stands for (`ConfigPaths.dfy`, `ConfigOrder.dfy`), listeners and notifications (`ConfigVars.dfy`), what loading
  does to a variable (`ConfigLoading.dfy`), the registry and the loader (`Config.dfy`), the casts of log definitions
  (`LogLevels.dfy`, `LogDefines.dfy`, and `LogReading.dfy` for which trees read as what), and all of it together, from
  loaded trees to loggers and lines (`LogLoading.dfy`).

Objects whose methods update fields are classes here, with loops where the source has loops. Each method is proved equal
to a function of the old state, and the theorems are about those functions, over all inputs and all runs. What those
functions compute is said a second time on the data alone: by what a task is seen to do (`Execution.dfy`), by where the
workers stand (`Leaving.dfy`), by letters and event fields (`PatternRendering.dfy`), by definitions and lines
(`LogOutput.dfy`), by keys and dots (`ConfigPaths.dfy`, `ConfigOrder.dfy`) and by keys and texts (`LogReading.dfy`).

`dafny verify dfyconfig.toml` checks everything.

## Assumptions

- One `start()` and one `stop()`; no outside thread schedules after `stop()` begins; `run()` on the caller's thread is
  entered only by `stop()`; tasks never call `swapOut()` directly.
- Linear ownership: a fiber is scheduled by hand only when it is neither queued nor held by a worker.
- Setting a fiber's state and switching away from it is one step; memory is sequentially consistent.
- A pattern letter is an ASCII letter (`isalpha` in the "C" locale). A YAML null read as a string is an exception.

## What the source does, against expectations

- `stop()` can wait for ever. Tasks that may call `YieldToReady` and may be pinned can do it on two or more workers: a
  worker decrements the active counter before it requeues, so another one may leave, and the task may afterwards pin work
  to the one that left (`StopCanHang`). A single task pinned to a thread that is no worker does it as well
  (`OrphanHangs`). There is always a way to the end exactly when every pin names a worker and `YieldToReady` and pins do
  not meet on two or more workers (`FinishesExactly`). Yielding to HOLD and waking do no harm.
- A requeued fiber loses its pin, because `schedule(fiber)` defaults to any thread (src/scheduler.cpp:199, 219): a fiber
  scheduled for one worker is taken by another after one `YieldToReady` (`PinCanBeLost`). Every dispatch goes where the
  last explicit call asked exactly for tasks without `YieldToReady` and for tasks without pins (`PinsHonouredExactly`).
- Text pending before an unclosed `{` is written after the error mark, so rendering is not always compositional
  (`CompositionCanFail`); `Compositional` says exactly when it is.
- An empty or invalid `formatter` in a log definition keeps whatever formatter an earlier configuration set
  (`HistoryMatters`); `FromScratchExactly` says exactly when that shows.
- An appender that is detached and attached again keeps the formatter it inherited first (`ReattachingCanGoStale`).
- Keys with upper-case letters are rejected before the loader's `tolower`, which therefore never changes anything
  (`ListedNamesAreLower`).
- The parser of log definitions ignores an appender's `level`, which `Log.md` documents, and a stdout appender's
  `formatter` (`ParsedArePlain`); the printer, given a level, would replace the whole appender by it.
- `fromString` returns false even when it succeeds (src/config.h:283-292).

## Model

| member | source | states |
|---|---|---|
| SchedulerObject.Scheduler.constructor | src/scheduler.cpp:25-47 | a new scheduler is an initial state of the protocol: nothing queued, nobody in run(), counters zero |
| SchedulerObject.Scheduler.ScheduleNoLock | src/scheduler.h:82-89 | a non-empty task goes to the end of the queue, an empty one changes nothing; the result says whether the queue was empty before |
| SchedulerObject.Scheduler.ScheduleBatch | src/scheduler.h:53-67 | the non-empty elements are appended in order as unpinned entries, every source element is left empty, and tickle is asked for exactly when the queue was empty and there was an element |
| SchedulerObject.Scheduler.ScheduleFiber | src/scheduler.h:41-51 | making a fiber and scheduling it is the protocol's push of a new task |
| SchedulerObject.Scheduler.TakeTask | src/scheduler.cpp:160-185 | the locked loop takes the first entry this worker may run and counts it as active in the same step, or leaves all as it was; it asks for a tickle exactly when it passed an entry pinned elsewhere |
| SchedulerObject.ScanPrefix | src/scheduler.cpp:163-184 | the position where the loop stops is the first eligible one |
| SchedulerObject.BatchSnoc | src/scheduler.h:58-61 | one more element adds one entry at the end, or none when it is empty |
| SchedulerObject.Scheduler.EnterTask | src/scheduler.cpp:192-216 | swapIn of the task taken: a callback gets the worker's callback fiber, new or reset, with the callback's own code; a fiber keeps its code; the fiber entered is EXEC |
| SchedulerObject.Scheduler.DropTask | src/scheduler.cpp:227-231 | a finished fiber is dropped and uncounted |
| SchedulerObject.Scheduler.FinishTask | src/scheduler.cpp:195-217 | the decrement after the switch back is a step of its own |
| SchedulerObject.Scheduler.SettleTask | src/scheduler.cpp:197-226 | requeue of a READY fiber without its pin, reset of a finished callback fiber, or HOLD |
| SchedulerObject.Scheduler.IdleOrQuit | src/scheduler.cpp:232-242 | nothing found: leave if the idle fiber has terminated, else enter it, counted as idle |
| SchedulerObject.Scheduler.IdleBody | src/scheduler.cpp:259-264 | the idle fiber ends exactly when stopping() holds, else it yields |
| SchedulerObject.Scheduler.IdleReturn | src/scheduler.cpp:238-241 | back from the idle fiber: uncounted, HOLD unless terminated |
| SchedulerObject.Scheduler.Stopping | src/scheduler.cpp:254-258 | true exactly when both flags are set, the queue is empty and nobody is active |
| SchedulerObject.Scheduler.Start | src/scheduler.cpp:64-88 | every pool worker enters run(), the caller's root fiber does not; a scheduler already started stays as it is |
| SchedulerObject.Scheduler.BeginStop | src/scheduler.cpp:90-91 | on a started scheduler the auto-stop flag is set first |
| SchedulerObject.Scheduler.FlagStop | src/scheduler.cpp:110 | then the stopping flag |
| Execution.TasksRunTheirScripts | src/scheduler.cpp:192-226 | in every run, what each task has been seen to do, followed by what its fiber has left, is the script it was scheduled with, through READY, HOLD, wakes and changes of thread; a fiber is TERM only after its whole script and EXCEPT only at a throw; the callbacks run are those dispatched |
| Execution.EverythingRan | src/fiber.cpp:173-213 | when all workers have left with nothing queued, every task that was made or dispatched performed its whole script, or threw, or waits on HOLD for a wake that never came |
| Execution.LawKept | src/fiber.cpp:109-133 | each single step keeps that agreement between scripts, actions and fibers |
| Execution.PlacedKept | src/scheduler.cpp:160-226 | a fiber that is new or READY is always in the queue or in a worker's hands |
| Leaving.QuiescentExactly | src/scheduler.cpp:254-258 | in every reachable state stopping() holds exactly when stop() has set its flags, the queue is empty and no worker has a task in hand |
| Leaving.IdleEndsExactly | src/scheduler.cpp:259-264 | a worker's idle fiber ends exactly then, and yields otherwise |
| Leaving.RootSkippedExactly | src/scheduler.cpp:115-129 | the caller's worker is skipped exactly then, and enters run() otherwise |
| Leaving.ScanTakesExactly | src/scheduler.cpp:160-185 | in every reachable state a scan takes the first entry pinned to nobody or to this worker, leaves the others in order, and finds nothing exactly when there is none; the EXEC test never decides |
| Leaving.NobodyLeavesEarly | src/scheduler.cpp:90-113 | in any run no idle fiber ends and no worker leaves before stop() has set both flags |
| SchedulerObject.Scheduler.CallRoot | src/scheduler.cpp:115-129 | the root fiber enters run() unless stopping() already holds |
| ProtocolSteps.Keeps | src/scheduler.cpp:142-243 | every step of workers, tasks, starter and outside threads keeps the whole invariant |
| ProtocolSteps.Invariant | src/scheduler.cpp:142-264 | in every reachable state: both counters are exact (no underflow), a fiber is in at most one queue entry or one worker's hands, states match positions, cb_fiber is null or INIT with no callback at every loop head, and the multiset of scheduled entries is queued plus dispatched, each dispatched to a worker its pin allows |
| ProtocolSteps.KeepsScan | src/scheduler.cpp:160-185 | pop and ++active in one critical section keep counters, ownership and conservation |
| ProtocolSteps.KeepsAct | src/fiber.cpp:173-213 | spawning, yielding, waking, finishing and throwing keep the invariant |
| ProtocolSteps.KeepsSettle | src/scheduler.cpp:197-226 | post-processing keeps the invariant, in particular single ownership of a requeued fiber |
| ProtocolSteps.ExclusiveExecution | src/scheduler.cpp:174-242 | in any run a fiber is EXEC exactly while one worker runs it; that worker is the only holder and the fiber is not queued |
| ProtocolSteps.AssertionsNeverFail | src/fiber.cpp:111-127 | in any run the state assertions of swapIn and reset hold, at both resets of the callback fiber, which is never null there, and no finished fiber is swapped in |
| Shutdown.QuiescenceKept | src/scheduler.cpp:254-258 | for tasks that never call YieldToReady, stopping() once true stays true under every step |
| Shutdown.QuiescenceLasts | src/scheduler.cpp:160-258 | for such tasks, once stopping() has been true the queue is empty and nobody is active in every later state |
| Shutdown.ShutdownIsSafe | src/scheduler.cpp:232-264 | tasks without YieldToReady, pinned or not, that may yield to HOLD and wake each other: nobody leaves with work pending, and when all have left every scheduled task was dispatched as often as it was scheduled |
| Shutdown.NoTaskIsLost | src/scheduler.cpp:192-235 | unpinned tasks of any kind: never are all workers past their last scan with a task queued, although the decrement precedes the requeue; all exited means all dispatched |
| Stranding.StopCanHang | src/scheduler.cpp:195-199 | on any two or more workers, a run with a YieldToReady and a pin after which no continuation lets all workers leave |
| Stranding.StrandsExactly | src/scheduler.cpp:195-235 | no worker of any scheduler leaves behind a task pinned to it, in any run, exactly for rule sets without YieldToReady or without pins |
| Bypass.StrandedForEver | src/scheduler.cpp:165-170 | an entry pinned to a worker that has left stays queued for ever and keeps all others from leaving |
| Bypass.QueueGrows | src/scheduler.h:82-89 | only scans take entries out; every other step leaves the queue or appends to it |
| Bypass.BoundedBypass | src/scheduler.cpp:163-184 | an unpinned entry at position k is taken within k+1 scans by anyone, one pinned to t within k+1 scans by t, whatever is scheduled meanwhile |
| Drain.StepLowersMeasure | src/scheduler.cpp:142-243 | whatever the tasks do, after stop() began every step lowers a measure, except the steps of an idle round, which leave it equal |
| Drain.BoundedWork | src/scheduler.cpp:142-264 | so every schedule of any tasks has a bounded number of steps outside idle rounds |
| Finish.OrderlyKept | src/scheduler.cpp:195-264 | each of three conditions under which a queued task always has a worker that will still look for it is kept by every step: no YieldToReady, a single worker, or no pins |
| Finish.StopCanFinish | src/scheduler.cpp:90-140 | under the rules that FinishesExactly names, every state after stop() began has a continuation in which all workers leave and everything scheduled was dispatched |
| Finish.OrphanHangs | src/scheduler.h:41-51 | one task pinned to a thread that is no worker keeps all workers from ever leaving, on any scheduler |
| Finish.FinishesExactly | src/scheduler.cpp:90-264 | for any rules and any set of workers: every state reachable after stop() began has a continuation in which all workers leave, exactly when every pin names a worker and there is no YieldToReady, or no pin, or only one worker |
| Pins.PinCanBeLost | src/scheduler.cpp:195-199 | a run in which a fiber scheduled for one worker is dispatched to another after YieldToReady |
| Pins.PinsHonouredExactly | src/scheduler.cpp:163-226 | in every run every dispatch of a fiber goes where the last explicit schedule or wake asked, exactly for rules without YieldToReady or without pins |
| Contexts.OpRefines | src/fiber.cpp:109-171 | each operation on contexts and thread-local pointers is a push, a pop or a new entry on the stacks of fibers |
| Contexts.RunRefines | src/fiber.cpp:109-239 | so does every run of them |
| Contexts.NestingIsAStack | src/fiber.cpp:125-171 | on every thread t_fiber is the fiber whose code runs and the top of a stack of at most thread fiber, caller root fiber, task or idle fiber |
| Contexts.YieldReturnsToItsSwapIn | src/fiber.cpp:135-183 | a task that leaves thread t was swapped in last by t, and control resumes in that very swapIn, also after migrating |
| Contexts.LastSwapIn | src/fiber.cpp:125-133 | the switch recorded for a fiber is the thread and the number of its last swapIn |
| Contexts.SwitchesAreNumbered | src/fiber.cpp:125-155 | switches are numbered one after the other, so the number names one switch |
| SchedulerContexts.StepSimulates | src/scheduler.cpp:142-264 | every step of the scheduler performs legal context operations and keeps the stacks as its own bookkeeping says: thread fiber, root fiber on the caller's thread, task or idle fiber |
| SchedulerContexts.ThreadsRunWhatTheyName | src/fiber.cpp:125-171 | in every run of the scheduler t_fiber of a worker's thread is the fiber whose code runs, namely the task, idle, root or thread fiber the scheduler's state says |
| SchedulerContexts.TasksReturnToTheirSwapIn | src/fiber.cpp:135-213 | in every run of the scheduler a task that yields or ends returns to the swapIn of its current worker, wherever it ran before |
| FiberRuntime.ExecMeansStanding | src/fiber.cpp:109-239 | in any run m_state is EXEC for exactly the fibers standing on some thread's stack, so the assertion of swapIn holds whenever it is called legally |
| FiberRuntime.Runtime.Make | src/fiber.cpp:68-89 | a new fiber starts at its entry point in state INIT |
| FiberRuntime.Runtime.Reset | src/fiber.cpp:109-123 | reset gives a fresh entry point and state INIT |
| FiberRuntime.Runtime.EnterThread | src/fiber.cpp:55-171 | the first GetThis() of a thread makes its thread fiber, in state EXEC |
| FiberRuntime.Runtime.SwapIn | src/fiber.cpp:125-133 | swapIn: state EXEC, the new fiber current, the main fiber's context saved |
| FiberRuntime.Runtime.SwapOut | src/fiber.cpp:135-140 | swapOut returns to the scheduler's main fiber |
| FiberRuntime.Runtime.Leave | src/fiber.cpp:173-213 | a yield or the end of a task sets the state first and then returns to the main fiber |
| FiberRuntime.Runtime.Call | src/fiber.cpp:142-148 | call enters the root fiber from the thread fiber, in state EXEC |
| FiberRuntime.Runtime.LeaveRoot | src/fiber.cpp:150-239 | the root fiber sets its state and returns to the thread fiber |
| Pattern.LogFormatter.ScanAt | src/log.cpp:459-492 | the inner index loop reads what the recursive reading says: a name, an optional group, or an unclosed group |
| Pattern.LogFormatter.Turn | src/log.cpp:444-509 | one turn of the outer loop keeps the reading of the rest, also on the path that does not flush pending text and rescans |
| Pattern.LogFormatter.Tokenize | src/log.cpp:441-509 | the token vector of the whole pattern |
| Pattern.LogFormatter.Init | src/log.cpp:431-539 | items and m_error after init: one item for each token, through the twelve-entry table, and the error flag; FormatEvent and ItemWrites say what those items write |
| Pattern.LogFormatter.FormatEvent | src/log.cpp:423-429 | the items' renderings one after the other, which after init() are the pattern's texts and, for each conversion, the field of the event that its letter names |
| Pattern.TokensWrite | src/log.cpp:73-180 | what a token list writes, on names and the event alone: texts as they are, for each of the twelve letters its field, for any other name the error text |
| Pattern.ItemWrites | src/log.cpp:510-536 | each entry of the table makes the item that writes its letter's field |
| PatternRendering.NameCharacters | src/log.cpp:460-475 | a name is made of ASCII letters and stray closing braces |
| PatternRendering.FormatSpelled | src/log.cpp:73-180 | for every well-spelled list of texts and conversions the output is the texts and, for each letter, the field of the event it names (m message, p level, r elapsed, c logger, t thread id, N thread name, F fiber id, d clock in its own or the default format, f file, l line, n newline, T tab), in order; any other name writes an error text and is what puts the pattern in error |
| PatternRendering.FormatWrites | src/log.cpp:510-536 | for any pattern at all the output is that of its tokens, texts as they are and conversions by their letter |
| PatternRendering.UnclosedWrites | src/log.cpp:501-505 | a group that is never closed puts the pattern in error and writes the error mark, then all the rest as text |
| PatternRendering.ShippedPattern | bin/conf/log.yml:4 | the pattern of the shipped configuration writes date, tab, message, newline |
| PatternLaws.ErrorExactly | src/log.cpp:446-539 | m_error holds exactly when some reached percent sign opens an unclosed group or names no conversion |
| PatternLaws.PendingComesAfterMarks | src/log.cpp:501-505 | pending text is written after the marks of the unclosed groups that follow it |
| PatternLaws.LexConcat | src/log.cpp:444-509 | tokens of a concatenation, when the second pattern is empty or begins an item |
| PatternLaws.Compositional | src/log.cpp:423-539 | p1 error-free, p2 empty or beginning with a percent sign: p1+p2 is in error exactly when p2 is, and renders to the two renderings in turn exactly when no unclosed group leads p2 or p1's pending text consists of error marks |
| PatternLaws.CompositionCanFail | src/log.cpp:501-505 | a concrete pair of patterns whose concatenation renders differently |
| PatternLaws.CommutesWithMarks | src/log.cpp:501-505 | a text that commutes with a run of error marks is such a run |
| PatternRoundTrip.ParseAfterPrint | src/log.cpp:444-509 | for every well-spelled list of texts and conversions, braced or bare, init recovers exactly that list from its spelling |
| PatternRoundTrip.PrintAfterParse | src/log.cpp:446-509 | printing the tokens gives the pattern back character for character exactly when it has no unclosed and no empty group |
| Locks.OperationsAreOrdered | src/log.cpp:244-319 | every logging operation takes its locks in strictly increasing rank (manager, child logger, root, appender), none that it holds, and gives all back |
| Locks.ProgramsAreOrdered | src/log.cpp:332-417 | so does any sequence of them |
| Locks.LogLocksExactly | src/log.cpp:244-258 | log() locks the logger, then each of its appenders, or the root and each of the root's; all of it while the logger's own lock is held |
| Locks.OtherLocksExactly | src/log.cpp:280-347 | the locks of every other operation, in order |
| Locks.NoDeadlock | src/thread.h:46-75 | any number of threads running any such sequences: in every reachable state some unfinished thread can go on, and the wait-for graph has no cycle |
| LoggerGraph.SettledExactly | src/log.cpp:227-236 | one operation keeps "every attached appender without its own formatter has its logger's" exactly when a check a caller can make beforehand passes |
| LoggerGraph.Inheritance | src/log.cpp:280-319 | over any run that attaches each fresh appender once and sets no null formatter, the rule holds and no appender is shared |
| LoggerGraph.OwnFormatterStays | src/log.cpp:308-319 | an appender's own formatter survives any run without a setFormatter on it |
| LoggerGraph.WithoutAt | src/log.cpp:291-300 | what is removed is the first occurrence and nothing else |
| LoggerGraph.ReattachingCanGoStale | src/log.cpp:280-289 | detaching and attaching again breaks the rule |
| LoggerGraph.LoggedExactly | src/log.cpp:244-258 | under the rule no formatter is missing when an event is logged, and a line is written exactly by the appenders of the logger, or of the root if it has none, that every level on the way lets through, in their own or that logger's pattern |
| LoggerObjects.LogAppender.SetFormatter | src/log.cpp:227-236 | the flag follows whether the formatter is null |
| LoggerObjects.LogAppender.Log | src/log.cpp:349-390 | one formatted line, or none below the appender's level |
| LoggerObjects.Logger.constructor | src/log.cpp:238-242 | level DEBUG, the default pattern, no appenders |
| LoggerObjects.Logger.AddAppender | src/log.cpp:280-289 | appends; an appender without a formatter takes the logger's, its flag unchanged |
| LoggerObjects.Logger.DelAppender | src/log.cpp:291-300 | removes the first occurrence |
| LoggerObjects.Logger.ClearAppenders | src/log.cpp:302-306 | removes all |
| LoggerObjects.Logger.SetFormatter | src/log.cpp:308-319 | the logger and all its appenders without their own formatter change, shared ones in every logger that holds them |
| LoggerObjects.Logger.SetPattern | src/log.cpp:321-330 | an invalid pattern changes nothing |
| LoggerObjects.Logger.LogAt | src/log.cpp:244-258 | the lines an event causes, in order, through the root logger if there are no appenders |
| Reconfigure.ReconfiguredExactly | src/log.cpp:691-749 | after any series of configuration changes each logger is given in closed form: level and appenders from the latest set, dropped names at level 100 without appenders, names never configured untouched, formatter the usable one given last |
| Reconfigure.OutlineForgetsHistory | src/log.cpp:696-735 | two different histories that end in the same set agree on level and ordered appenders of every configured logger |
| Reconfigure.FromScratchExactly | src/log.cpp:712-715 | a logger equals one configured from scratch exactly when its definition brings a usable formatter or no earlier one left another |
| Reconfigure.HistoryMatters | src/log.cpp:712-715 | a concrete history that shows in the formatter |
| LogOutput.ChangeConforms | src/log.cpp:693-747 | after one change every logger of the new set follows its definition, field by field: level, pattern, and in order the appenders it lists, a file appender on the listed file exactly for type 1, at the listed level, with its own pattern exactly when that is non-empty and valid, else the logger's; names that are gone are at level 100 without appenders; others are untouched |
| LogOutput.RunConforms | src/log.cpp:693-747 | so it is after any series of changes |
| LogOutput.DestinationsExactly | src/log.cpp:244-258 | a configured logger with appenders puts a line in a file exactly when its definition lists a file appender there and both levels let the event through, and on stdout likewise |
| LogOutput.WrittenByRoot | src/log.cpp:248-256 | one without appenders writes what the root's definition lists, if both loggers' levels permit |
| LogOutput.OneLineEach | src/log.cpp:248-253 | an event that every level lets through gives one line for each appender, in their order |
| LoggerManagement.Build | src/log.cpp:717-734 | one appender in the fields of its definition: on its file exactly for type 1, at its level, with its own formatter exactly when that is non-empty and valid |
| LoggerManagement.Furnish | src/log.cpp:717-735 | one appender for each definition, in order, with the logger's formatter where it has none of its own |
| LoggerManagement.Configure | src/log.cpp:711-735 | one logger in the fields of its definition, whatever appenders it had; without a usable formatter it keeps the one it has |
| LoggerManagement.LoggerManager.LogTo | src/log.cpp:244-258 | logging through the manager to a name, registered or not, writes the lines that the loggers' fields say |
| LoggerManagement.LoggerManager.constructor | src/log.cpp:541-546 | the root logger prints to stdout, is the root field and is the one registered logger |
| LoggerManagement.LoggerManager.GetLogger | src/log.cpp:548-560 | the registered object of that name, or a new one that points to the root logger; nothing else changes |
| LoggerManagement.LoggerManager.OnChange | src/log.cpp:693-747 | the listener does to the registered objects what the two folds over definitions do; registered loggers stay the same objects and share no appender; if all followed their definitions before, all follow the new ones afterwards, field by field, and those whose definition is gone are silent |
| LoggerManagement.LoggerManager.SetDefines | src/config.h:302-316 | equal values cause no reconfiguration |
| LogLevels.ReadBack | src/log.cpp:30-71 | reading a printed level gives it back exactly for the six levels |
| LogLevels.Tables | src/log.cpp:30-71 | each level has one name to print and two to read, and every other text reads as unknown |
| LogDefines.ReadDefine | src/log.cpp:609-650 | the parsing loop, with its skips and exceptions, is the recursive reading |
| LogDefines.WriteDefine | src/log.cpp:656-685 | the printing loop |
| LogDefines.ReadSet | src/config.h:129-143 | the loop is the recursive reading of a set by insertion, which SetReads shows to be all or nothing |
| LogReading.ParseSays | src/log.cpp:609-650 | a tree reads as a definition exactly when it says so: a text at name, level and formatter texts or none, and appenders that are each a FileLogAppender with a file, a StdoutLogAppender, or passed over |
| LogReading.ParseReads | src/log.cpp:612-615 | and it does not read exactly when it says no definition |
| LogReading.SetReads | src/config.h:129-143 | a list reads exactly when every item does; then it gives for each name what the first item of that name says, and nothing else |
| LogDefines.ParsedArePlain | src/log.cpp:618-647 | every definition read has a known level and only appenders of type 1 or 2 without a level |
| LogDefines.RoundTripExactly | src/log.cpp:606-686 | print then parse is the identity exactly on the definitions the parser can produce |
| LogDefines.ParsedSet | src/log.cpp:588-604 | a parsed set is ordered by name, keeps the first item of each name, and meets what the listener asks |
| LogDefines.InsertKeepsOrder | src/log.cpp:601-603 | insertion keeps the order and never replaces a definition of the same name |
| LogDefines.SetRoundTrip | src/config.h:145-157 | every set that loading can produce survives printing and loading |
| LogLoading.LoadTracks | src/config.cpp:43-61 | loading a tree's nodes into the variable calls its listener so that the loggers follow the accepted sets one by one |
| LogLoading.LoadedLoggers | src/log.cpp:691-749 | load any trees, good or bad, in turn: the variable ends with the last accepted set, and the calls of its listener turn the loggers into the closed form of the accepted sets |
| LogLoading.LoadedLines | src/log.cpp:691-749 | from trees to the log: after loading any trees, an event at a logger of the accepted set puts a line in a file exactly when the logger's definition lists a FileLogAppender on that file and both levels let the event through, in the appender's pattern or else the logger's |
| LogLoading.AcceptedExactly | src/config.h:283-292 | the text at a node is accepted exactly when it loads as a list whose items all read, as an empty map, or as a scalar or nothing |
| LogLoading.RefusedChangesNothing | src/config.h:283-292 | a logs node that is not accepted, wherever it stands, leaves the variable, what its listener heard and every logger as if it were absent |
| ConfigPaths.PathsExactly | src/config.cpp:24-37 | a node is listed under a name exactly when the name is valid and spells, with dots, keys that lead to it; empty keys at the start leave no trace |
| ConfigPaths.SplitSpelled | src/config.cpp:34 | for non-empty keys without dots, splitting the name at its dots gives the keys back |
| ConfigPaths.OneNodePerName | src/config.cpp:24-37 | in a tree whose keys are non-empty, free of dots and distinct in each map, a name stands for one node |
| ConfigPaths.LoadedFromPath | src/config.cpp:39-62 | for any tree, a variable ends with the value offered by a node that its name spells the way to, or unchanged if none converts |
| ConfigPaths.LoadedByPath | src/config.cpp:39-62 | in an unambiguous tree the variable named a.b takes the value of the node under key a, then key b |
| ConfigOrder.IndexGrows | src/config.cpp:31-36 | nodes are listed in document order, a map before what is in it |
| ConfigOrder.LastInDocumentWins | src/config.cpp:43-61 | for any tree, of several nodes of one name the last in document order that converts decides |
| ConfigTree.NameCharacters | src/config.cpp:27 | a path is made of lower-case ASCII letters, digits, dots and underscores |
| ConfigTree.ListAllMember | src/config.cpp:24-37 | the recursive method appends the flattened list to its output, whose names PathsExactly gives |
| ConfigTree.FlattenIsPreOrder | src/config.cpp:24-37 | that list is the pre-order of all nodes with a valid path, nothing lost by stopping at a bad prefix |
| ConfigTree.InvalidPathsGoOn | src/config.cpp:27-34 | below an invalid path every path is invalid |
| ConfigTree.ListedNamesAreLower | src/config.cpp:49 | the loader's tolower changes no key it ever sees |
| ConfigVars.HeardExactly | src/config.h:302-316 | a registered listener hears exactly the changes made while it is registered, in order, each once |
| ConfigVars.Notifications | src/config.h:302-344 | from registration on its notifications form a chain: each begins where the one before ended, none repeats the value, the last ends at the current value |
| ConfigVars.ChangesChain | src/config.h:302-316 | the changes of any run lead from the first value to the last |
| ConfigVars.Announced | src/config.h:302-316 | a value that differs is announced once to each listener in key order, with the old value, and then stored; an equal one does nothing |
| ConfigVars.ApplyKeepsValid | src/config.h:318-331 | listener keys stay ascending, so calls are in order of registration |
| ConfigObjects.ConfigVar.SetValue | src/config.h:302-316 | equal values do nothing; else every listener is called in key order with the old value still in force, then the value changes |
| ConfigObjects.ConfigVar.AddListener | src/config.h:318-325 | the key is the next of the shared counter |
| ConfigObjects.ConfigVar.DelListener | src/config.h:327-331 | removes that key only |
| ConfigObjects.ConfigVar.ClearListener | src/config.h:340-344 | removes all listeners |
| ConfigObjects.ConfigVar.FromString | src/config.h:283-292 | sets the value if the text converts, and always returns false |
| ConfigObjects.Config.LookupBase | src/config.cpp:19-22 | the registered variable or none |
| ConfigObjects.Config.Lookup | src/config.h:374-401 | the existing variable, null for another type, an exception for a bad name, or a new variable with the default and the converter |
| ConfigObjects.Config.LoadFromYaml | src/config.cpp:39-62 | every variable and its notifications are as if all nodes of the tree had been set in pre-order; in an unambiguous tree a variable takes the value of the node that its dotted name leads to |
| ConfigLoading.LastOneWins | src/config.cpp:43-61 | a variable ends with the last node of its name whose text converts, colliding dotted keys included |
| ConfigLoading.NoneGives | src/config.cpp:52-60 | without such a node nothing about it changes |
| ConfigLoading.LoadedIsARun | src/config.cpp:43-61 | loading is a run of setValue calls, so the notification theorems apply |

## Left out

- `ucontext`, stacks, `pthread`, semaphores and memory order: a context switch is a change of the running fiber, locks
  are atomic steps under sequential consistency.
- The `while (true)` of `run()` as one method: its iterations interleave with everybody else's, so they are runs of the
  transition system, and each critical section or switch inside it is a method.
- SchedulerObject.Scheduler.BeginStop: does not model `stop()` on a scheduler that was never started.
- ProtocolSteps.AssertionsNeverFail: does not model the assertion that a reset fiber has a stack, since callback fibers
  are always made with one.
- Restarting a scheduler, a second `stop()`, raw `swapOut()` from tasks, and scheduling from outside after `stop()`.
- Destruction of fibers, whose assertion a fiber left on HOLD would fail (src/fiber.cpp:91-107), and reference counts.
- Bytes of YAML text and `boost::lexical_cast`: trees are a datatype, printing and conversion of scalars are parameters.
- The other `LexicalCast` container wrappers, which repeat the set wrapper's pattern.
- Actual output, `strftime`, `vasprintf`, opening and reopening files; a rendered line is a string.
- Backtraces, singletons, assertion macros, thread names, `toYamlString` texts, and the lock inside `ConfigVar`.
- Modules that the repository's README only announces (IO scheduler, hooks, sockets, HTTP, servlets).
- Locks.NoDeadlock: does not cover the registry's and variables' read-write locks, since callers' listeners run under them.
- ConfigObjects.Config.LoadFromYaml: does not model variables of different C++ types or listeners that throw or set
  values themselves; all variables share one value type, each with its own conversion.
- ConfigObjects.ConfigVar.AddListener: does not model the wrap-around of the 64-bit key counter.
- LogDefines.ReadDefine: does not model `appenders`, or a set, given as a map with integer keys, nor the order of values
  evaluated before an exception.
- LoggerObjects.Logger.LogAt: does not model the mutexes, which `Locks.dfy` treats apart, nor interleaved output.
- LoggerManagement.LoggerManager.OnChange: does not model the log line it writes first, nor loggers edited by hand in between.
