# A verified model of the coroutine server framework

A Dafny model of the framework's fibers, scheduler, IO manager, hooked IO, timers, byte
arrays, socket streams, URL codec, parameter parsing and response bodies, with proofs of what
they are for. Code that changes objects step by step is modelled by classes and methods whose
contracts equate the new state with a function of the old one; the properties over whole runs
are proved about those functions. `dafny verify dfyconfig.toml` checks everything.

## How it is built

- **Timers.** `TimerSpec` says what each locked section does to the armed timers. `TimerManager`
  has the objects and the ordered set and is proved against it. `TimerRuns` takes all
  interleavings of these sections, those included in which a section got the lock later than
  another that read the clock after it: a callback is emitted at most once, never after a
  successful cancel; somebody is told at most once between two polls, and as long as nobody has
  been told no timer is due before the latest poll expects one, unless an expiry since then took
  its reading of the clock for a rollback. `TimerAlone` shows that each timer does what it would
  do if there were no other.
- **Event registrations.** `EventTable`, `IoManager` and `EventRuns` do the same for
  `addEvent`, `delEvent`, `cancelEvent`, `cancelAll` and dispatch, with `epoll_ctl` failing
  whenever it likes: the pending counter and the kernel's interest set mirror the table, and
  what was added is waiting, deleted or scheduled, exactly once.
- **The runtime.** `Runtime` puts fibers, workers, run queue, registrations, timers, hooked
  calls and callers from other threads into one transition system, using the functions of
  `TimerSpec`, `EventTable` and `Scheduling`. `RuntimeInv` states the invariant: every fiber that
  is not running has exactly one wake-up in the whole runtime. `RuntimeSteps`, `RuntimeActions`
  and `RuntimeRuns` prove that every step keeps it. `RuntimeQuiescence`, `RuntimeStrands`,
  `RuntimeTimeouts` and `RuntimeEarly` draw the consequences; `RuntimeSleep` says how long a
  sleep lasts, `RuntimeWaits` where a call waits and what wakes it, `RuntimeCalls` how it begins
  and ends; and `RuntimeGuards` shows of four of the system's guards that they exclude nothing.
- **Bytes.** `ByteSpec` is the flat memory and the file a user sees, `ByteArrays` the block list
  with its cursor, `Codec` and `Serial` the number and string formats, `SerialArrays` the typed
  functions, `Streams` the socket stream and its loops.
- **Text.** `Ascii` for bytes as characters, `Url` and `Params`; `ChunkLines` for the lines before
  chunks, their grammar and every way to cut them, `Chunked` for the loops that receive a body.

## What turned out not to hold

Each of these is kept as the code has it, with the exact condition under which the expected
property holds.

- *Shutdown.* `IOManager::stopping` reads the timers, the pending counter and the queue with
  the active count at three different moments (iomanager.cc:317-318), and a fiber that yielded is
  given up from the active count before it is queued again (scheduler.cc:204-207). With two or
  more workers a run can end with a suspended fiber nobody will ever resume: every run ends with
  all fibers finished if and only if there is one worker (`RuntimeStrands.QuiescesWithOneWorker`).
  With any number of workers that is so in every run in which no worker moves while another one
  is between those moments (`RuntimeQuiescence.UndisturbedQuiesces`), and no task is ever left in
  the queue (`RuntimeQuiescence.NoStrandedTask`).
- *Timers at shutdown.* A thread that is no worker can arm a timer between two of the reads and
  then stop the scheduler; the timer stays armed for ever (`RuntimeStrands.LeftArmed`). Every run
  ends with no timer armed and no event registered if and only if there is one worker and nobody
  does that (`RuntimeStrands.TidiesExactly`).
- *Dispatch.* Reported events are triggered without masking them with the registered ones
  (iomanager.cc:405-431). The assertion in `triggerEvent` fails exactly for a report that names
  both a registered event and one taken out since (`IoManager.IOManager.DispatchOne`); registering
  both events of a descriptor and cancelling one before the report is handled is enough
  (`EventRuns.StaleReport`, `IoManager.StaleReport`).
- *Clock rollback.* The subtraction at timer.cc:218 wraps for a previous time within the first
  hour of the epoch; there any step back counts as a rollback (`TimerSpec.RollbackMeaning`). And
  `listExpiredCb` reads the clock before it takes the lock (timer.cc:170), so one that waits for
  the lock while another overtakes it can see a step back of a clock that never went back; by
  more than an hour, or at all within that first hour, and all timers fire at once
  (`TimerRuns.FalseRollback`). A callback comes early exactly if that happens while some timer is
  not yet due (`TimerRuns.EarlyExactly`).
- *Lost wake-ups.* The recurring timers among them are armed again counting from the old reading,
  and nobody is told (timer.cc:204-207). One can then be due before the latest poll expects any
  (`TimerRuns.LostWakeup`): exactly if its period, counted from there, ends before that
  (`TimerRuns.ExpiredExactly`). The next poll puts it right.
- *Early time-outs.* The same makes a call return ETIMEDOUT too early. That happens in no run if
  and only if there is one worker (`RuntimeEarly.NeverEarlyExactly`); with more it can happen only
  to a call during which an expiry took its reading for a rollback
  (`RuntimeTimeouts.NoEarlyTimeout`).
- *Early wake-ups.* The same wakes a sleeper too early, again in no run if and only if there is
  one worker (`RuntimeSleep.NeverWokenEarlyExactly`); otherwise the wake-up stands armed for
  exactly the end of the sleep, and nothing else can wake the fiber (`RuntimeSleep.EverySleep`,
  `RuntimeSleep.SleepsOn`).
- *Short and long sleeps.* `usleep` and `nanosleep` drop what is less than a millisecond; `sleep`
  is right up to 4294967 seconds and `nanosleep` below 2^31 milliseconds, and no further
  (`RuntimeSleep.HooksAskFor`).
- *Timer reset.* Resetting a disarmed timer to the period it already has, not from now, reports
  success (`TimerManager.Timer.Reset`).
- *Empty reads.* `read` of nothing at the end of the last block dereferences the null cursor
  (bytearray.cc:473), so an empty string that ends there cannot be read back
  (`ByteSpec.DoesAsFile`, `Serial.DecodeEncodeAll`).
- *Long strings.* A string whose length does not fit its length type comes back cut short, and
  only such a string does (`Serial.LongString`).
- *Spaces.* Text encoded with plus for space and decoded without comes back exactly if it has no
  space (`Url.RoundTrip`).
- *Chunk-size lines.* The response parser starts over on every call (htttp/http_parser.cc:208-217), so
  a chunk-size line that arrives in two pieces is read as its second piece. For a line of digits
  and a line end, cut anywhere, the size is right exactly if the cut is before the last digit and
  the digits that were lost are zeros (`ChunkLines.CutPlainLine`, `ChunkLines.CutLine`); behind
  the last digit the parser reports an error, except within an extension, where the size can even
  be right by chance (`ChunkLines.CutInExtension`). However many pieces such a line comes in, its
  size is right exactly if every cut is of this harmless kind (`Chunked.PiecesExactly`). If every
  cut the kernel makes is of the harmless kind and every read moves something, the whole body
  arrives (`Chunked.ChunksArrive`).

## Assumptions of the model

Each locked section is one step; so are a fiber's suspension together with the worker's fix-up of
its state, expiry collection together with scheduling, and the size check together with
`contextResize`. What `epoll_ctl`, `epoll_wait`, `recv` and `send` return, the clock, and the
addresses the allocator hands out are parameters; how much each call on a socket moves is a
script fixed beforehand, and a script that has run out means that the peer has closed. In runs
the address of a timer is not used again for another. In the runtime a report of `epoll_wait` is
not stale in the sense above, the clock does not go back, a timer is armed at the moment its
constructor reads the clock, and user code neither calls
`YieldToHold` itself, nor deletes another fiber's registration, nor cancels timers of the hooks,
and nobody registers an event twice, which the code asserts. Threads that are no workers call in
only before `stop`, and do not call `addEvent`, which would leave a registration without a
scheduler (iomanager.cc:160). A time-out closure finds its condition alive exactly while the call
is still going on.

## Model

| member | source | states |
|---|---|---|
| `TimerManager.Timer.Cancel` | timer.cc:14-25 | disarms exactly an armed timer, reports whether it was armed, changes no other; the erase never sees the end of the set |
| `TimerManager.Timer.Refresh` | timer.cc:27-44 | an armed timer is due one period from now and back in its place in the order; a disarmed one is left alone and reported |
| `TimerManager.Timer.Reset` | timer.cc:46-76 | new period counted from now or from the old start; the early return for an unchanged period, which is true even for a disarmed timer; one notification exactly if the timer comes first in its new place and nobody has been tickled |
| `TimerManager.TimerManager.constructor` | timer.cc:102-105 | no timers, not tickled, and the time of construction remembered |
| `TimerManager.TimerManager.AddTimer` | timer.cc:111-132 | arms a timer at now + ms, at any address that is not that of an armed one, and notifies exactly if it is first and nobody has been tickled |
| `TimerManager.TimerManager.InsertAndNotify` | timer.cc:119-132 | the insertion; the bit is set and somebody told exactly if the timer comes first and the bit was clear |
| `TimerManager.TimerManager.LowerBound` | timer.cc:191 | the first timer not before the key, in the order of deadline and address |
| `TimerManager.TimerManager.Unlink` | timer.cc:20-21 | exactly this timer leaves the set |
| `TimerManager.TimerManager.Rekey` | timer.cc:40-41 | a key changes only while its timer is out of the set |
| `TimerManager.TimerManager.Link` | timer.cc:121-122 | back in the set, which stays ordered; whether it is now the first |
| `TimerManager.TimerManager.GetNextTimer` | timer.cc:148-166 | clears the bit; the wait until the first timer of the order, 0 if it is due, none exactly if there is none |
| `TimerManager.TimerManager.ListExpiredCb` | timer.cc:168-213 | the callbacks of exactly the due timers in deadline order, one-shot timers disarmed, recurring ones armed again at now + period, whatever the address of the key object |
| `TimerManager.TimerManager.CountDue` | timer.cc:190-195 | lower_bound and the loop past equal deadlines find exactly the due prefix |
| `TimerManager.TimerManager.CutExpired` | timer.cc:196-197 | exactly the due timers leave the set, in order |
| `TimerManager.TimerManager.Fire` | timer.cc:200-212 | one expired timer: its callback, and disarmed or armed again |
| `TimerManager.TimerManager.FireAll` | timer.cc:190-212 | all of them |
| `TimerManager.TimerManager.DetectClockRollover` | timer.cc:215-224 | the test, with unsigned subtraction, and the remembered time |
| `TimerManager.TimerManager.HasTimer` | timer.cc:226-230 | whether any timer is armed |
| `TimerSpec.RollbackMeaning` | timer.cc:215-224 | exactly when the wrapping test says that the clock went back |
| `TimerSpec.FoundAt` | timer.cc:20-21 | looking up an armed timer by its own key finds it |
| `TimerSpec.InsertedAt` | timer.cc:78-99 | insertion keeps the set ordered and is at the front exactly if the timer comes first |
| `TimerSpec.RefireAllExpires` | timer.cc:196-212 | firing the due timers one by one is what expiry does to the set as a whole |
| `TimerRuns.StepKeeps` | timer.cc:14-213 | every locked section, however late it gets the lock, keeps the four invariants: shape, the bit and the wake-up, at most once, never after cancel |
| `TimerRuns.ToldByAdd` | timer.cc:111-132 | a new timer has somebody told exactly if nobody has been since the latest poll and it is due before all others |
| `TimerRuns.ToldByReset` | timer.cc:46-76 | the same for a timer set to a new time |
| `TimerRuns.EveryRunKeeps` | timer.cc:119-213 | in every run somebody has been told at most once since the latest poll, and the bit says whether; if nobody has and no expiry since then has undercut that poll, every deadline is at or after the one it saw; a one-shot callback is emitted at most once, and none after a successful cancel |
| `TimerRuns.EarlyExactly` | timer.cc:168-197 | an expiry emits some callback before its time if and only if it takes its reading for a rollback while some timer is not yet due |
| `TimerRuns.ExpiredExactly` | timer.cc:188-207 | an expiry keeps every deadline at or after the one the latest poll saw if and only if it does not take its reading for a rollback and arm a recurring timer, counting from there, before that |
| `TimerRuns.FalseRollback` | timer.cc:168-188 | a run under a clock that never goes back in which an expiry that waited for the lock fires a timer early |
| `TimerRuns.LostWakeup` | timer.cc:168-207 | a run after which a timer is overdue, nobody has been tickled, and the latest poll expects nothing for another hour |
| `TimerAlone.EveryRunAlone` | timer.cc:14-213 | in every run, whatever happens to all the others, a timer is armed exactly if it would be as the only one, for the end of its period: a refresh begins the period anew, a reset changes its length and begins it anew only if asked to, an expiry that finds it over begins the next or none |
| `TimerAlone.FiresAlone` | timer.cc:168-213 | an expiry emits a timer's callback exactly if its period is over or the reading of the clock is taken for a rollback, compared with that of the latest expiry that found any timer |
| `Scheduling.Fiber.Reset` | fiber.cc:116-139 | a fiber gets a new function only when it has not started or has ended, and is INIT |
| `Scheduling.Scheduler.Schedule` | scheduler.h:52-65 | one task at the end of the queue, and a tickle exactly if it was empty |
| `Scheduling.Scheduler.ScheduleAll` | scheduler.h:72-88 | the batch in order, and one tickle at most |
| `Scheduling.Scheduler.Take` | scheduler.cc:166-194 | the first task this thread may run leaves the queue and is counted in the same section; when to tickle others |
| `Scheduling.TakenByTheRight` | scheduler.cc:166-194 | whichever threads take tasks in whatever order, none gets a task pinned to another; and when none of them can take any more, exactly those pinned to threads that are not there are left, in their order |
| `Scheduling.Scheduler.Settle` | scheduler.cc:203-213 | what becomes of a fiber that was swapped out, by the state it comes back in |
| `Scheduling.Scheduler.FiberFor` | scheduler.cc:217-224 | the fiber for a function is the worker's own, reset, or a new one; either way INIT |
| `Scheduling.Scheduler.SettleCb` | scheduler.cc:226-241 | the worker keeps its fiber for functions exactly if the function has ended, and then it is INIT |
| `Scheduling.Scheduler.RunTask` | scheduler.cc:201-242 | a task just taken: which fiber runs it, what becomes of that fiber by the way it comes back, and whether it is queued again |
| `Scheduling.Scheduler.Iterate` | scheduler.cc:161-248 | one pass of the worker loop: nothing exactly if no task is for this thread; else the first one leaves the queue, runs unless it is a fiber that has ended, and is back at the end exactly if it yielded; the worker keeps its fiber for functions exactly if the function is over; the active count is as before, no other fiber is touched, and the tickles owed |
| `IoManager.FdContext.TriggerEvent` | iomanager.cc:39-54 | the waiter moves from the context to the run queue and the context is empty |
| `IoManager.FdContext.Fill` | iomanager.cc:155-169 | the emptiness assertion never fails, and the context holds the waiter |
| `IoManager.FdContext.ResetContext` | iomanager.cc:207-209 | the registration is gone and the context empty |
| `IoManager.IOManager.constructor` | iomanager.cc:56-82 | 32 descriptors without registrations |
| `IoManager.IOManager.ContextResize` | iomanager.cc:98-110 | new contexts are empty and numbered, old ones stay, and a smaller size cuts them off |
| `IoManager.IOManager.AddEvent` | iomanager.cc:112-171 | asserts exactly for an event registered already; otherwise fails exactly when the kernel fails, and registers the function given or else the calling fiber |
| `IoManager.IOManager.Extend` | iomanager.cc:139-152 | the operation asked of the kernel is one it accepts |
| `IoManager.IOManager.Shrink` | iomanager.cc:191-204 | the same for taking events out |
| `IoManager.IOManager.DelEvent` | iomanager.cc:173-211 | takes the registration out and wakes nobody |
| `IoManager.IOManager.CancelEvent` | iomanager.cc:214-248 | takes the registration out and queues its waiter |
| `IoManager.IOManager.CancelAll` | iomanager.cc:250-298 | takes all registrations of a descriptor out and queues the waiters, reader first |
| `IoManager.IOManager.DispatchOne` | iomanager.cc:389-431 | one reported descriptor: an error or a hang-up takes every registration of the descriptor, any other report those it names, and exactly their waiters go to the end of the queue, the reader first; the assertion fails exactly for a stale report |
| `IoManager.IOManager.TakeAndWake` | iomanager.cc:410-431 | nothing changes unless the kernel agreed; then the events are out and their waiters queued |
| `IoManager.IOManager.Stopping` | iomanager.cc:315-320 | true exactly if no timer is armed, no event is registered anywhere, and stopped with nothing queued and nobody active; clears the bit that holds back tickles |
| `IoManager.StaleReport` | iomanager.cc:389-431 | registering both events of a descriptor and cancelling one before the report of both is handled makes the assertion fail |
| `EventTable.AddKeeps` | iomanager.cc:139-155 | adding keeps counter and interest set in step, also when `epoll_ctl` fails, and never asks the kernel to add a registered descriptor or modify an unregistered one |
| `EventTable.RemoveKeeps` | iomanager.cc:191-207 | the same for taking events out, which never drives the counter below zero |
| `EventTable.AddMeans` | iomanager.cc:112-169 | afterwards exactly this event has this waiter and all others are as before, unless the kernel refuses; and how large the table is |
| `EventTable.RemoveMeans` | iomanager.cc:173-248 | afterwards exactly this event is not registered, unless the kernel refuses |
| `EventTable.CancelAllMeans` | iomanager.cc:250-298 | afterwards nothing is registered for the descriptor and all others are as before, unless the kernel refuses |
| `EventTable.DispatchMeans` | iomanager.cc:389-431 | a report of an error or a hang-up takes all events of the descriptor, any other those it names, and no others |
| `EventRuns.QueuesTaken` | iomanager.cc:214-431 | each step puts exactly the waiters of the events it takes out behind everything scheduled before, the reader first |
| `EventRuns.StepKeeps` | iomanager.cc:112-298 | every section keeps mirror and conservation |
| `EventRuns.EveryRunKeeps` | iomanager.cc:112-432 | over all interleavings, events added = waiting + deleted + scheduled, and the mirror holds |
| `EventRuns.ExactlyOnce` | iomanager.cc:39-54 | a waiter registered once is in exactly one place and is scheduled at most once |
| `EventRuns.StaleReport` | iomanager.cc:214-248 | a run after which a report that was right when it was made names a registered event and one taken out since |
| `RuntimeInv.Rebalance` | scheduler.cc:147-265 | the count of wake-ups stays right when a step gives and takes them in step with the fibers' states |
| `RuntimeActions.StartSleepKeeps` | hook.cc:196-238 | arming the wake-up before suspending gives the fiber its one wake-up |
| `RuntimeActions.StartTimeoutKeeps` | hook.cc:141-156 | arming a call's time-out moves no wake-up |
| `RuntimeActions.TryRegisterKeeps` | hook.cc:158-169 | registering gives the fiber its one wake-up; when it fails the time-out is cancelled and nothing is left behind |
| `RuntimeActions.WakeUpKeeps` | hook.cc:174-184 | after resuming, cancelling the time-out and trying again, reporting or returning loses no fiber's wake-up |
| `RuntimeActions.CancelAtKeeps` | iomanager.cc:214-248 | cancelling a registration, from anywhere, moves its wake-up to the queue |
| `RuntimeActions.RetimeKeeps` | timer.cc:27-76 | refreshing or resetting a timer, from anywhere, moves no wake-up |
| `RuntimeRuns.GoToSleepKeeps` | fiber.cc:212-218 | a fiber suspended by the hooks has its wake-up |
| `RuntimeRuns.WakeNowKeeps` | hook.cc:205 | the closure of the sleep hooks hands the sleeper to the queue |
| `RuntimeRuns.MarkTimedOutKeeps` | hook.cc:144-152 | marking a call as timed out moves no wake-up |
| `RuntimeRuns.CancelTimeUpKeeps` | hook.cc:153 | cancelling its registration moves the wake-up to the queue |
| `RuntimeRuns.SpawnKeeps` | scheduler.h:52-65 | a new fiber's one wake-up is its queue entry |
| `RuntimeRuns.SideActionKeeps` | scheduler.h:52-88 | whatever a fiber or another thread calls of the public interface - schedule, the cancels, timers - every wake-up is kept |
| `RuntimeRuns.TakeKeeps` | scheduler.cc:187-191 | the wake-up goes from the queue into the worker's hand |
| `RuntimeRuns.BeginKeeps` | scheduler.cc:201-226 | swapping in uses up the wake-up of the fiber |
| `RuntimeRuns.SwapOutKeeps` | scheduler.cc:203-241 | a fiber that yields or suspends leaves with one wake-up |
| `RuntimeRuns.EndKeeps` | scheduler.cc:209-236 | one that has ended leaves with none; the worker's own is INIT again |
| `RuntimeRuns.QueueAgainKeeps` | scheduler.cc:205-208 | the wake-up of a fiber that yielded goes from the worker's hand to the queue |
| `RuntimeRuns.SwapsInSafely` | scheduler.cc:201-203 | a fiber about to be swapped in is INIT, HOLD or READY and nobody else's |
| `RuntimeRuns.ReusesSafely` | scheduler.cc:215-226 | the fiber a function is run on is new or INIT, and this worker's alone |
| `RuntimeRuns.QueueDueKeeps` | iomanager.cc:368-375 | expiry hands the wake-ups of exactly the due timers to the queue |
| `RuntimeRuns.ReportKeeps` | iomanager.cc:378-432 | dispatch moves the wake-ups of the reported registrations to the queue |
| `RuntimeRuns.StepKeeps` | scheduler.cc:147-265 | every step of every worker, fiber and caller keeps the runtime's invariant |
| `RuntimeRuns.EveryRunKeeps` | scheduler.cc:147-265 | the invariant holds in every state of every run, for any number of workers |
| `RuntimeQuiescence.OneOwner` | scheduler.h:127-162 | a suspended fiber has exactly one owner: queue entry, registration, timer or worker's hand |
| `RuntimeQuiescence.OneRunner` | scheduler.cc:181-191 | no fiber runs on two workers, and the active count is the number of workers between take and give-up |
| `RuntimeQuiescence.NoStrandedTask` | scheduler.cc:250-254 | when the last worker has left, the queue is empty |
| `RuntimeQuiescence.StaysClosed` | scheduler.cc:272-276 | once stopped with no task, no active worker, no timer and no event, nothing ever comes back, whatever anybody does |
| `RuntimeQuiescence.UndisturbedQuiesces` | iomanager.cc:315-320 | in undisturbed runs, from the end of the last idle fiber on, every fiber has finished and no event is registered, whatever other threads did before |
| `RuntimeQuiescence.UndisturbedCloses` | iomanager.cc:315-320 | if besides no other thread arms a timer while a worker looks, nothing is left anywhere from the end of the first idle fiber on |
| `RuntimeQuiescence.OneWorkerQuiesces` | iomanager.cc:315-343 | with one worker every run ends with every fiber finished and every task taken, whatever other threads do |
| `RuntimeStrands.Stranded` | scheduler.cc:204-208 | with two or more workers, a run that ends with a sleeping fiber and no worker |
| `RuntimeStrands.QuiescesWithOneWorker` | iomanager.cc:315-320 | every run ends with all fibers finished and all tasks taken if and only if there is one worker |
| `RuntimeStrands.LeftArmed` | iomanager.cc:317-318 | with one worker, a run that ends with a timer armed that another thread added between two of the reads |
| `RuntimeStrands.TidiesExactly` | iomanager.cc:315-320 | every run ends with no timer armed and no event registered if and only if there is one worker and no other thread arms a timer while it looks |
| `RuntimeGuards.GuardsHold` | hook.cc:125-186 | in every run a fiber a worker holds exists, the call it is in is recorded, the table can grow and a reset counts from no time before zero: these four guards of the transition system exclude nothing |
| `RuntimeTimeouts.StepTimely` | hook.cc:135-186 | every step keeps: a time-out closure is due, queued or running only when the time of its call is over or an expiry during the call took its reading for a rollback |
| `RuntimeTimeouts.ActionTimers` | hook.cc:141-156 | a time-out is armed for a time not before the start of its call plus the configured time |
| `RuntimeTimeouts.ActionCalls` | hook.cc:144-183 | a call is marked only by a closure whose time is over, and reports a time-out only if marked |
| `RuntimeTimeouts.MarksItsOwn` | hook.cc:144-153 | a closure that marks a call goes on to cancel just the registration of that call; one whose call is over or marked already does nothing |
| `RuntimeTimeouts.NoEarlyTimeout` | hook.cc:174-183 | in every run, ETIMEDOUT is returned only after the configured time, or to a call during which an expiry took its reading of the clock for a rollback |
| `RuntimeEarly.OneWorkerNeverEarly` | iomanager.cc:335-368 | with one worker the readings come in order and ETIMEDOUT is never early |
| `RuntimeEarly.TimesOutEarly` | timer.cc:168-197 | with two or more workers, a run in which a call with a time-out returns ETIMEDOUT in the millisecond in which it began |
| `RuntimeEarly.NeverEarlyExactly` | hook.cc:174-183 | ETIMEDOUT is never early, in every run, if and only if there is one worker, as long as the clock, a number of 64 bits, can still advance by an hour |
| `RuntimeSleep.HooksAskFor` | hook.cc:196-238 | what sleep, usleep and nanosleep ask for, and exactly when that is the duration they were given |
| `RuntimeSleep.EverySleep` | hook.cc:196-238 | in every run, from when a fiber falls asleep on, either its wake-up stands armed for exactly the start plus the duration while the fiber rests, or it has gone off, at that time or later or after a reading of the clock, during the sleep, that was taken for a rollback |
| `RuntimeSleep.SleepsOn` | hook.cc:205-207 | while it stands armed nothing else will wake the fiber, and the fiber does nothing before it has gone off |
| `RuntimeSleep.OneWorkerSleepsOn` | iomanager.cc:335-368 | with one worker no sleeper is woken before its time |
| `RuntimeSleep.WakesEarly` | timer.cc:168-197 | with two or more workers, a run in which a fiber is woken in the millisecond in which it fell asleep for one |
| `RuntimeSleep.NeverWokenEarlyExactly` | hook.cc:196-238 | no sleeper is woken early, in every run, if and only if there is one worker, as long as the clock can still advance by an hour |
| `RuntimeWaits.EveryRunParked` | hook.cc:158-174 | in every run a fiber that is registered for an event is in a call for just that descriptor and event |
| `RuntimeWaits.EveryTimeout` | hook.cc:141-156 | in every run the time-out of an attempt stands armed for exactly the configured time from when it was armed, and for its own call, descriptor and event, as long as it stands armed |
| `RuntimeWaits.TimeUpWakes` | hook.cc:144-156 | when the closure of a time-out cancels, whoever is registered there is in that call, is registered no more and is queued last |
| `RuntimeWaits.ExpiryQueues` | iomanager.cc:368-375 | an expiry queues the callbacks of the due timers in their order behind everything else |
| `RuntimeWaits.ReportQueues` | iomanager.cc:389-431 | a report takes the events it names, or all if it is an error or a hang-up, and queues exactly their waiters, the reader first |
| `RuntimeWaits.SideDoes` | scheduler.h:52-88 | what scheduling, cancelling and arming, by a fiber or from outside, put on the queue and into the set of timers |
| `RuntimeWaits.TakesAndRuns` | scheduler.cc:186-226 | what a worker takes off the queue is what it then runs: the fiber itself unless it has ended, or the function, on the worker's own fiber or a new one |
| `RuntimeCalls.NoTimeoutOutlives` | hook.cc:141-177 | in every run a time-out stands armed only while a fiber is in its call and holds it |
| `RuntimeCalls.CallEnds` | hook.cc:158-186 | a call ends exactly when it fails to register, or is resumed and has been marked, which is reported, or has a result; else it tries again |
| `RuntimeCalls.EveryReport` | hook.cc:125-183 | in every run, each reported time-out has a step that began the call at the time and with the time-out it names, and a later one that reported it at the time it names |
| `ByteArrays.ByteArray.CursorIs` | bytearray.h:167-186 | the cursor is the block at position / block size, null exactly at the end |
| `ByteArrays.ByteArray.constructor` | bytearray.cc:31-33 | one empty block, big endian |
| `ByteArrays.ByteArray.SetIsLittleEndian` | bytearray.cc:51-61 | changes the byte order and nothing else |
| `ByteArrays.ByteArray.AddCapacity` | bytearray.cc:609-645 | enough whole blocks and no more, and the cursor set if it was null |
| `ByteArrays.ByteArray.Write` | bytearray.cc:415-461 | the bytes lie at the old position in the flat memory, position and size follow |
| `ByteArrays.ByteArray.Read` | bytearray.cc:466-499 | the bytes from the position on; throws exactly if there are too few; the null cursor exactly at the end of the memory |
| `ByteArrays.ByteArray.SetPosition` | bytearray.cc:538-559 | throws exactly beyond the capacity; the size follows the position |
| `ByteArrays.ByteArray.Clear` | bytearray.cc:400-413 | one block and nothing in it |
| `ByteArrays.ByteArray.GetReadBuffers` | bytearray.cc:678-712 | vectors that together are exactly the readable bytes asked for |
| `ByteArrays.ByteArray.GetWriteBuffers` | bytearray.cc:757-785 | room for the bytes asked for, as vectors |
| `ByteArrays.ByteArray.CoversMeans` | bytearray.cc:678-785 | the vectors lie within blocks, do not overlap, and concatenate to the bytes at the position |
| `ByteArrays.ByteArray.Fill` | socket_stream.cc:41 | filling the leading bytes of the vectors is writing them at the position |
| `ByteSpec.GrowthFits` | bytearray.cc:615-623 | the exact ceiling: room for all, and less than one block too much |
| `ByteSpec.FlatPut` | bytearray.cc:434-447 | writing into a block is writing into the flat memory |
| `ByteSpec.SlicesCover` | bytearray.cc:692-710 | the pieces, in order, are the bytes asked for |
| `ByteSpec.SlicesApart` | bytearray.cc:692-710 | every piece lies in a block of its own |
| `ByteSpec.DoesAsFile` | bytearray.cc:400-559 | an operation does what it does to a flat file exactly if it is not an empty read at the end of the memory; a move past the size extends the file |
| `ByteSpec.RunIsFile` | bytearray.cc:400-559 | every run of write, read, setPosition and clear without that one read shows what the same run on one flat file shows, whatever the block size |
| `Codec.StoredIsPortable` | bytearray.cc:73-126 | the bytes written depend on the chosen byte order alone, not on the machine |
| `Codec.LoadedIsPortable` | bytearray.cc:259-296 | nor does the number read back |
| `Codec.MemorySpells` | endian.h:14-36 | byte i in memory is the i-th of the number in base 256, counted from the lowest on a little-endian machine and from the highest on a big-endian one |
| `Codec.LoadedSpells` | endian.h:14-36 | and so is the number read from any bytes |
| `Codec.SwappedBytes` | endian.h:14-36 | byteswap puts every byte at the other end |
| `Codec.VarintBytes` | bytearray.cc:170-200 | byte i of a varint holds the i-th group of seven bits, the lowest first, and its top bit is set exactly if more follow, as many as the number needs |
| `Codec.SwappedTwice` | endian.h:14-36 | swapping twice is nothing |
| `Codec.VarintFits` | bytearray.cc:170-200 | 5 and 10 bytes are enough |
| `Codec.ZigzagMeaning` | bytearray.cc:129-151 | the wrapping code is -2v - 1 or 2v, and decodes to v, the least number included |
| `Codec.TurnedOver` | bytearray.cc:153-162 | for every width, the exclusive or with the wrapping mask is half the code or that with every bit turned over |
| `Codec.UnzigzagRoundTrip` | bytearray.cc:153-162 | every code is the code of what it decodes to |
| `Codec.SignedRoundTrip` | bytearray.cc:268-291 | signed numbers come back from their two's complement |
| `Serial.VarintPrefixFree` | bytearray.cc:170-200 | no varint is the beginning of another |
| `Serial.VarintAhead` | bytearray.cc:305-346 | the reader gets the number back from any place in its code |
| `Serial.VarintStops` | bytearray.cc:305-346 | of a code that never ends, 5 bytes are read for 32 bits and 10 for 64 |
| `Serial.DecodeEncode` | bytearray.cc:63-398 | every typed value is read back, except an empty string that ends at the end of the memory |
| `Serial.LongString` | bytearray.cc:216-226 | a string comes back exactly if its length fits |
| `Serial.DecodeEncodeAll` | bytearray.cc:63-398 | a list of values is read back with the same list of types and ends where it ended, exactly if no empty string ends at the end of the memory |
| `Serial.RoundTrip` | bytearray.cc:63-398 | the same for memory that is there already: write, take the position back, read |
| `SerialArrays.WriteStringFixed` | bytearray.cc:216-232 | the length, cut off to its type, and the bytes |
| `SerialArrays.WriteStringVint` | bytearray.cc:234-238 | the length as a varint and the bytes |
| `SerialArrays.WriteWord` | bytearray.cc:63-126 | the bytes of the number at the old position, the lowest first if the array is little endian and else the highest, on any machine |
| `SerialArrays.WriteVarint` | bytearray.cc:165-200 | the varint, within the buffer of 5 or 10 bytes |
| `SerialArrays.WriteValue` | bytearray.cc:63-238 | each write function writes its code |
| `SerialArrays.ReadWord` | bytearray.cc:245-296 | the number whose bytes these are, the lowest first if the array is little endian and else the highest, on any machine |
| `SerialArrays.ReadVarint` | bytearray.cc:305-346 | the loop, with its bound, its truncation and its failures |
| `SerialArrays.ReadValue` | bytearray.cc:245-398 | each read function reads its type |
| `SerialArrays.WriteAll` | bytearray.cc:63-238 | writing values one after the other writes their codes one after the other, growing as needed |
| `SerialArrays.ReadAll` | bytearray.cc:245-398 | reading types one after the other |
| `SerialArrays.RoundTrip` | bytearray.cc:63-398 | any list of typed values, written to an array that grows as it needs, comes back after `setPosition`, on any machine and in either byte order, exactly if no empty string ends at the end of the memory |
| `Streams.SocketStream.Read` | socket_stream.cc:33-47 | what the call moved lies at the old position and the position is behind it; a failure adds capacity at most |
| `Streams.SocketStream.Write` | socket_stream.cc:58-72 | what went out lay at the old position and the position is behind it |
| `Streams.SocketStream.FillUp` | socket_stream.cc:41-45 | filling the leading bytes of the write vectors and moving the position behind them is writing those bytes |
| `Streams.SocketStream.ReadFixSize` | stream.cc:23-36 | how many bytes come in is the least of what is wanted, what is there and what the calls move before one fails; they are stored at the position and all other bytes are as before; the result is the length exactly if they are all that were wanted |
| `Streams.SocketStream.WriteFixSize` | stream.cc:56-69 | the same for sending from the position on, in order |
| `Streams.SocketStream.ReadBytes` | socket_stream.cc:24-31 | what came in is stored at the offset |
| `Streams.SocketStream.WriteBytes` | socket_stream.cc:49-56 | what went out lay at the offset |
| `Streams.SocketStream.ReadFixSizeBytes` | stream.cc:6-21 | the same into a plain buffer |
| `Streams.SocketStream.WriteFixSizeBytes` | stream.cc:38-54 | the same from a plain buffer |
| `Streams.WrittenDelivers` | stream.cc:23-69 | the receiver holds the sender's bytes at its position and all its others as before |
| `Streams.SteadyMoves` | stream.cc:6-69 | as long as every call moves something, all that is wanted and there gets moved |
| `Streams.Transfer` | stream.cc:23-69 | sending and receiving end to end succeeds exactly if the sender has the bytes and both kernels move them in positive amounts, and then delivers them, whatever the block sizes and however the stream is cut |
| `Url.UrlEncode` | util.cc:158-188 | the form with the lazily made buffer equals the map byte by byte |
| `Url.UrlDecode` | util.cc:190-220 | the same for decoding |
| `Url.RoundTrip` | util.cc:158-220 | decoding undoes encoding exactly if plus is read as space, or space is not written as plus, or there is none |
| `Url.EncodedAlphabet` | util.cc:113-134 | an encoding has no separators in it |
| `Url.EncodedMeans` | util.cc:113-188 | which bytes stay, and for any other a percent sign and its two digits in upper case |
| `Url.DecodedEscape` | util.cc:136-220 | a percent sign and the two digits of any byte, in either case, decode to that byte |
| `Url.DecodedKept` | util.cc:190-220 | anything else stays as it is, but for a plus that is read as a space |
| `Url.TrimMeaning` | util.cc:222-230 | takes away the outer delimiters and nothing else |
| `Params.Parse` | htttp/http.cc:255-271 | the loop ends and inserts the entries one by one, first come first kept |
| `Params.LookupFirst` | htttp/http.cc:61-64 | a key finds the first entry that equals it but for case |
| `Params.FoldedMeans` | htttp/http.cc:61-64 | two keys are the same exactly if up to the first NUL they are the same but for the case of letters |
| `Params.FirstMeans` | htttp/http.cc:61-64 | the entry found is the first whose key is the same in that sense, and none is found exactly if there is none |
| `Params.EntriesOfRaw` | htttp/http.cc:255-271 | any text, cut at each first separator behind each first equals sign, parses to the pieces: keys without outer blanks, values decoded, and nothing for a tail without equals sign |
| `Params.CutUp` | htttp/http.cc:255-271 | and every text can be cut so |
| `Params.EntriesOfText` | htttp/http.cc:255-271 | parsing the text of a list of pairs gives the pairs with their original values |
| `Params.ParsedText` | htttp/http.cc:89-95 | for every list of sendable keys with encoded values, each key finds the value of its first pair |
| `Params.HttpRequest.InitQueryParam` | htttp/http.cc:247-275 | the query is parsed once |
| `Params.HttpRequest.InitBodyParam` | htttp/http.cc:277-291 | the body is parsed once, and only if the content type, in any case, contains that of a form |
| `Params.FormMeans` | htttp/http.cc:283-284 | the body is a form exactly if its content type, up to the first NUL, has the form type somewhere in it, in letters of either case |
| `Params.HttpRequest.GetParam` | htttp/http.cc:89-95 | the value or the default, after both parts have been parsed |
| `Params.HttpRequest.SetParam` | htttp/http.cc:109-112 | sets this key and no other |
| `Params.QueryBeforeBody` | htttp/http.cc:89-95 | a parameter of the query hides one of the body |
| `ChunkLines.ScanOn` | htttp/httpclient_parser.rl:150-154 | what follows a line cannot change how it is read, extensions included |
| `ChunkLines.LineExactly` | htttp/httpclient_parser.rl:150-154 | the machine accepts a text as a line of some size exactly if it is a numeral for that size in base 16, in either case, extensions of tokens with or without values, and a line end |
| `ChunkLines.ScanExactly` | htttp/httpclient_parser.rl:150-154 | of any bytes: they begin with a line and it is that, or something can be appended that makes them one, or it is an error |
| `ChunkLines.NumeralLine` | htttp/httpclient_parser.rl:95-98 | for every number its numeral, in capitals or small letters, and a line end are read as a line of that size, whatever follows |
| `ChunkLines.TokenMeans` | htttp/httpclient_parser.rl:123-126 | the characters of a token |
| `ChunkLines.CutIsForgotten` | htttp/http_parser.cc:208-217 | of a line that ends behind the buffer the parser has seen only the beginning, which it forgets |
| `ChunkLines.ZerosDoNotMatter` | htttp/httpclient_parser.rl:95-98 | zeros lost before another digit change nothing that is read |
| `ChunkLines.CutPlainLine` | htttp/http_parser.cc:208-217 | for every cut of a line of digits and a line end, the rest is read as a line of the right size exactly if the cut is before the last digit and the lost digits are zeros |
| `ChunkLines.CutLine` | htttp/http_parser.cc:208-217 | for every cut of any line, the rest is read as the line it is by itself; within the digits that has the right size exactly if the lost ones are zeros, and right behind them it is an error |
| `ChunkLines.CutInExtension` | htttp/http_parser.cc:208-217 | a line cut within its extension whose size is right by chance |
| `ChunkLines.HarmlessCut` | htttp/http_parser.cc:208-217 | the cuts the loops are proved for are, within lines of digits, exactly those that leave the size right |
| `Chunked.ChunkParser.Execute` | htttp/http_parser.cc:208-217 | what the parser consumed is moved out of the buffer, a beginning of a line included |
| `Chunked.ReadLine` | htttp/http_connection.cc:72-98 | the inner loop comes to what LineOf says of the buffer, the stream and the kernel's cuts: line, error or end |
| `Chunked.LineRight` | htttp/http_connection.cc:72-98 | if nothing that matters was forgotten, that line is the one the stream begins with and exactly it has been used; and if every read moves something, the loop ends early only for a stream that ends early |
| `Chunked.PiecesExactly` | htttp/http_connection.cc:72-98 | for a line of digits and a line end that comes in any number of pieces, the size found is the right one if and only if every cut is harmless, and it is never larger |
| `Chunked.Direct` | htttp/http_connection.cc:108-120 | the branch that reads straight from the wire takes exactly the bytes that are missing, or ends when a read fails |
| `Chunked.TakeData` | htttp/http_connection.cc:101-123 | the chunk's data, and the stream continues exactly behind its line end, also when it is read straight from the wire |
| `Chunked.TakeArrives` | htttp/http_connection.cc:101-123 | if every read moves something, the data comes exactly if it is there |
| `Chunked.ReceiveChunks` | htttp/http_connection.cc:68-125 | the chunk loop comes to what ChunksOf says of the buffer, the stream and the kernel's cuts: the body and the stream left, an error, or the end |
| `Chunked.ChunksRight` | htttp/http_connection.cc:68-125 | if nothing that matters was forgotten, a body received is the one the stream stands for and exactly its bytes are used, and an error means there is none; if besides every read moves something, the body arrives exactly if it is there |
| `Chunked.BodyOfText` | htttp/http_connection.cc:71-124 | de-chunking undoes chunking, for every list of non-empty chunks whose lines are of the grammar |
| `Chunked.NumeralChunk` | htttp/httpclient_parser.rl:95-98 | for any data, the numeral of its length in either case, a line end and the data are a chunk |
| `Chunked.ChunksArrive` | htttp/http_connection.cc:68-125 | so for every list of chunks sent, the body received is their concatenation and what follows is untouched |
| `Chunked.ReceiveLength` | htttp/http_connection.cc:126-153 | a body of the announced length, from the buffer and the wire, exactly if the calls move it |
| `Chunked.LengthArrives` | htttp/http_connection.cc:126-153 | if every read moves something, that is exactly if it is there |

## Left out

- The HTTP and URI state machines, which are generated tables; the one of chunk-size lines is written as a function of its states.
- Real sockets, epoll, contexts, locks, symbol hooking and name resolution; they are parameters and atomic steps.
- Thread-pinned tasks in the runtime (`Scheduling.Scheduler.Take` has them), `switchTo`, and the caller's own fiber as a worker.
- Fibers that call `YieldToHold` themselves, and `delEvent` on another fiber's registration: both can lose a wake-up by design.
- That a time-out always comes in the end: one that fires between arming and registering cancels nothing (hook.cc:143-158).
- Registrations whose waiter belongs to another scheduler, and closing a descriptor, which removes it from the kernel's interest set.
- The bound of 256 reports a poll returns and the wait times handed to `epoll_wait`, which decide when something is reported but not what is done with it.
- 64-bit overflow of deadlines, sizes and positions, and chunk sizes beyond an `int`.
- `read` and `getReadBuffers` with a position and `writeToFile`, which are right only within the cursor's block.
- Floats and doubles, which are the fixed-width functions on their bit patterns; `toString`, `toHexString` and file IO.
- `connect_with_timeout` as a function of its own: it registers once as a call of do_io that does not try again.
- Cookies, which go through the same parse loop with a semicolon; gzip and deflate; wide strings; `TrimRight`.
- IoManager.IOManager.constructor: leaves out the pipe used for tickling, its registration with epoll, and the start of the workers.
- Chunked.ChunkParser.Execute: a status line, which the machine also accepts where a chunk-size line is expected, counts as malformed.
- Chunked.ChunksRight: says nothing about the body when a cut in a line was not harmless, because the parser then reads whatever follows as a size.
- Streams.SocketStream.Write: with nothing to read the code passes the address of an empty vector to the kernel; the model sends nothing.
- Streams.SocketStream.Read: with a length of 0 the code does the same; the model receives nothing.
