# A verified model of the asyncr runtime

`asyncr` is a single-threaded async runtime: `block_on` polls a root future and the tasks it
spawns, woken through a FIFO channel, timed by a heap-based timer driver, joined through one-shot
cells. Four state machines share this work. The project models each of them and their
composition, and proves what they promise together:

* on a fresh runtime with a paused clock, every sequence of spawns and `block_on` calls on
  programs that never park runs to the end, as long as every thread that decides on a send
  performs it some time. Each call returns the value its program denotes, never before start plus
  critical path, whatever order the channel is emptied in, whatever other threads wake and whatever
  detached tasks earlier calls have left behind (`VirtualTime.SessionsEnd`);
* each call returns at exactly start plus critical path if threads send promptly, before the
  executor's next step (`VirtualTime.VirtualTimeIsCriticalPath`). Without that the exact time is
  not a property of the code: a wake changes the schedule under its lock and sends after releasing
  it, and while a thread is between the two, a paused clock can move past the task it has woken; a
  delay over a single step is enough (`Delays.DelayedSendIsLate`);
* what holds for every delay is this: a call returns at exactly start plus critical path plus the
  sum of what the jumps of the clock add to the root's forecast, so on time if and only if no jump
  moves the forecast (`Forecasts.ReturnTimeIsExact`). A jump can move it only past a stalled task,
  one whose wait is over and whose wake is still in flight (`Forecasts.JumpSlips`,
  `WaitInvariant.StalledTaskIsReady`); and it changes no task's end, whatever the tasks go on to do
  after the waits they are in, if and only if none is stalled (`WaitInvariant.JumpIsSafeIff`);
* on any clock, `block_on` ends within an explicit bound or reaches a state in which only a future
  that parked without arranging a wake, or a thread that never sends, can be the reason; no internal
  `expect`, `assert!` or `unreachable!` fires, and the root is never earlier than its critical path
  (`VirtualTime.BlockOnEnds`);
* every join cell says what the program of its task denotes, from the time it was spawned, and on a
  paused clock resolves at that very time (`RunProperties.CellsTellTheTruth`, `ResolvesWhenDue`);
* every round of every run does what the polled future's program asks for and nothing else: which
  instructions it gets past and where it stops, whom it wakes, what it spawns and how long it takes
  is read off the program, and the ids it rouses go to the end of the channel in that order
  (`RoundEffects.RoundsFollowPrograms`); so a task it wakes, parked or not, is received after
  exactly those that stand before it (`RoundEffects.WokenIsServed`);
* every wait finds the tasks whose deadlines have passed in the channel, earliest first and behind
  what was there, and one with nothing else to wait for ends exactly at the earliest live deadline
  (`WaitEffects.WaitTakesExpired`, `QuietWaitEnds`);
* the wake/poll protocol keeps one token per queued task under every interleaving of its lock,
  send, receive and poll steps, refines a one-bit notification, and serves every token within a
  bounded number of receives (`WakeProtocol`);
* the lazy heap refines a plain map of registrations; sleeps own their registrations over every
  run; join cells resolve once; intervals keep rate and phase.

`dafny verify dfyconfig.toml` checks the whole project.

## How the model is built

| Files | Content |
|---|---|
| `TimerSpec`, `ScheduleState`, `JoinSpec`, `Programs`, `TaskIds` | specifications: registrations as a map, the scheduling states, join cells, programs and their meaning in virtual time, the id sequence |
| `Clock`, `TimerDriver`, `Sleep`, `Interval`, `TaskSchedule`, `JoinHandle` | one class per source object, each method proved against those specifications |
| `WakeProtocol`, `SleepSystem`, and the run sections of `Interval` and `JoinHandle` | all interleavings or all runs of one component; the class methods state that they are steps of these systems |
| `ExecutorSpec` | the composed runtime as one value `World`, and every operation on it |
| `Executor` | the imperative executor; each method's contract equates its new state with the operation on the old one |
| `Invariant`, `PollInvariant`, `TurnInvariant`, `WaitInvariant` | the joint invariant and its preservation by every instruction, poll and wait |
| `Agreement` | the composed runtime does to a join cell and to a sleep what the components do on their own |
| `VirtualTime`, `Forecast`, `RunProperties`, `Shutdown`, `Delay` | theorems about whole runs |
| `PollEffects`, `RoundEffects`, `WaitEffects` | what a poll, a round and a wait do to the channel, the schedules, the clock and the other tasks, stated on programs, positions and literal values |

A future is a `Program`: the instructions an observer sees it perform (`Sleep`, `Spawn`, `Join`,
`Yield`, `Wake`, `Busy`, `Park`, `Return`, `Panic`). `Programs.Finish` gives its meaning by
recursion on the program alone: sleeping adds, joining takes the maximum. Nothing in it mentions
the executor, so it is an independent reference for what `block_on` computes.

The outside world is a list of `Event`s, one for every step of the wait loop and one for every
poll: how much real time passes, which locks other threads take and which sends they perform, in
any order and with any delay between a lock and its send, and which channel entry is received next.
`World.unsent` holds the ids of sends that have been decided on and not performed. Theorems
quantify over all such lists. `pick` makes the termination and timing theorems hold for every
receive order; the channel itself is a queue, which the class `Executor` and the ordering theorems
use (`InOrder`). `Prompt` environments leave no send open at the end of an event; `OpenAfter` is
what an environment leaves open for good.

Three fields of a world only record what has happened. `fault`: an `expect`, `assert!` or
`unreachable!` of the runtime has fired; it is never cleared, so `!fault` at the end says that none
has. `overtaken`: how often a paused clock was moved while the wake of some task was in flight and
neither a timer nor an unresolved cell held its waker any more. `origins`: which program each join cell's task was spawned with, and
when. `Ghost.hist` says for every join cell which task publishes to it and who was given its
handle, `Ghost.kept` which handles are held outside; `Ghost.reserve` is an upper bound on work not
yet submitted, which keeps the 64-bit counters from coming round. `Ghost.since` and
`Ghost.faithful` say at which count of overtaken wakes the promised ends were fixed, and whether
each was fixed when its task was spawned. `Quiet` and `Good` are the
invariant between calls and between rounds; `NewIsQuiet`, `SubmitKeeps`, `StartKeeps` and
`BlockOnEnds` show that every state a client can produce satisfies them.

## Assumptions

* The clock never goes backwards; time is a number of nanoseconds.
* A waker is an identity; waking it only requests scheduling. Cloning it does not matter.
* Destructors do not unwind, and do not call back into the runtime.
* Handles stay on the executor's thread (`Handle` contains an `Rc`).
* Whole-run theorems: fewer than 2^64 ids in all, stated as a bound on the work of the programs
  (`TotalWork`, `reserve`). What goes wrong beyond it is stated too (`RegisteringNeedsFreeId`,
  `StaleIdStealsRegistration`).
* The paused clock and its automatic advance are compiled for the repository's own unit tests
  only; on a running clock, and after a wake in flight has been overtaken, the same invariant holds
  with "not earlier" in place of "exactly".

## Model

| member | source | states |
|---|---|---|
| `VirtualTime.VirtualTimeIsCriticalPath` | src/executor.rs:54-112 | Fresh runtime, paused clock, threads that send promptly, any sequence of outside spawns and `block_on` calls on park-free programs: every call returns, with the program's value, at exactly start plus critical path |
| `VirtualTime.SessionsEnd` | src/scheduling/mod.rs:54-62 | The same for every delay between a lock and its send, as long as each is performed some time: every call returns the program's value, not before start plus critical path, and exactly then until the clock overtakes a wake in flight |
| `Delays.DelayedSendIsLate` | src/executor.rs:81-94 | The exact time fails without promptness: one program, one wake; the root returns on time if the thread sends at once, and at another task's deadline if it is held up over a single step of the wait, for all deadlines and however late in the run |
| `Forecasts.ReturnTimeIsExact` | src/executor.rs:54-112 | Any call on a paused clock from any client-reachable state, any delay of sends: it returns at exactly start plus critical path plus the sum of what the jumps add to the forecast, each not negative; on time if and only if no jump moves the forecast |
| `Forecasts.FirstCallIsExact` | src/executor.rs:54-112 | The same for the first call on a new runtime, with nothing presupposed |
| `Forecasts.ForecastHolds` | src/executor.rs:63-73 | From any reachable point of a run: the call returns at the forecast of that point plus what later jumps add, so never before it, and at it if and only if no later jump moves it |
| `Forecasts.JumpSlips` | src/executor.rs:91-94 | A jump of a paused clock moves the forecast on or leaves it, and leaves it unless a task is stalled |
| `WaitInvariant.StalledTaskIsReady` | src/scheduling/mod.rs:54-62 | A stalled task is past its deadline or at a join on a resolved cell: only the send keeps it from going on |
| `WaitInvariant.JumpIsSafeIff` | src/executor.rs:91-94 | The jump to the next deadline changes no task's end, whatever its program goes on to do after the wait it is in, if and only if no task is stalled |
| `VirtualTime.SessionOnTime` | src/runtime.rs:395-421 | The same from any reachable state between calls, with detached tasks and sends in flight left over; each call takes any of the kept handles, and the others stay with the caller and can be awaited in a later call |
| `VirtualTime.BlockOnEnds` | src/executor.rs:54-74 | Any clock, any environment, any delay of sends, any receive order: ends within an explicit number of rounds; the outcome is the program's and not earlier than its critical path, exact on a paused clock that overtook nothing; no runtime check fires; blocking for good needs a parked future or a send that is never performed |
| `VirtualTime.TurnKeeps` | src/executor.rs:63-73 | One round of the loop, with other threads acting before, between and during its steps, keeps the invariant and makes the remaining effort smaller |
| `VirtualTime.DriveMore` | src/executor.rs:63-73 | The bound on rounds is immaterial: once a run has ended, more rounds change nothing |
| `VirtualTime.NeverStuck` | src/executor.rs:76-112 | No park, nothing in the channel or in flight and no timer contradict an incomplete root: joins cannot form a cycle |
| `VirtualTime.StartKeeps` | src/executor.rs:54-61 | A new root joins whatever earlier calls left, with the meaning its program has now |
| `VirtualTime.SubmitKeeps` | src/executor.rs:149-169 | A task spawned from outside gets an unused id, one token and an unresolved cell, and is recorded with its program and time; the caller holds its handle |
| `VirtualTime.SpawnsTakeIdsInOrder` | src/executor.rs:149-179 | Any number of spawns on a new runtime: the k-th task gets the k-th id of the sequence, a schedule, an unresolved cell and one token, each behind those before it |
| `VirtualTime.NewIsQuiet` | src/executor.rs:30-52 | The empty runtime satisfies the invariant |
| `PollInvariant.PollKeeps` | src/scheduling/mod.rs:27-52 | One poll of any future keeps the joint invariant, spends its work, and ends armed, noted or resolved as its program predicts |
| `PollInvariant.SpawnKeeps` | src/handle.rs:27-45 | A spawn inside a poll adds one queued task, its unresolved cell, and the end its program will have; nobody else changes |
| `PollInvariant.PollJoin` | src/join.rs:20-45 | Awaiting a child either leaves the task's waker in the child's unresolved cell or takes the result the child's program denotes |
| `PollInvariant.PollAsleep` | src/time/sleep.rs:70-93 | Polling a sleep again finds its registration or a passed deadline: `update_waker`'s check cannot fail |
| `TurnInvariant.PollTaskKeeps` | src/executor.rs:114-125 | A received id is admitted, and polling it keeps the invariant whether the task stays or leaves |
| `TurnInvariant.PollRootKeeps` | src/executor.rs:66-72 | The root's poll continues, returns on course, or unwinds, and in each case leaves a sound state |
| `TurnInvariant.ResolveKeeps` | src/handle.rs:35-40 | A finished task drops its handles, leaves `Ok` with its value or `Err(Panic)` in its cell, wakes the waiter, and goes; the rest is on course |
| `TurnInvariant.DetachKeeps` | src/join.rs:48-54 | Dropping the handles a finished future still holds takes nobody else's waker away |
| `WaitInvariant.NextReadyKeeps` | src/executor.rs:76-112 | The wait loop ends for every environment and every delay of sends, keeps the population, and returns a live task's id or a state with an empty channel and no timers |
| `WaitInvariant.ExpireKeeps` | src/time/driver.rs:114-141 | Expiry wakes every task whose timer it removes; nobody is left idle without a waker in place |
| `WaitInvariant.JumpKeeps` | src/executor.rs:91-94 | The jump of a paused clock keeps the invariant with sends in flight: ends stay exact if nobody is stalled, and stay lower bounds otherwise |
| `Invariant.ActAllKeeps` | src/scheduling/mod.rs:54-62 | Any sequence of locks and sends by other threads, before or during a poll, keeps the invariant: a task's one token is in the channel or in flight |
| `WaitInvariant.FinAhead` | src/join.rs:27-30 | While nothing can run and nobody is stalled, every unresolved cell ends no earlier than the next deadline: follow the joins down to a sleep |
| `RunProperties.NobodyStranded` | src/executor.rs:76-125 | At every point of every run each live task that is not parked has exactly one token, in the channel or in flight, or a live timer with its waker at its deadline, or its waker in the unresolved cell it awaits; without parks in the programs no task is parked |
| `RunProperties.ChannelNamesLiveTasks` | src/executor.rs:114-118 | The channel and the sends in flight name live tasks only, each once between them, and a task is admitted before its id is received |
| `RunProperties.CompletedStaysGone` | src/executor.rs:120-124 | A completed id never reappears in the table, in the channel or in flight |
| `RunProperties.DeadWakerIsInert` | src/scheduling/mod.rs:54-62 | At every point of every run a waker whose task is gone enqueues nothing and touches no live task, whichever thread uses it, even if it is an old root's |
| `RunProperties.RootLeavesNoToken` | src/executor.rs:66-70 | When `block_on` returns, no root id is in the channel or in flight and no old root can enqueue one |
| `RunProperties.CellsGoForward` | src/join.rs:73-85 | Over any number of rounds a cell resolves once, keeps its result, and is consumed once |
| `RunProperties.CellsTellTheTruth` | src/handle.rs:31-42 | After any number of rounds of any call, for a task spawned with program p at time t: its cell is unresolved if and only if the task is live; resolved it holds `Ok` with the value that p denotes from t, or `Err(Panic)` if p panics, not before that is due; on an exact clock it is not unresolved after; it never holds `Err(Cancelled)` |
| `RunProperties.ResolvesWhenDue` | src/join.rs:73-85 | A round of a run on a paused clock that overtook nothing resolves a cell at exactly the end its program denotes from the time it was spawned |
| `RunProperties.PollsBeginTimely` | src/executor.rs:76-112 | When a poll begins every registration lies after the moment the wait began, on a paused clock after the present; none appears while waiting |
| `RunProperties.OverdueForOnePollAtMost` | src/time/driver.rs:161-164 | A registration that is overdue when a poll begins is gone before the next poll begins |
| `RunProperties.AutoAdvanceIsSafe` | src/time/driver.rs:166-178 | The automatic advance goes to the earliest live deadline, which lies ahead, passes none, and the next expiry removes a registration |
| `PollEffects.PollCourse` | src/scheduling/mod.rs:27-52 | One poll of any future whose wait is over follows its program: it gets past no yield, park or sleep; each wake queues an idle schedule and is noted by a running one, in the order of the program; each spawn adds one queued task; each result is taken from its cell; computing moves a running clock by exactly its length; and the poll stops where the program makes it |
| `RoundEffects.RoundsFollowPrograms` | src/scheduling/mod.rs:27-77 | At every point of every run, whatever other threads do: the next round polls the received task along its program and ends as the future returns; every live task that the future or another thread wakes meanwhile has one token afterwards; if no other thread acts, the channel is what it was and then the roused ids in the order of the program |
| `RoundEffects.WokenIsServed` | src/scheduling/mod.rs:54-77 | An idle task that the polled future wakes, parked or not, is in the channel exactly once when the poll ends, behind all that was there, and is received after exactly as many others as stand before it |
| `RoundEffects.NotedHasToken` | src/scheduling/state.rs:11-50 | A wake of the task that is being polled, by itself or by another thread, puts it into the channel once if it suspends |
| `RoundEffects.TurnIsOneRound` | src/executor.rs:63-125 | The end of a round: a suspended task is stored back and queued exactly if a wake was noted; a finished one is gone, its cell holds `Ok` or `Err(Panic)`, and an idle waiter is queued at the end of the channel |
| `WaitEffects.ExpiryWakesInOrder` | src/time/driver.rs:114-141 | Expiry puts the ids of the idle tasks behind the passed registrations at the end of the channel, by deadline and then by registration, each once, and takes exactly those registrations away |
| `WaitEffects.WaitTakesExpired` | src/executor.rs:76-83 | At every point of every run: a wait hands out the head of what was in the channel followed by the expired tasks in their order, at once and whatever lies ahead |
| `WaitEffects.QuietWaitEnds` | src/executor.rs:91-111 | At every point of every run, on either clock: with nothing to do and nothing in flight, the wait ends exactly at the earliest live deadline, and hands out the sleeper on the smallest registration |
| `WaitEffects.MessageEndsWait` | src/executor.rs:96-108 | A send by another thread ends a blocking wait at the moment it arrives; what falls due meanwhile is left to the next wait |
| `WaitEffects.SendComesLast` | src/scheduling/mod.rs:59-61 | After any acts of other threads, a decided send puts its id behind all that is in the channel, and a second one does nothing |
| `RunProperties.ServedInOrder` | src/executor.rs:63-73 | The entry at position k is received after exactly k others, whatever those polls wake or spawn; entries not reached stay in order |
| `RunProperties.LeftoversGoFirst` | src/executor.rs:54-73 | What earlier calls left in the channel is served first, in order, and the new root right after it |
| `RunProperties.TurnTakesHead` | src/executor.rs:81-83 | One round takes the head of the channel and leaves the rest in place |
| `Shutdowns.ShutdownCancels` | src/executor.rs:134-139 | Dropping the owned tasks in any order cancels exactly the unresolved cells, completes none twice, and leaves no registration |
| `Shutdowns.CancelWakes` | src/join.rs:98-114 | Dropping a task cancels its cell and wakes whoever waits on it, exactly as a completion does |
| `Shutdowns.DropForgets` | src/join.rs:48-54 | It also takes the task's own waker out of the cells it waits on, and touches no other cell |
| `Shutdowns.SpawnsAreCancelled` | src/executor.rs:153-155 | Any number of spawns on a closed executor are cancelled on the spot and change nothing else |
| `Shutdowns.NobodyWaitsAfterShutdown` | src/executor.rs:134-155 | After the shutdown, whatever is spawned on handles that outlive it, no join is left unresolved and no timer registered |
| `Executors.Executor.WithClock` | src/executor.rs:30-52 | The new executor is the empty world on the given clock |
| `Executors.Executor.BlockOn` | src/executor.rs:54-74 | The loop refines the run specification; it terminates, and the state it leaves is ready for another call |
| `Executors.Executor.Act` | src/scheduling/mod.rs:54-62 | A lock or a send of another thread on the shared state |
| `Executors.Executor.Round` | src/executor.rs:63-73 | One round on the mutable state refines the round of the run specification |
| `Executors.Executor.NextReadyId` | src/executor.rs:76-112 | The wait loop refines its specification and terminates |
| `Executors.Executor.Recv` | src/executor.rs:96-111 | The blocking receive returns a message, a timeout with strictly less left to wait for, or stands for blocking for good |
| `Executors.Executor.PollTask` | src/executor.rs:114-125 | Polling an admitted task while other threads act refines its specification; a missing one is the `expect` |
| `Executors.Executor.PollFuture` | src/scheduling/mod.rs:27-52 | Running a future instruction by instruction on the mutable state computes the recursive poll, which `PollCourse` describes |
| `Executors.Executor.PollRootTask` | src/executor.rs:66-70 | One poll of the root, with its three ends |
| `Executors.Executor.DrainPendingSpawns` | src/executor.rs:127-131 | All queued spawns are admitted under their ids and the queue is empty |
| `Executors.Executor.ProcessExpired` | src/time/driver.rs:138-140 | Expiry on the shared driver, followed by the wakes, in the order that `ExpiryWakesInOrder` states |
| `Executors.Executor.Spawn` | src/executor.rs:149-169 | Creates the cell, an id, a schedule, queues the task and wakes it; cancelled at once when closed |
| `Executors.Executor.NextTaskId` | src/executor.rs:171-179 | At most two passes; the result is never the root's id |
| `Executors.Executor.Drop` | src/executor.rs:134-139 | Closes, drops queued then admitted tasks; every unresolved cell is cancelled and no registration is left |
| `TaskIdSpec.IdsAreCyclic` | src/executor.rs:171-179 | The k-th id is ((k - 1) mod (2^64 - 1)) + 1 |
| `TaskIdSpec.IdsAreDistinctWithinACycle` | src/executor.rs:171-179 | Any 2^64 - 1 consecutive ids are pairwise distinct |
| `WakeProtocol.TokensAreConserved` | src/scheduling/mod.rs:27-62 | Every interleaving, with lookup by task id and reuse of ids: channel entries plus unsent enqueues plus a held id make one exactly when the task behind the id is queued, none for an id not in use, and neither `unreachable!` nor `expect` fires |
| `WakeProtocol.ProtocolRefinesOneBit` | src/scheduling/state.rs:11-50 | Every step of every run is a step of the one-bit notification specification |
| `WakeProtocol.PollConsumesWake` | src/scheduling/state.rs:25-30 | Each poll consumes a wake of its own, made since the previous poll began |
| `WakeProtocol.WakeIsNotLost` | src/scheduling/state.rs:11-23 | Until a new poll or its end, a live task's wake stays a token on its way or a noted poll |
| `WakeProtocol.BoundedResponse` | src/scheduling/mod.rs:43-49 | An id at place j of the channel is polled before j + 2 more entries have been received, whatever happens in between |
| `WakeProtocol.SentWakeIsServed` | src/scheduling/mod.rs:54-62 | A wake whose send has been performed is followed by a poll within as many receives as there were entries, plus two |
| `WakeProtocol.SentBackIsServed` | src/scheduling/mod.rs:43-49 | The same for the executor's own send, after a poll during which a wake was noted |
| `WakeProtocol.NewTaskIsServed` | src/scheduling/mod.rs:19-25 | An id that is not in use gets a schedule of its own, idle at first; one wake puts it behind everything in the channel, and it is polled within as many receives as there were entries, plus two |
| `WakeProtocol.OverIsFinal` | src/scheduling/state.rs:32-38 | A schedule whose task is over stays over and its wakes put a token nowhere, even when its id is in use again |
| `TaskSchedules.TaskSchedule.Wake` | src/scheduling/state.rs:11-23 | New state and duty to enqueue, for every state |
| `TaskSchedules.TaskSchedule.BeginPoll` | src/scheduling/state.rs:25-30 | Only a queued task is polled; earlier notifications are consumed |
| `TaskSchedules.TaskSchedule.FinishPoll` | src/scheduling/state.rs:32-50 | New state and action for both outcomes |
| `TaskSchedules.TaskSchedule.Poll` | src/scheduling/mod.rs:27-52 | However often a future wakes itself, a pending poll enqueues it exactly once and a ready poll never |
| `TaskSchedules.TaskSchedule.RequestSchedule` | src/scheduling/mod.rs:54-62 | An idle task is sent once, any other not at all |
| `TaskSchedules.ReadyQueue.TryRecv` | src/executor.rs:81-83 | The channel gives up its oldest entry, or nothing exactly if it is empty |
| `TimerSpec.DueIsExact` | src/time/driver.rs:114-136 | The expiry list holds exactly the registrations with a passed deadline, in (deadline, id) order |
| `TimerSpec.ExpiryOrderIsUnique` | src/time/driver.rs:121-136 | There is only one such order, each waker appearing once |
| `TimerDrivers.TimerDriver.Register` | src/time/driver.rs:40-51 | The map gains one registration under the next id; a clash is the panic and leaves the counter advanced |
| `TimerDrivers.TimerDriver.UpdateWaker` | src/time/driver.rs:53-64 | Only the waker of a live registration changes |
| `TimerDrivers.TimerDriver.Cancel` | src/time/driver.rs:66-68 | The map loses the id; a stale heap entry may stay |
| `TimerDrivers.TimerDriver.Reschedule` | src/time/driver.rs:70-81 | Moves a live registration, keeps its waker, and says whether there was one |
| `TimerDrivers.TimerDriver.ProcessExpired` | src/time/driver.rs:114-141 | Removes exactly the expired registrations and calls their wakers once, in order, despite stale and duplicate entries |
| `TimerDrivers.TimerDriver.PeekDeadline` | src/time/driver.rs:143-159 | The minimum live deadline, or none if and only if there are no registrations, changing no registration |
| `TimerDrivers.TimerDriver.TimeUntilNextDeadline` | src/time/driver.rs:161-164 | The saturating distance to that deadline |
| `TimerDrivers.TimerDriver.AdvanceToNextDeadlineIfPaused` | src/time/driver.rs:166-178 | Moves a paused clock exactly there, and nothing otherwise; the clock's own check is met |
| `TimerDrivers.CurrentLeastIsEarliest` | src/time/driver.rs:146-155 | A heap top that matches its registration is the earliest live registration |
| `TimerDrivers.PopCurrent` | src/time/driver.rs:126-135 | Popping a matching top takes the first due registration and leaves the rest of the list |
| `TimerDrivers.ExpiryIsIdempotent` | src/time/driver.rs:114-141 | A second expiry at the same instant finds nothing |
| `Sleeps.Sleep.Poll` | src/time/sleep.rs:70-93 | Ready leaves no registration, Pending exactly one at the deadline with the latest waker; a step of the sleep system |
| `Sleeps.Sleep.Reset` | src/time/sleep.rs:45-53 | Moves a live registration along, forgets a stale id, keeps the joint invariant; a step of the sleep system |
| `Sleeps.Sleep.Drop` | src/time/sleep.rs:95-101 | Cancels what the sleep holds and nothing else; a step of the sleep system |
| `SleepSystem.OwnershipOverRuns` | src/time/sleep.rs:45-101 | Over every run with at most 2^64 registrations, of any length: no panic, each live registration belongs to exactly one live sleep, at its deadline, with its latest waker |
| `SleepSystem.StepKeepsOwnership` | src/time/driver.rs:53-81 | Every operation keeps ownership if a registering poll gets an id nobody holds |
| `SleepSystem.PollLeavesRegistration` | src/time/sleep.rs:74-92 | What a caller of poll or drop can rely on, in every reachable state |
| `SleepSystem.ExpiryTakesAllDue` | src/time/driver.rs:114-141 | In every reachable state: after an expiry a sleep is registered if and only if it was and its deadline lies ahead |
| `SleepSystem.RegisteringNeedsFreeId` | src/time/driver.rs:87-98 | A registering poll keeps ownership if and only if no sleep, not even an expired one, holds the next id |
| `SleepSystem.OwnershipNeedsFreeIds` | src/time/driver.rs:87-98 | The same for runs without any bound: ownership holds at every point if and only if every registering poll finds such an id |
| `SleepSystem.StaleIdStealsRegistration` | src/time/driver.rs:87-98 | A run from a new runtime that goes round the counter, after which resetting an expired sleep moves another sleep's deadline |
| `Sleeps.Timeout.Poll` | src/time/timeout.rs:68-99 | The inner future goes first, may use the driver for timers of its own, and wins ties; both ready ends drop future, sleep and registration, a pending one keeps the deadline and one registration at it, and the inner future's timers are as it left them; a step of the runs below |
| `Sleeps.TimeoutEndsOnce` | src/time/timeout.rs:68-99 | Any run of polls: Pending, with one registration at the deadline the timeout was created with, for the latest waker, until the first poll that finds the inner future done or the deadline passed; that one answers with the value or with Elapsed, leaves nothing registered, and is the last |
| `Sleeps.ElapsesOnTime` | src/time/timeout.rs:86-96 | With an inner future that stays pending, a poll answers Elapsed if and only if it is the first at or after that deadline |
| `Sleeps.Timeout.Drop` | src/time/timeout.rs:37-40 | A dropped timeout leaves no registration |
| `Intervals.Interval.constructor` | src/time/interval.rs:68-76 | A valid interval; a zero period is excluded by the source's assertion |
| `Intervals.Interval.PollTick` | src/time/interval.rs:82-99 | Returns the scheduled instant, schedules the next by behaviour and lateness (a period after it if at most 5 ms late), cleans up its registration; a step of the runs below |
| `Intervals.Interval.ResetAt` | src/time/interval.rs:105-107 | Moves the next tick and its live registration, keeping the waker |
| `Intervals.Interval.ResetAfter` | src/time/interval.rs:109-111 | The same for a delay from now |
| `Intervals.Interval.Reset` | src/time/interval.rs:113-115 | The same for one period from now |
| `Intervals.Interval.ResetImmediately` | src/time/interval.rs:117-119 | The same for now |
| `Intervals.ScheduledAhead` | src/time/interval.rs:51-62 | The next tick: a period after the last if that was returned at most 5 ms late or with Burst, a period from now with Delay, a multiple of the period from the last and less than one ahead with Skip; always at least a period on, and the Skip remainder never underflows |
| `Intervals.TicksFollow` | src/time/interval.rs:51-99 | Over any run: each tick is followed by exactly the one its behaviour and its lateness determine, in numbers, whatever polls come in between |
| `Intervals.TicksAreSpaced` | src/time/interval.rs:82-99 | Any run, any changes of behaviour: no early tick, consecutive ticks at least a period apart |
| `Intervals.TickRateIsBounded` | src/time/interval.rs:82-99 | At most floor((T - start) / period) + 1 ticks by time T |
| `Intervals.PhaseIsKept` | src/time/interval.rs:51-62 | With Burst and Skip every tick lies on start + k * period |
| `Intervals.BurstMissesNothing` | src/time/interval.rs:51-62 | With Burst the ticks are exactly consecutive k |
| `Intervals.CatchUpIsExact` | src/time/interval.rs:51-99 | Ticks in a row at a fixed clock: floor(lateness / period) + 1 for Burst or within the grace, one for Skip and Delay beyond it |
| `Intervals.StillRun` | src/time/interval.rs:82-99 | Polling at a fixed clock yields exactly that many ticks and then none |
| `JoinHandles.CellResolvesOnce` | src/join.rs:20-114 | Every life of a cell: unresolved until the first completion, which wakes the latest surviving waiter only; the result is handed out at most once |
| `JoinHandles.JoinHandle.Poll` | src/join.rs:23-45 | Replaces the waiter, or takes the result; a step of the cell's life |
| `JoinHandles.JoinHandle.Drop` | src/join.rs:48-54 | Forgets the waiter, detaching the task; a step of the cell's life |
| `JoinHandles.JoinCell.Complete` | src/join.rs:74-85 | Resolves an unresolved cell and gives up its waiter |
| `JoinHandles.JoinSender.Publish` | src/join.rs:92-96 | The published result stands: the destructor that runs next does not cancel |
| `JoinHandles.JoinSender.PublishInner` | src/join.rs:98-108 | Completes at most once; an empty sender does nothing |
| `JoinHandles.JoinSender.Drop` | src/join.rs:110-114 | A sender dropped before publishing cancels |
| `Agreement.PublishAgrees` | src/join.rs:98-108 | Publishing in the composed runtime is the completion in the life of the cell, and the wake it causes |
| `Agreement.AwaitAgrees` | src/join.rs:23-45 | Awaiting a handle in the composed runtime is a poll in the life of the cell; the future goes on exactly if a result is delivered |
| `Agreement.DetachAgrees` | src/join.rs:48-54 | Dropping the handles of a future in the composed runtime drops each of them in the life of its cell |
| `Agreement.DropAgrees` | src/time/sleep.rs:95-101 | Dropping a task that is asleep drops its sleep in the sleep system |
| `Agreement.AsleepAgrees` | src/time/sleep.rs:70-93 | Polling a sleep again in the composed runtime is a poll in the sleep system, check for check |
| `Agreement.SleepAgrees` | src/time/sleep.rs:70-93 | So is polling a new sleep, with the ids it takes |
| `Clocks.Clock.Pause` | src/time/clock.rs:63-76 | Pausing keeps the virtual time |
| `Clocks.Clock.Resume` | src/time/clock.rs:78-92 | Resuming keeps the virtual time |
| `Clocks.Clock.Advance` | src/time/clock.rs:94-107 | A paused clock moves by exactly the duration |
| `Clocks.Clock.AdvanceTo` | src/time/clock.rs:109-121 | A paused clock moves to exactly the instant, never back |

## Left out

- Thread-local context, `Handle::enter`, `Runtime::enter`, `EnterGuard`: a single optional slot, only easy members.
- `CatchUnwind`, `Pin`, boxing, `Send` bounds: a poll suspends, returns a value, or panics.
- Internals of `BinaryHeap`, `HashMap`, `mpsc` and `Mutex`: a multiset with extract-least, a map, a sequence, and atomic critical sections.
- Operating-system blocking and the wall clock: `recv` and `recv_timeout` consume the environment's events.
- Overflow of `Instant` in `deadline_after` and in `Clock::advance`: time is unbounded here.
- Wakers and destructors that panic or re-enter the runtime: outside the assumptions; the order of drops inside one task is fixed to sleep, handles, sender.
- Timeouts and intervals inside programs: they are modelled as components; when a child ends exactly at a timeout's deadline the result depends on the queue order, so a critical path does not determine it.
- Values: tasks return integers, and a join adds the child's value to an accumulator; other data flow is not modelled.
- Awaiting a handle a future no longer holds: a program doing so resolves as a panic, as unwrapping a taken handle would.
- The moment within a poll at which other threads act: in the composed model they act before every step of the wait loop and once a poll has begun. A lock later in the poll does what it would have done there or nothing, since futures do not read schedules, and a send later in the poll changes the order of the channel only, which is arbitrary; `WakeProtocol` interleaves every single step.
- Futures that poll several leaf futures at once, reset timers or hand handles to their children: they are not programs; sleeps, resets and timeouts appear with any number of them on one driver in `SleepSystem` and `Sleep`.
- `Executor` holds the states of schedules and join cells in sequences instead of one object each, because they outlive their tasks and are shared by wakers and handles; the objects themselves are `TaskSchedule`, `JoinHandle` and `Sleep`. Schedules share their transition functions in both forms; for cells and sleeps `Agreement` proves that both forms do the same.
- Executors.Executor.BlockOn: is stated for the channel's own order (`InOrder`); `VirtualTime.BlockOnEnds` covers every order.
- RunProperties.ServedInOrder: needs `InOrder`, since it is about the channel being a queue.
- SleepSystem.OwnershipOverRuns: bounded to 2^64 registrations; `OwnershipNeedsFreeIds` gives the exact condition without a bound.
- Unchecked milestones of the repository's own README (reactor, TCP, threads, work stealing): there is no code for them.
