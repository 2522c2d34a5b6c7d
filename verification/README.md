# Chronos, verified

A Dafny model of the Chronos durable workflow engine: the deterministic replay engine, the transactional
store, the workers between them, and the order workflow that runs on top. The project proves what the engine
is for: a workflow that crashes, is redelivered, answered twice or answered late closes with the result its
code would have produced in one uninterrupted run, and its side effects happen once.

Check everything with `dafny verify dfyconfig.toml`.

## How the model is laid out

| file | what it holds |
|---|---|
| `Basics`, `History`, `Program` | values, the event log, workflow code as a deterministic strategy with its straight-through evaluation |
| `Replay`, `Environment` | the replay engine, as functions and as the objects, index maps and loops that compute them |
| `ReplayTheorems`, `Projection`, `Growth`, `Unstable` | replay is evaluation; the projection is lookup; replay under log growth and under commits; how far it survives outside the stable fragment |
| `Backoff`, `Log`, `Policies` | retry arithmetic; the tables as folds of the log and the grammar of logs; which retry policy governs |
| `Requests`, `Journal` | what code asks for and is told, and what every action writes, told without the engine's own functions |
| `Store`, `Rows`, `Postgres` | one atomic transition per transaction; flat SQL tables that implement them, updated in place |
| `RunInvariant`, `System`, `Durability`, `Tables` | store and workers composed, invariants over every behaviour, the main safety theorems |
| `Wakeup`, `LostWakeup`, `Sequential`, `Progress`, `Totals`, `Timers`, `Lease`, `LateResponses` | progress, wake-ups, bounds, timer scans, leases |
| `Worker`, `Order`, `OrderTheorems`, `Ledger`, `LedgerTable` | the worker's handler, the order workflow end to end, idempotent side effects |
| `Extensions`, `Completion` | moves that are always possible, and the way they finish every open order |

Workflow code is a function from the input and the answers so far to the next call of its context, so loops
and unbounded runs are covered. `Sleep` is `NewTimer` followed by `Get`. Code that never stops never returns a
decision, so theorems about decisions speak of code that stopped after some number of calls.

A behaviour is a sequence of states joined by client calls, polls, responses, heartbeats, timer scans and
clock ticks in any order. A decision, once computed, stays in flight for ever: delivering it late, twice or
never are all behaviours. Activity responses and heartbeats are unconstrained and may be stale or forged.

## Modelling assumptions

- Each transaction body is one atomic step. This is assumed, not derived from isolation levels or row locks.
- Postgres `now()` and Go `time.Now()` are one clock that never runs backwards.
- Payloads are opaque. The one encoding effect kept is that the all-zero retry policy encodes to no bytes;
  policy durations are positive or absent, as the worker library sends them.
- Run ids are chosen by the caller of `StartWorkflow`, in place of a random generator.
- All workers register the same code under the same type name.
- Floating point is exact; `outOfRange` stands for whatever the platform returns when a float does not fit
  64 bits.
- In `Ledger`, a worker reports success only for a delivery whose activity function has returned, that is, after
  its effect was recorded; everywhere else activity responses are arbitrary.
- A message carries, beside what the store sees, the run and history it was computed from. The store never
  looks at these.

## Where the code and its comments differ

- `docs/ARCHITECTURE.md` calls `next_event_id` an optimistic-concurrency token. No response is checked against
  it or against `StartedEventID`. Stale decisions are harmless because replay is monotone and a task id is
  never reused: `Growth.StaleCommit`, `System.StepKeepsInv`.
- Ownership is said to be the lease; the code compares `locked_by` only. The last identity a task was handed to,
  and no other, is heard, however late: `Lease.OwnerIsHeard`, `Lease.DeciderIsHeard`. From every state with a
  row to hand out, an answer after the lease has run out can be accepted: `LateResponses.LateResultAccepted`,
  `LateResponses.LateDecisionAccepted`, and in concrete behaviours `LateResponses.LateResultHappens` and
  `LateResponses.LateDecisionHappens`.
- A pending workflow task absorbs enqueues and a commit deletes it, so an event that lands between poll and
  commit is not followed by a task. `Wakeup.AwakeExactly` says in which reachable states a run has the wake-up
  it is owed, and `LostWakeup.WakeupCanBeLost` gives a run that gets stuck.
- `NextRetryDelay` converts before it clamps. `Backoff.ClampExact` gives the exact condition under which the
  documented value is returned, `Backoff.OverflowCounterexample` a policy for which the delay is negative.
- An explicit all-zero retry policy is recorded in the log and replaced by the default one when an attempt
  fails. `Policies.ConsultedExactly` gives the exact condition in every reachable state; up to the fourth attempt
  both policies act alike, and at the fifth an unlimited policy gives up: `Policies.UnlimitedStopsAtFive`.
- The ledger key has no run id. `Ledger.RowsCountCompletionsExactly` says when rows count side effects exactly,
  and `Completion.TwoOrdersShareRows` reaches a state with two COMPLETED orders, eight completed events and four rows.
- `IsReady`, `Now` and a `ReceiveSignal` that finds nothing observe the absence of events.
  `Unstable.AbsenceBreaksReplay` shows, for each of the three, unchanged code failing as nondeterministic on logs
  the store can write; `Unstable.ReplaySurvivesExactly` says how far replay of any code survives log growth.

## Model

| member | source | states |
|---|---|---|
| `Durability.CrashResume` | sdk/workflow/environment.go:68-109 | In every behaviour, when a run of stable code has closed, its close event is the result or failure of evaluating the code straight through on the recorded outcomes and signals, every call of that evaluation is in the log once and in order, and the status says which it was |
| `Durability.NoSpuriousNondeterminism` | sdk/workflow/environment.go:175-180 | In every reachable state, what replay decides on a run's current log is what the code itself does next: the calls beyond the recorded ones and its own close, so the mismatch panic never fires for unchanged code |
| `Durability.AppendOnly` | internal/storage/postgres/helpers.go:14-59 | Along any behaviour runs persist with their type, queue and input, histories only grow, and a closed run keeps its status |
| `Durability.ReachableSound` | internal/storage/postgres/tasks.go:87-141 | Every run's recorded calls stay the first calls of its code, and a closed one is closed as evaluated, whichever stale decision was committed |
| `Journal.StepAccounts` | internal/storage/postgres/tasks.go:87-442 | For every action and every run, the exact events added to its log, with id, time and payload, told from the state before: which start, signal, result, failure, retry, fired timer or commands, or nothing when the action is refused |
| `Journal.LogIsAccount` | internal/storage/postgres/workflow.go:104-118 | In every reachable state the signals of a log are the accepted signal actions in order, name and payload, and its completed, failed and retry events are the accepted responses in order, with the results, failures and flags reported |
| `Journal.AwaitedPayload` | sdk/workflow/environment.go:251-266 | The n-th await of a name is answered with the payload of the n-th accepted signal action of that name |
| `Journal.ProjectedSignals` | sdk/workflow/environment.go:153-157 | The projected signals are the log's, name and payload |
| `Requests.RecordedAsAsked` | sdk/workflow/environment.go:171-243 | In every reachable state the durable calls logged for a run of stable code are the first requests of its code, one for one, with the ids, payloads, queues, durations and policies the code gave |
| `Requests.TimerAsAsked` | sdk/workflow/environment.go:221-243 | A fired timer was asked for by the code at its position, its recorded timeout is the duration asked for when positive and zero otherwise, and it fired no earlier than start plus that |
| `Requests.ActivityAsAsked` | sdk/workflow/environment.go:191-216 | A scheduled event holds, field by field, what the code asked for at its position: type, payload, id, queue, start-to-close timeout and both policy intervals |
| `Requests.EvaluationRecordsRequests` | sdk/workflow/environment.go:171-243 | The same for every evaluation of any code |
| `Requests.ToldResult` | sdk/workflow/environment.go:181-188 | Waiting on an activity gives the result its completed event holds, or the message its failed event holds, "activity failed" without one, or blocks |
| `Requests.ToldFired` | sdk/workflow/environment.go:225-230 | Waiting on a timer returns once the log holds its fired event and blocks before |
| `Requests.ToldSignal` | sdk/workflow/environment.go:251-266 | Awaiting or receiving a name gives the payload of the log's next signal of that name; without one, the first blocks and the second reports none |
| `Requests.ToldReady` | sdk/workflow/environment.go:283-283 | Readiness is whether the log holds an outcome |
| `Requests.ToldTime` | sdk/workflow/environment.go:122-127 | The time is the latest event time, or the wall clock when no event carries one |
| `Requests.ToldEnd` | sdk/workflow/environment.go:79-109 | How a run ends when its code returns, fails, panics or cannot encode an argument, message and type included |
| `Growth.StaleCommit` | internal/storage/postgres/tasks.go:105-138 | Committing a decision computed on an older log, after outcomes, signals and bookkeeping events were added, leaves a log consistent with the code, and a close it writes is the one evaluation over the new log reaches |
| `Growth.StraightGrows` | sdk/workflow/environment.go:111-293 | Extending the log by outcomes, fired timers, starts, retries or signals keeps every call and answer up to where the earlier replay blocked, and leaves a finished one untouched |
| `Growth.DecisionsGrow` | sdk/workflow/environment.go:68-109 | The commands decided on the shorter log are a prefix of those decided on the longer one; a closing decision is the same on both |
| `Growth.CommitThenReplayIsSilent` | internal/storage/postgres/tasks.go:109-138 | After a decision's commands are applied, executing again emits no command and blocks at the same point or reports the run closed |
| `Program.RunMonotone` | sdk/workflow/environment.go:171-293 | Straight-through evaluation of stable code is monotone in what the world has answered |
| `ReplayTheorems.Lockstep` | sdk/workflow/environment.go:171-293 | The replay machine, with captured futures and consumed flags, moves in lockstep with straight-through evaluation |
| `ReplayTheorems.DecisionIsSurplus` | sdk/workflow/environment.go:71-109 | A decision on a consistent open log is exactly the calls the log lacks, then the close if the code finished |
| `ReplayTheorems.ConsumptionCounts` | sdk/workflow/environment.go:251-266 | The k-th consumption of a signal name by flags yields the k-th signal of that name, each consumed once |
| `Projection.ProjectionIsLookup` | sdk/workflow/environment.go:117-162 | Entry n of the projection is the n-th scheduled activity or started timer: its type, and its status and payload as the events naming it say |
| `Replay.ViewProjects` | sdk/workflow/environment.go:122-162 | The projection lists exactly the recorded calls, and is terminated exactly when the log holds a close |
| `Unstable.AbsenceBreaksReplay` | sdk/workflow/environment.go:249-283 | For code that asks for readiness, for the time, or for a signal without waiting, one more event turns replay of unchanged code into a nondeterminism failure, on two logs the store can write |
| `Unstable.ReplaySurvivesExactly` | sdk/workflow/environment.go:249-283 | For any code, log growth reproduces the first calls and answers, up to where the earlier replay blocked, if and only if every question about absence among them is answered as before |
| `Environment.Environment.Index` | sdk/workflow/environment.go:111-167 | The one pass over the log, through maps that alias the projected objects, leaves exactly the functional projection, for any log |
| `Environment.Environment.IndexCompleted` | sdk/workflow/environment.go:135-139 | Writing through the map changes the latest object registered under the id and no other |
| `Environment.Environment.IndexFailed` | sdk/workflow/environment.go:140-144 | The same for a failure |
| `Environment.Environment.IndexTimerFired` | sdk/workflow/environment.go:149-152 | The same for a fired timer |
| `Environment.Environment.ExecuteActivity` | sdk/workflow/environment.go:171-219 | Matched against the log by position, panicking on a type mismatch or an unencodable argument; past the log, one new command with the fields the options give, durations that are not positive dropped |
| `Environment.Environment.NewTimer` | sdk/workflow/environment.go:221-243 | The n-th timer is the n-th recorded one, or one new command whose timeout is the duration when positive and zero otherwise |
| `Environment.Environment.ReceiveSignal` | sdk/workflow/environment.go:251-259 | Returns and marks the first unconsumed signal of the name, or reports none |
| `Environment.Environment.AwaitSignal` | sdk/workflow/environment.go:261-266 | The same, unwinding when there is none |
| `Environment.Serve` | sdk/workflow/environment.go:171-293 | Each call of the code moves fields and futures as one step of the replay machine, blocked and panicking calls included |
| `Environment.Execute` | sdk/workflow/environment.go:71-109 | Returns the replay machine's decision, or none at all for a closed history, for all code that stops |
| `Environment.ExecuteDecides` | sdk/workflow/environment.go:68-70 | For stable code the wall clock makes no difference: what is returned is exactly what replay decides on the history |
| `Backoff.NextRetryDelay` | internal/core/core.go:60-84 | Refuses exactly when a positive attempt bound is reached, five by default; otherwise the loop yields the unclamped power, clamped, while that fits 64 bits |
| `Backoff.IdealPlain` | internal/core/core.go:75-78 | With a positive interval and a coefficient of at least one, the first wait is the interval and each next one is the previous times the coefficient |
| `Backoff.IdealDefaults` | internal/core/core.go:67-74 | An interval that is not positive means one second, a coefficient below one means two |
| `Backoff.DelayPlain` | internal/core/core.go:79-83 | Below the 64-bit range the wait is the whole part of that power, or a positive maximum below it |
| `Backoff.DelayMonotone` | internal/core/core.go:75-83 | In range, later attempts never wait less, the delay is positive and never exceeds a positive maximum |
| `Backoff.ClampExact` | internal/core/core.go:79-82 | For all 64-bit maxima, none included, the result is the documented value if and only if the power is in range or the platform saturates at least to a maximum there is |
| `Backoff.OverflowCounterexample` | internal/core/core.go:79-82 | An unlimited doubling policy whose 35th retry has a negative delay |
| `Backoff.DefaultInRange` | internal/core/core.go:49-56 | Every retry the default policy allows stays in range, at most eight seconds |
| `Policies.ConsultedExactly` | internal/storage/postgres/tasks.go:389-398 | In every reachable state, the policy consulted for a live row is the recorded one if and only if that is not all-zero, and the next failure is treated as recorded if and only if it is not all-zero or fewer than five attempts were made |
| `Policies.PolicyHonoredExactly` | internal/storage/postgres/tasks.go:144-167 | The same for every scheduled call and attempt, the waits included |
| `Policies.OptionsHonoredExactly` | sdk/workflow/workflow.go:73-83 | On the options given to ExecuteActivity: the policy is honoured if and only if it has a positive duration, a non-zero coefficient or a non-zero attempt bound |
| `Policies.UnlimitedStopsAtFive` | internal/storage/postgres/tasks.go:389-439 | A retryable failure of an activity recorded with the unlimited all-zero policy keeps its row if and only if fewer than five attempts were made |
| `Policies.RecordedWait` | internal/storage/postgres/tasks.go:397-408 | Every retry event of every reachable log announces exactly the documented wait under the consulted policy, while the power fits 64 bits |
| `Log.ExactlyOneOutcome` | internal/storage/postgres/tasks.go:143-175 | In any well-formed log a scheduled activity is live or has one outcome, never both, neither or two |
| `Log.AttemptDiscipline` | internal/storage/postgres/tasks.go:265-301 | Started events of an activity carry attempts 1, 2, 3 and so on once each and in order; the attempt is one plus its retries and respects a positive bound |
| `Log.BackoffRespected` | internal/storage/postgres/tasks.go:397-420 | No retried attempt is started before the time its retry event announced |
| `Log.FiresAtMostOnce` | internal/storage/postgres/timers.go:55-77 | A timer has at most one fired event, and exactly one when its row says so |
| `Log.NeverFiresEarly` | internal/storage/postgres/tasks.go:177-197 | A fired event follows its start event, carries its timer id and is not earlier than the start plus the timeout |
| `Log.CloseIsFinal` | internal/storage/postgres/workflow.go:104-106 | After a close no activity, timer or signal event and no second close is written |
| `RunInvariant.CommandKeeps` | internal/storage/postgres/tasks.go:143-229 | A command on an open run writes its event and its row together, so tables stay the fold of the log |
| `RunInvariant.LeaseActivityKeeps` | internal/storage/postgres/tasks.go:265-301 | Handing out an activity writes one started event for a new attempt and none for a redelivery, and keeps the fold |
| `RunInvariant.NextIdIsFresh` | internal/storage/migrations/0001_init.sql:93-108 | The next event id keys no activity or timer row, so the unique indexes never reject an insert |
| `System.StepKeepsInv` | internal/storage/postgres/tasks.go:18-470 | Every action keeps: tables are folds of logs, task ids name one row and are never reissued, one running execution per workflow id, and a decision whose task is live was computed on a log that has since grown only quietly |
| `System.ReachableInv` | internal/storage/migrations/0001_init.sql:24-28 | Those invariants in every reachable state |
| `System.StepOnRun` | internal/storage/postgres/helpers.go:61-74 | A step lets a run's log grow quietly, with a task pending afterwards exactly if one was or an event to react to was written, unless it commits a decision to that run |
| `Tables.TablesIndexLog` | internal/storage/postgres/tasks.go:143-229 | In every reachable state status, event allocator, activity rows and timer rows equal folds over the run's history, whose ids have no gap |
| `Tables.RowsFromLog` | internal/storage/postgres/tasks.go:168-173 | In every reachable state a live activity row carries the id, type, queue and input of its scheduled event, and a first attempt is visible from that event's time |
| `Tables.OneOutcomeEach` | internal/storage/postgres/tasks.go:321-442 | In every reachable state, live rows plus outcome events of an id are one if that event scheduled an activity and zero otherwise, whatever duplicate or stale responses arrived |
| `Tables.CloseIsFinalEverywhere` | sdk/workflow/environment.go:74-77 | In every reachable state there is one close event unless the status is RUNNING, then none, and nothing is started after it |
| `Tables.AttemptsEverywhere` | internal/storage/postgres/tasks.go:273-301 | In every reachable state the attempt columns agree with the log, and a locked row's current attempt has been started |
| `Tables.TimersEverywhere` | internal/storage/postgres/timers.go:12-15 | In every reachable state a timer's flag counts its fired events, and none is early |
| `Wakeup.AwakeExactly` | internal/storage/postgres/helpers.go:61-74 | In every reachable state a run has a pending task for what its last committed decision did not see if and only if it has closed, nothing to react to landed between that decision's poll and commit, or something has arrived since |
| `Wakeup.NoLostWakeup` | internal/storage/postgres/helpers.go:61-74 | If nothing to react to landed between the last committed decision's poll and its commit, a running execution with an event that decision had not seen has a pending task |
| `Wakeup.PendingExactly` | internal/storage/postgres/tasks.go:138-138 | In every reachable state a run has a pending task if and only if something to react to was written after its last commit, or since its start |
| `Wakeup.AwakeAfterCommit` | internal/storage/postgres/tasks.go:138-138 | A commit leaves the wake-up owed in place if and only if nothing landed in between, the run had closed, or the decision completes it |
| `LostWakeup.WakeupCanBeLost` | internal/storage/postgres/tasks.go:138-138 | A reachable run with two parallel activities that is RUNNING, has an unseen outcome, and has no task, row or timer left |
| `Sequential.SequentialDecision` | sdk/workflow/environment.go:285-293 | When code waits for each call at once and every recorded call is answered, a decision is exactly one new call or the close |
| `Sequential.ProjectionMirrorsTables` | internal/storage/postgres/tasks.go:353-353 | The engine's projection and the queue tables agree: pending exactly while a row is live, fired exactly as the row says |
| `Progress.SequentialProgress` | internal/storage/postgres/tasks.go:87-141 | For unsignaled sequential code, pending task plus live activity rows plus unfired timers plus closed is exactly one in every reachable state |
| `Totals.Balance` | internal/storage/postgres/tasks.go:168-173 | Scheduled activities are the resolved ones plus the live ones; started timers the fired ones plus the unfired ones |
| `Totals.MilestoneBound` | internal/core/core.go:64-66 | A bound on all progress an unsignaled run can ever make, from its recorded calls and the attempt bound |
| `Timers.ScanFires` | internal/storage/postgres/timers.go:16-81 | A scan fires exactly min(batch, due) timers, and none left behind is earlier than one fired |
| `Timers.ScansDrain` | internal/storage/postgres/timers.go:16-81 | Successive scans remove a full batch each until no due timer is left |
| `Timers.FiringLeaves` | internal/storage/postgres/timers.go:55-77 | Only distinct due timers can be fired in one transaction, and exactly those stop being due |
| `Timers.ScanIsStep` | internal/storage/postgres/timers.go:16-81 | A scan is a step of the composed system |
| `Lease.LeaseExclusive` | internal/storage/postgres/tasks.go:247-271 | Under a fixed lease, an attempt handed out or kept alive by an accepted heartbeat is not handed out again until a full lease later |
| `Lease.TaskLeaseExclusive` | internal/storage/postgres/tasks.go:30-53 | Under a fixed lease one workflow task is not handed out twice within a lease |
| `Lease.UnstartedIsFree` | internal/storage/postgres/tasks.go:168-173 | In every reachable state an attempt that was not handed out yet is not locked |
| `Lease.PendingIsVisible` | internal/storage/postgres/helpers.go:63-69 | In every reachable state a pending workflow task is visible, so it can be polled exactly when its lock is over |
| `Lease.OwnerIsHeard` | internal/storage/postgres/tasks.go:329-387 | The identity an attempt was handed to, and nobody else, can complete or fail it until it is resolved, retried or handed out again, however long ago its lease ran out |
| `Lease.DeciderIsHeard` | internal/storage/postgres/tasks.go:95-107 | The identity a workflow task was last handed to, and nobody else, can decide it while it is pending |
| `LateResponses.LateResultAccepted` | internal/storage/postgres/tasks.go:329-341 | From every reachable state with a row to hand out, there is a continuation in which its lease has run out and its result is then accepted |
| `LateResponses.LateDecisionAccepted` | internal/storage/postgres/tasks.go:95-107 | The same for a decision on every task that can be polled |
| `LateResponses.LateResultHappens` | internal/storage/postgres/tasks.go:329-341 | A concrete behaviour in which a result is accepted after its lease ran out |
| `LateResponses.LateDecisionHappens` | internal/storage/postgres/tasks.go:95-107 | A concrete behaviour in which a decision is |
| `Lease.ExpiredStaysExpired` | internal/storage/postgres/tasks.go:444-456 | Only a new hand-out locks a row whose lease has run out; a heartbeat never revives it |
| `Lease.RetryWaits` | internal/storage/postgres/tasks.go:397-420 | Every hand-out of a retried attempt, redeliveries included, comes no earlier than the announced time |
| `Rows.AppendRep` | internal/storage/postgres/helpers.go:31-58 | Stamped event rows and the advanced allocator represent the run with the events appended |
| `Rows.EnqueueRep` | internal/storage/postgres/helpers.go:63-69 | The insert that does nothing on conflict represents the deduplicated enqueue |
| `Rows.ActivityInsertRep` | internal/storage/postgres/tasks.go:168-173 | A new row under a fresh task id and event id represents the run with that activity |
| `Postgres.Database.AppendEvents` | internal/storage/postgres/helpers.go:18-59 | Ids are consecutive from the allocator, which ends past the last; the first id is returned; the rest of the store is untouched |
| `Postgres.Database.ScheduleWorkflowTask` | internal/storage/postgres/helpers.go:63-74 | At most one pending task per run; the id sequence advances even when the insert is skipped |
| `Postgres.Database.ScheduleWorkflowTaskForRun` | internal/storage/postgres/tasks.go:460-470 | The same on the run's own queue |
| `Postgres.Database.LoadHistory` | internal/storage/postgres/helpers.go:77-102 | The event rows of a run in id order are its whole history |
| `Postgres.Database.StartWorkflow` | internal/storage/postgres/workflow.go:23-85 | Creates execution, start event with the caller's type, queue and input, and first task together; or, changing nothing, names a running execution of that workflow id, or refuses a taken run id |
| `Postgres.Database.SignalWorkflow` | internal/storage/postgres/workflow.go:89-120 | Adds exactly one event with the next id, the current time, and the caller's name and payload, and wakes the run; not found and not running are told from the row before the call and change nothing |
| `Postgres.Database.NextWorkflowTask` | internal/storage/postgres/tasks.go:30-42 | The visible, unlocked row of the queue that became visible first, or none when there is none |
| `Postgres.Database.PollWorkflowTask` | internal/storage/postgres/tasks.go:22-81 | Leases that row and nothing else, and hands out the whole history with a started event id equal to its length |
| `Postgres.Database.ApplyAll` | internal/storage/postgres/tasks.go:109-136 | The command loop applies commands in order and nothing after a terminal one |
| `Postgres.Database.CompleteWorkflowTask` | internal/storage/postgres/tasks.go:87-141 | If the caller's name holds the lock, adds one event a command up to the first that ends the run and deletes the task; otherwise, or for an unknown token, changes nothing |
| `Postgres.Database.NextActivityTask` | internal/storage/postgres/tasks.go:247-263 | The visible, unlocked activity row of the queue that became visible first, or none |
| `Postgres.Database.LeaseActivityTask` | internal/storage/postgres/tasks.go:265-301 | Locks the row and records the start of its attempt unless that was recorded before |
| `Postgres.Database.PollActivityTask` | internal/storage/postgres/tasks.go:234-316 | Hands out that row, leased for the caller; the id, type and input are those of the scheduled event it names, and that event's queue is the one polled |
| `Postgres.Database.CompleteActivityTask` | internal/storage/postgres/tasks.go:321-358 | One completed event with the reported result, the row gone, the run woken, if the caller's name holds the lock; otherwise no change |
| `Postgres.Database.FailActivityTask` | internal/storage/postgres/tasks.go:364-442 | Adds exactly one event with the reported failure: a retry with the next attempt while the failure is retryable and the row's bound, five by default, is not reached; else a failed event with the reported flag, the row gone and the run woken |
| `Postgres.Database.ExtendActivityLease` | internal/storage/postgres/tasks.go:446-456 | Reports true exactly when the row's lock lies in the future, whoever asks; extends that lock and nothing else |
| `Postgres.Database.SelectDue` | internal/storage/postgres/timers.go:22-53 | The earliest due timers, as many as the limit allows, none later than one left out |
| `Postgres.Database.FireDueTimers` | internal/storage/postgres/timers.go:16-81 | Fires exactly that selection, each once, and returns its size; a non-positive batch means 100 |
| `Worker.WorkflowWorker.HandleWorkflowTask` | sdk/worker/worker.go:121-145 | Responds exactly to registered types, with the decision of replaying the polled history |
| `Worker.HandlerIsHonest` | sdk/worker/worker.go:121-145 | The message so built is one the composed system's theorems cover |
| `Order.OrderIsSequential` | workflows/order.go:50-104 | The order workflow stays in the stable fragment and waits for each call at once, on every input and every script of answers |
| `Order.EvaluationShape` | workflows/order.go:50-104 | Its calls are, in this order, the first of charge, reserve, the five-second packaging timer, ship, receipt, with generated ids, a thirty-second timeout and the order policy |
| `OrderTheorems.OrderRunPayloads` | workflows/order.go:68-94 | In every reachable state those calls are what the log of an order run holds, each activity carrying the decoded order on the run's queue |
| `OrderTheorems.OrderFailed` | workflows/order.go:50-104 | In every reachable state the close of a FAILED order is the decoding error of its input, the type and message of a step that failed, or the decoding error of an id a step reported |
| `OrderTheorems.OrderBounded` | workflows/order.go:57-65 | An unsignaled order run writes at most 27 commits, outcomes, retries and fired timers in its whole life |
| `OrderTheorems.OrderTerminates` | workflows/order.go:46-104 | At most 27 steps of any behaviour move an unsignaled order run forward |
| `OrderTheorems.CommitMovesForward` | internal/storage/postgres/tasks.go:109-138 | In every behaviour, every accepted commit to an unsignaled run of sequential code is one such step, adding exactly one milestone |
| `OrderTheorems.FulfilledOrder` | workflows/order.go:50-104 | An evaluation that succeeds made all five calls, saw four successes and returns the order's id with the id each step reported, each in its place |
| `OrderTheorems.OrderCompleted` | workflows/order.go:46-104 | A COMPLETED order recorded exactly four activities and a timer, has exactly four completed events, one for each, no row left, and a result holding the recorded step ids, under any crash and redelivery schedule |
| `Ledger.Record` | workflows/ledger.go:26-40 | A fresh key holds the effect given, no other key appears, and an existing row is never overwritten |
| `Ledger.StepRows` | internal/storage/migrations/0001_init.sql:71-72 | Across any step an activity row is the row it was or has a new task id |
| `Ledger.StepCompletes` | internal/storage/postgres/tasks.go:329-352 | A completed event is written only by a response whose token names that activity's row |
| `Ledger.ReachableLedger` | workflows/order.go:129-185 | Deliveries, performed activities, ledger rows and completed events agree in every reachable state |
| `Ledger.ExactlyOnceEffects` | workflows/ledger.go:13-18 | While a workflow id is used by one order, completed activity ids are among the ledger's and those among the scheduled ones at every moment; once COMPLETED there are exactly four rows and four completed events |
| `Ledger.OneRowPerStep` | workflows/ledger.go:34-36 | However many orders complete under one workflow id, the ledger holds four rows for it |
| `Ledger.RowsCountCompletionsExactly` | workflows/ledger.go:34-36 | For a workflow id used by orders alone, one of them COMPLETED, ledger rows equal the completed events summed over all its runs if and only if no other run of that id has a completed event |
| `Completion.TwoOrdersShareRows` | workflows/ledger.go:34-36 | A reachable state with two COMPLETED orders under one workflow id, four completed events each and four ledger rows together |
| `Completion.OrderCanFinish` | workflows/order.go:46-104 | Every behaviour with an open, unsignaled order can be continued by workers, timers and clock to one that closes it, and to a COMPLETED one if no step has failed and the payloads can be read |
| `Completion.OrderDecides` | sdk/workflow/environment.go:71-109 | Order code asks at most ten answerable questions, so replay of every consistent open log reaches a decision |
| `Ledger.StepIdsDistinct` | sdk/workflow/environment.go:197-200 | The generated activity ids of an order are pairwise distinct |
| `Basics.DecimalInjective` | sdk/workflow/environment.go:199-199 | Distinct call numbers print differently, so generated ids never collide |
| `LedgerTable.SideEffects.Record` | workflows/ledger.go:28-40 | The insert leaves the table as the functional one does, so a repeated key is a no-op |
| `LedgerTable.SideEffects.Count` | workflows/ledger.go:43-49 | Counts the distinct effects of a workflow id |

## Left out

- Postgres itself: SQL text, isolation levels, lock waits and connection errors; each transaction is atomic.
- Two clocks: skew between the database and the processes is not modelled.
- Encoding: protobuf and JSON are opaque functions; decoding failures appear only in the order workflow.
- Floating-point rounding inside the backoff loop.
- Deterministic order among equal keys: rows equally early may be picked in any order.
- The gRPC and REST layers, long polling, metrics, configuration, paging tokens, `chronosctl`, logging, the UI
  and deployment files, which would add no hard property.
- Describe, list and history queries: reads that would only add easy members.
- Execution and start-to-close timeouts, which are carried in messages and never enforced.
- `Logger` and its replaying flag: the flag is kept as a field, nothing reads it in the model.
- Activity payloads in the ledger: only type and attempt are kept.
- Detection of changed code: a mismatch is detected by activity type only, as the code does; timers and order
  of kinds are not compared, and nothing is claimed for code that differs between workers.
- Liveness under fairness: progress is stated as what is outstanding, as bounds on steps and as a continuation that
  always exists, not as eventual completion of every fair behaviour.
