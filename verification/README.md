# Verification of the workflow engine

The engine runs workflow executions of three types. A CHAIN runs its steps in order and hands each
result to the next step; an INDEPENDENT execution runs all steps at once and collects their results;
a SAGA is a CHAIN that undoes its completed steps, last first, when a step fails for good. Workers
poll for tasks, hold them under leases, and report results or errors; the server retries, advances,
compensates, cancels, expires overdue executions and recovers after a restart. Beside the tables of
the database the server keeps two concurrent objects in memory, a store of signals and a broker that
wakes streams, and it streams the history of an execution to clients.

This project models that engine in Dafny and proves what holds of it in every run.

## How the model is built

- `StateMachine`, `Domain`, `Rows`, `Definitions`, `History`: the transition table, the entities, what
  the statements do to one row, the queries over step definitions and over the history.
- `Instances`: one execution with all its rows, and the effect on it of each transaction, as functions.
- `Storage`, `Interactors`: the same transactions in the form the program has, statement by statement
  over tables that all executions share, with `RunInTx`, early returns, loops over query results and
  the calls of `Notify` and `Drain`. Each method is proved to leave its execution exactly as the
  function in `Instances` says and every other execution as it was. `Fleet` concludes that, whatever
  methods are called, every execution in the tables evolves by a run in the sense of `Runs`
  (`Evolves`), so everything proved of runs holds of the rows in the tables.
- `Invariants`, `Preservation`, `RollbackPreservation`, `Runs`, `Starting`: the invariant of an
  execution and its preservation by every step: polls, heartbeats, reports (also duplicate and lost
  ones), cancellation, the two halves of the expiry sweep, recovery, and the passing of time and ids.
- `Results`, `SagaRollback`, `Lifecycle`, `Termination`: the main theorems about runs. `RowFates` says
  what any step does to any row of the two task tables; `Leases`, `CompensationLeases`, `Attempts` and
  `Schedules` draw from it what holds of leases, of attempts and of the times of retries in every run.
- `Journals`, `Verdicts`, `Causes`: the outcome of every step, read off the definition, the results so
  far and the clock, with the state, the error and the events that belong to it; and from these the
  whole history of a run, the cause of every final state, cancelling and expiry. `Transitions`: the
  transition table is exact.
- `Notifications`: what the transactions tell the broker and the signal store.
- `HistoryStream`, `Signals`, `Broker`: the concurrent objects as interleaved atomic steps with the
  classes that carry them out. `SignalOrder`: in which order signals are received, and which waits can
  still be reached. `Dispatch`: an execution, the broker and its streams together.
- `Registration`, `Catalogue`: the registration of definitions, and the definitions table as the engine
  reads it.

Assumptions. The closure given to `RunInTx` (infrastructure/persistence/transactionManager.go:7-25) is
one atomic step, and transactions on one execution are serialised. A database error, or a commit that
fails, undoes a whole transaction, except checkpoints, which are written outside it
(infrastructure/persistence/checkpoint_repository.go:37), and what the closure has already told the
objects in memory: the drained signals (usecase/task.go:104, 146, 198, 249; usecase/saga.go:106, 246,
299, 350) and the notification of startCompensation (usecase/saga.go:149). A failed commit is an
argument, `commits`, of the two reporting methods. The expiry sweep is not a transaction: it is
an UPDATE followed by separate statements per execution that interleave with everything else. There is
one integer clock that never runs backwards. Ids and event ids are fresh numbers; event ids may have
gaps. Recovery runs before requests are served, and registrations do not overlap (the active version is
read outside the transaction). Results of INDEPENDENT steps can be encoded.

## What the proofs brought to light

- `SaveResult` follows the move to COMPLETED and is guarded against terminal states, so the result
  column is never written (`Lifecycle.OneEndingAtTheEnd`); the result is in the last event only.
- An attempt is counted when a task is leased and again when it is retried. A step that may be
  attempted M times fails for good at report M/2 + 1, rounded down, which is M only for M of at most 2
  (`Attempts.EffectiveAttempts`, and `Attempts.EffectiveCompensationAttempts` for the rollback; both
  also say when a report ends the step if workers report on tasks that nobody polled).
- A heartbeat on a compensation task always grants 300 seconds. The promise of the grant, that nobody
  else gets the task before the granted lease runs out, is kept in every continuation if and only if
  the timeout of the step is at most 300 seconds (`CompensationLeases.CompensationLeaseExactlyWhen`).
- Signals of one key can be received out of order. Given a state in which they have not been, a wait
  makes that possible if and only if it overtakes: it starts while an earlier wait for the key is
  blocked with the signal still in its channel (`SignalOrder.ReordersExactlyWhen`). Runs without
  overtaking receive in order, overlapping waits or not (`SignalOrder.NoOvertakingReceivesInOrder`).
- One wait can put another out of reach for good (`SignalOrder.StrandsExactlyWhen`,
  `SignalOrder.SecondWaitStrandsTheFirst`), and a signal for which `Send` reported a live waiter is lost
  when that waiter gives up before it reads it (`Signals.LostExactlyWhen`).
- The report that ends an execution drains its signals before its transaction commits. If the commit
  fails, the execution lives on without them (`Notifications.DrainedThoughAlive`,
  `Notifications.DrainedThoughCompensating`).
- `startCompensation` notifies before its transaction commits, so a stream can use up the notification
  before there is anything to poll (`Broker.EarlyNotifyIsLost`); only the one-second timer ends that.
  Every other task and compensation task is announced after its commit, and no waiting stream sleeps
  over it (`Dispatch.NoTaskIsSleptOver`).
- A retried task writes STEP_RETRYING, but a retried compensation leaves no trace in the history, and
  neither does the scheduling of the first tasks (`Causes.HistoryIsTheStory`).
- Recovery would create a task for step `CurrentStep + 1` although the cursor already names the step in
  flight (`Runs.RecoveryWould`). It never does: its guard never fires (`Runs.RecoveryFindsNothing`).
- A comment (interface/grpc/execution_handler.go:79) says that cancelling is checked against the
  transition table. It is not, and neither are expiry and the saga endings; their changes of state are
  edges of the table all the same (`Lifecycle.StatesFollowTheTable`). Another
  (infrastructure/persistence/task_repository.go:135-136) speaks of leases of five minutes; the code
  takes the length from the row, and so does the model.

## Model

| member | source | states |
|---|---|---|
| StateMachine.PathsAreShort | domain/workflow/statemechine.go:16-37 | no path of the transition table visits more than four states, and the states it cannot leave are exactly those the UPDATE guards list by name |
| StateMachine.TerminalByName | infrastructure/persistence/workflow_execution_repository.go:151-183 | the guard `NOT IN ('COMPLETED','FAILED','CANCELLED')` is `IsTerminal` |
| Transitions.TableIsExact | domain/workflow/statemechine.go:16-37 | beyond CREATED, the transition table allows exactly the changes of state that some run makes |
| Rows.RenewalKeepsLease | infrastructure/persistence/compensation_task_repository.go:261-275 | renewing a task row never shortens its lease; renewing a compensation row never does if and only if its timeout is at most 300 seconds |
| Definitions.StepAtFindsEveryIndex | infrastructure/persistence/workflow_definition_step.go:88-109 | the lookup by index finds exactly the indices 1 to the number of steps |
| Definitions.CompensationStepsSelect | infrastructure/persistence/workflow_definition_step.go:111-141 | the query returns every step with a handler up to the index and no other, in strictly descending order |
| Definitions.AskingAgainContinues | usecase/saga.go:303-328 | asking again below the step just undone continues the first answer |
| Verdicts.QueryBeginsWithTheLast | infrastructure/persistence/workflow_definition_step.go:111-141 | the query's answer begins with the last step up to the index that has a handler, and is empty if there is none |
| History.Append | infrastructure/persistence/history_repository.go:39-59 | how an appended row changes the recorded results, undone steps and endings; ids stay in order |
| History.OutputsGrow | infrastructure/persistence/history_repository.go:39-59 | an extended history keeps what was recorded as a prefix |
| History.SortedByPlace | infrastructure/persistence/history_repository.go:92-130 | with one result per step the ordered list has the result of step k at place k |
| History.OrderOfCompletionIsInvisible | infrastructure/persistence/history_repository.go:92-130 | two completion orders of the same results give the same ordered list |
| History.OutputOfEachStep | usecase/saga.go:66-69 | the map by step holds exactly the completed steps, each with its own result |
| Preservation.RetryKeeps | usecase/task.go:43-78 | replacing a failed task by its retry keeps the invariant |
| Preservation.CompleteIndependentKeeps | usecase/task.go:152-203 | a success of an INDEPENDENT step keeps the invariant, on the last step by completing the execution |
| Preservation.AdvanceChainKeeps | usecase/task.go:205-297 | a success of a CHAIN or SAGA step keeps the invariant and always finds the next step |
| Preservation.FailExecutionKeeps | usecase/task.go:110-147 | a permanent failure closes the execution and leaves no active task |
| RollbackPreservation.FailSagaKeeps | usecase/saga.go:17-151 | a permanent failure of a SAGA starts the rollback of exactly the completed steps with a handler, or ends it at once |
| RollbackPreservation.NextToUndo | usecase/saga.go:264-328 | the counter test holds exactly when the search for a next step finds none, and otherwise the step found is the next to undo |
| Runs.ReportKeeps | usecase/task.go:18-310 | a report on a known task always commits, on an unknown one never; every outcome keeps the invariant |
| Runs.ReportCompensationKeeps | usecase/saga.go:153-403 | the same for reports on compensation tasks |
| Runs.FailedCommitIsALostReport | infrastructure/persistence/transactionManager.go:7-25 | when the commit of a report fails, nothing of it stays in the tables but the checkpoint of a success in a CHAIN or SAGA |
| Runs.FailedCommitOfCompensation | infrastructure/persistence/transactionManager.go:7-25 | of a compensation report nothing stays |
| Runs.RecoveryFindsNothing | usecase/service.go:143-209 | every RUNNING execution has an active task, so recovery changes nothing; for CHAIN and SAGA it is the only task, for step max(1, cursor), and its input is the checkpoint before it |
| Runs.RecoveryWould | usecase/service.go:149-206 | what recovery would do to a RUNNING execution without a task, which the invariant excludes: a task for the step after the cursor with the checkpoint at the cursor or else the input, three attempts, no timeout |
| Runs.HeartbeatRenews | infrastructure/persistence/task_repository.go:268-285 | a heartbeat on a RUNNING row moves the end of its lease to its timeout from now, on a compensation row to 300 seconds from now, and changes nothing else |
| Runs.NextKeeps | usecase/service.go:17-43 | every step of a run keeps the invariant, extends the history and follows the transition table |
| Runs.RunKeeps | usecase/service.go:17-43 | every run keeps the invariant |
| Starting.BeginKeeps | usecase/execution.go:14-101 | a workflow with a well-formed definition always starts, RUNNING, with its first task or with all tasks, and establishes the invariant |
| Starting.AfterAnyRun | usecase/execution.go:14-101 | after any run the invariant holds and steps, type, input, queue and deadline are as the request fixed them |
| Causes.BeginsTold | usecase/execution.go:50-66 | an execution starts RUNNING, without error, and its history with one WORKFLOW_STARTED that carries the input |
| Results.StepRecords | usecase/task.go:153-223 | a step adds a result exactly when it is an accepted success report, under the reported task's step |
| Results.ChainComposes | usecase/task.go:205-297 | a CHAIN computes the composition of its step functions: every task of step k carries the input the first k-1 functions produce, whatever retries, duplicates, lost reports and restarts occur, and the final payload is the whole composition |
| Results.IndependentFansIn | usecase/task.go:152-203 | results and tasks divide the steps, the counter counts results, and the final payload has the result of step k at place k |
| Results.CompletionOrderDoesNotMatter | usecase/task.go:152-203 | the final payload is the same for every order of completion |
| SagaRollback.RollbackIsExact | usecase/saga.go:279-374 | the compensated steps are completed steps with a handler, each once, in strictly descending order, and all of them when SAGA_ROLLED_BACK is logged |
| SagaRollback.CompensatingState | usecase/saga.go:264-352 | while COMPENSATING there is no task and exactly one compensation task, which names its own step and that step's handler, queue, attempts and timeout; done plus the eligible steps at or below it is the total, so the branch without a next step is never taken |
| SagaRollback.CompensationInputs | usecase/saga.go:117-201 | every compensation row, retried or not, names the handler of its own step, which is not empty, on the queue of that step or else of the execution, and carries the one result recorded for that step |
| SagaRollback.TasksAreTheirSteps | usecase/execution.go:139-157 | every task row, retried or not, has the name, the queue or else the execution's, the attempts and the timeout of its own step |
| Lifecycle.StatesFollowTheTable | domain/workflow/statemechine.go:16-37 | the states of an execution form a path of the transition table that starts RUNNING and has at most three states; only a SAGA is ever COMPENSATING |
| Lifecycle.ClosedStep | usecase/task.go:36-41 | the only step that writes to a closed execution is a report, and it writes to the reported row alone |
| Lifecycle.LateReportMarks | infrastructure/persistence/task_repository.go:205-217 | a report on a terminal execution writes COMPLETED or FAILED, the result and the error into its own row of either table, and nothing else; an unknown id has no effect |
| Lifecycle.ClosedForever | infrastructure/persistence/workflow_execution_repository.go:151-183 | a closed execution keeps its state and history in every continuation and never has an active row again |
| Lifecycle.OneEndingAtTheEnd | usecase/service.go:103-140 | the history has an ending event exactly when the execution is closed; it has one, it is last, and it is the one for the state |
| Verdicts.EveryStepIsTold | usecase/task.go:18-310 | every step of a run has an outcome that is determined by the definition, the recorded results, the attempts and the clock; it fixes the state and the error that the step leaves and the events, with step, name, payload and error, that it writes |
| Causes.HistoryIsTheStory | infrastructure/persistence/history_repository.go:39-59 | in every run the history is WORKFLOW_STARTED followed by the events of the outcomes, in order, and nothing else |
| Causes.EveryEndHasItsCause | domain/workflow/statemechine.go:16-37 | a run is COMPLETED, FAILED or CANCELLED exactly if one of its steps brought that about, and it has at most one such step: the last result, a final failure, the end of a rollback, the deadline, or a cancel |
| Causes.StateIsInTheHistory | infrastructure/persistence/history_repository.go:39-59 | outside an expiry sweep the state can be read off the history alone |
| Causes.CancelCancels | usecase/execution.go:103-130 | cancelling a live execution makes it CANCELLED, turns exactly its open rows of both tables CANCELLED and unlocked, and writes one WORKFLOW_CANCELLED; any other is left as it is |
| Causes.CancelledExactlyWhen | usecase/execution.go:103-130 | in every run the execution is CANCELLED exactly if a cancel found it live |
| Causes.ExpiresExactlyWhen | infrastructure/persistence/workflow_execution_repository.go:247-276 | in every run the expiry fails the execution exactly if a timeout was given at the start, more than that many seconds have passed since, and it is not over; otherwise it changes nothing |
| Causes.ExpiryCloses | usecase/service.go:103-140 | expiry and the four statements of its sweep leave the execution FAILED with the timeout as error, its open rows of both tables CANCELLED, and WORKFLOW_TIMED_OUT and WORKFLOW_FAILED as its last events |
| Lifecycle.GoneForever | infrastructure/persistence/task_repository.go:219-222 | a settled task id never comes back |
| Lifecycle.AcceptedIsGone | usecase/task.go:43-297 | every report that a live execution accepts removes its row |
| Lifecycle.SecondReportIsHarmless | usecase/task.go:21-41 | a later report on the same id, whatever lies in between, has no effect or touches only its own row of a terminal execution |
| Lifecycle.GoneCompensationForever | infrastructure/persistence/compensation_task_repository.go:60-81 | a settled compensation task id never comes back |
| Lifecycle.AcceptedCompensationIsGone | usecase/saga.go:182-391 | every compensation report that a live execution accepts removes its row |
| Lifecycle.SecondCompensationReportIsHarmless | usecase/saga.go:153-180 | a later report on the same compensation task, whatever lies in between, has no effect or touches only its own row of a terminal execution |
| Lifecycle.OneResultPerStep | usecase/task.go:153-223 | at most one result is recorded per step |
| Termination.PotentialNeverGrows | usecase/task.go:43-148 | every report a live execution takes uses up some of a budget that nothing else adds to |
| Termination.ReportsUsePotential | usecase/saga.go:182-374 | the reports of a run and the budget left never exceed the budget at its start |
| Termination.ReportBound | usecase/task.go:18-310 | an execution takes at most twice the sum of MaxAttempts + 1 reports, and as long as it is not terminal there is an active task to report on |
| RowFates.Fates | infrastructure/persistence/task_repository.go:140-243 | in every step of every run, a row of either table that was there is leased when eligible, renewed when RUNNING, made inactive or left as it was, and a row that is new retries the reported one or begins another step; a report that a live execution takes removes its row |
| Attempts.AttemptsCountLeasesAndRetries | infrastructure/persistence/task_repository.go:180-188 | in every run of the engine, heartbeats and all, `attempt` of an active row of either table is the number of leases granted plus the number of retries made of its step; if reports follow polls, leases are at least retries, plus one while the row is leased |
| Attempts.FailureIsFinal | usecase/task.go:43-148 | a failure report on a task of a live execution ends the forward run exactly when the attempts are used up |
| Attempts.CompensationFailureIsFinal | usecase/saga.go:182-247 | the same for a compensation task and the rollback |
| Attempts.EffectiveAttempts | usecase/task.go:43-78 | in every run of the engine, failure report n on a task ends the forward run if and only if leases granted and n together exceed M; if reports follow polls it does so by n = M/2 + 1, and exactly then if no lease of the step expired |
| Attempts.EffectiveCompensationAttempts | usecase/saga.go:182-218 | the same for compensation tasks |
| Attempts.RetriesBackOff | usecase/task.go:66-68 | in every run in which reports follow polls, after n retries a row of either table is not granted sooner than 10n(n+1)(2n+1)/3 seconds after the first lease of its step |
| Schedules.RetryWaits | usecase/task.go:49-78 | in every run a retried failure replaces its row by the same row one attempt further, without result, error and lease, and that is granted exactly from 5(a+1)(a+1) seconds after the report on, where a is the attempt that failed |
| Schedules.CompensationRetryWaits | usecase/saga.go:182-211 | the same for compensation tasks |
| Schedules.FirstTasksAreDue | usecase/execution.go:139-157 | the first tasks of an execution may be leased at once |
| Schedules.SuccessorsAreDue | usecase/task.go:262-281 | so may every task that follows a success, and every compensation task that is not a retry |
| Leases.OneLeaseAtATime | infrastructure/persistence/task_repository.go:140-203 | while one row of a CHAIN or SAGA is leased, in either table, no other is active and no poll grants anything |
| Leases.TaskRowStep | infrastructure/persistence/task_repository.go:140-217 | a step leaves a task row as it was, leases it when eligible, renews it, or makes it inactive; new rows are not leased |
| Leases.LeaseIsExclusive | infrastructure/persistence/task_repository.go:268-285 | a leased task is not granted again before its lease runs out, whatever lies in between |
| Leases.LeaseRunsForTheTimeout | infrastructure/persistence/task_repository.go:140-203 | in every run a granting poll and a heartbeat lease a task until the timeout of its step from now; nobody else gets it before, and if its worker falls silent somebody gets it exactly from then on |
| Leases.GrantedExactlyWhen | infrastructure/persistence/task_repository.go:151-163 | as long as nobody touches it, an active task is granted exactly from its scheduled time on, or after its lease has run out |
| Leases.NeverGrantedAgain | infrastructure/persistence/task_repository.go:151-163 | an issued task id that names no active row is granted in no continuation |
| Leases.SettledIsNeverGranted | usecase/task.go:21-41 | a task that was reported on, or whose execution is over, is never granted again |
| CompensationLeases.CompensationRowStep | infrastructure/persistence/compensation_task_repository.go:121-200 | a step leaves a compensation row as it was, leases it when eligible, renews it for 300 seconds, or makes it inactive; new rows are not leased |
| CompensationLeases.CompensationLeaseIsExclusive | infrastructure/persistence/compensation_task_repository.go:121-185 | a leased compensation task whose timeout is at most 300 seconds is not granted again before its lease runs out, whatever lies in between |
| CompensationLeases.GrantedTwice | infrastructure/persistence/compensation_task_repository.go:261-275 | with a longer timeout, a heartbeat and 301 seconds later the task is granted a second time while the first granted lease still runs |
| CompensationLeases.CompensationLeaseExactlyWhen | infrastructure/persistence/compensation_task_repository.go:121-275 | in every run, the promise of a grant is kept by every continuation if and only if the timeout is at most 300 seconds |
| CompensationLeases.LeaseRunsForTheTimeout | infrastructure/persistence/compensation_task_repository.go:261-275 | in every run a granting poll leases a compensation task for the timeout of its step and a heartbeat for 300 seconds; after a heartbeat nobody else gets it within them, and if its worker falls silent somebody gets it exactly when the lease has run out |
| CompensationLeases.GrantedExactlyWhen | infrastructure/persistence/compensation_task_repository.go:129-142 | as long as nobody touches it, an active compensation task is granted exactly from its scheduled time on, or after its lease has run out |
| CompensationLeases.SettledIsNeverGranted | usecase/saga.go:153-180 | a compensation task that was reported on, or whose execution is over, is never granted again |
| Notifications.ReportTells | usecase/task.go:305-307 | every task or compensation task that a report adds is announced on its own queue when it commits, and the execution's signals are drained exactly if the report ends it; the two rows on failed commits say what holds otherwise |
| Notifications.ReportCompensationTells | usecase/saga.go:399-401 | the same for compensation reports, which never announce before the commit |
| Notifications.EarlyOnlyForARollback | usecase/saga.go:149-149 | a report notifies before the commit only when it moves a RUNNING SAGA to COMPENSATING |
| Notifications.DrainedThoughAlive | usecase/task.go:145-146 | if the commit fails, the signals of an execution that lives on are dropped exactly when the report would have ended it |
| Notifications.DrainedThoughCompensating | usecase/saga.go:345-352 | the same for a compensation report and the rollback |
| Notifications.StartTells | usecase/execution.go:98-100 | the one notification of a start announces all its tasks if and only if no step it schedules names another queue |
| HistoryStream.StreamIsComplete | interface/grpc/history_handler.go:26-66 | for every interleaving the stream has sent a prefix of the history in id order, and when it closes gracefully the whole of a history that never grows again |
| HistoryStream.AfterTheCursor | infrastructure/persistence/history_repository.go:77-87 | the rows after the id of the n-th event are the history from its n-th place on |
| HistoryStream.EndingIsLast | interface/grpc/history_handler.go:54-62 | an ending event in the history is its last event, and the execution is closed |
| HistoryStream.RoundCatchesUp | interface/grpc/history_handler.go:32-66 | one round of the loop brings the client all events that it has not got, and closes the stream gracefully exactly if the execution is closed |
| HistoryStream.Sender.Round | interface/grpc/history_handler.go:32-62 | a round sends exactly the events after the cursor, moves the cursor to the last, and closes the stream if and only if one is an ending |
| Storage.RowSet | infrastructure/persistence/task_repository.go:205-217 | updating one row changes only the share of its own execution |
| Storage.RowsCancelled | infrastructure/persistence/task_repository.go:235-243 | cancelling by execution cancels the active rows of that execution and leaves all other rows |
| Storage.UnusedIsFree | infrastructure/persistence/task_repository.go:43-44 | the UNIQUE constraint on (execution, step) is freedom of the step within the execution's share |
| Storage.EventWritten | infrastructure/persistence/history_repository.go:39-59 | an INSERT into the shared history extends one execution's history by that event |
| Storage.CheckpointWritten | infrastructure/persistence/checkpoint_repository.go:34-48 | the upsert sets one step of one execution |
| Storage.RolledBackViews | infrastructure/persistence/checkpoint_repository.go:37-37 | a rollback leaves the execution as it was but for its checkpoints |
| Storage.Database.UpdateState | infrastructure/persistence/workflow_execution_repository.go:151-183 | sets the state unless it is terminal, which is a conflict |
| Storage.Database.SaveResult | infrastructure/persistence/workflow_execution_repository.go:196-205 | writes the result unless the state is terminal |
| Storage.Database.UpdateStepCursor | infrastructure/persistence/workflow_execution_repository.go:185-194 | moves the cursor unless the state is terminal |
| Storage.Database.IncrementCompletedSteps | infrastructure/persistence/workflow_execution_repository.go:210-221 | returns the new count it wrote |
| Storage.Database.IncrementCompensationDone | infrastructure/persistence/workflow_execution_repository.go:223-234 | returns the new count it wrote |
| Storage.Database.ExpireOverdue | infrastructure/persistence/workflow_execution_repository.go:247-276 | fails exactly the executions whose deadline_at is before now and whose state is not terminal, with the timeout as error, and returns their ids, each once |
| Storage.Database.UpdateTaskCompleted | infrastructure/persistence/task_repository.go:205-217 | rewrites the row of a known id and does nothing for an unknown one |
| Storage.Database.CreateTask | infrastructure/persistence/task_repository.go:73-85 | inserts the row, unless its attempts are not positive or the execution already has a task for the step |
| Storage.Database.DeleteTask | infrastructure/persistence/task_repository.go:219-222 | removes the row from its execution's share |
| Storage.Database.CancelTasks | infrastructure/persistence/task_repository.go:235-243 | cancels the execution's active rows |
| Storage.Database.HasActiveTasks | infrastructure/persistence/task_repository.go:261-268 | true exactly if the execution has a row that is CREATED or RUNNING |
| Storage.Database.FirstPending | infrastructure/persistence/task_repository.go:151-163 | finds the eligible row of the queue that is scheduled first, and nothing only if every row of the queue that waits is scheduled later and every leased one is leased still |
| Storage.Database.FirstPendingCompensation | infrastructure/persistence/compensation_task_repository.go:129-142 | the same for compensation rows |
| Storage.Database.UpdateCompensationCompleted | infrastructure/persistence/compensation_task_repository.go:187-200 | rewrites the row of a known id and does nothing for an unknown one |
| Storage.Database.CreateCompensation | infrastructure/persistence/compensation_task_repository.go:60-81 | inserts the row unless the step already has one |
| Storage.Database.CancelCompensations | infrastructure/persistence/compensation_task_repository.go:251-259 | cancels the execution's active rows |
| Storage.Database.AppendHistory | infrastructure/persistence/history_repository.go:39-59 | appends one event with the next id |
| Storage.Database.GetLatest | infrastructure/persistence/checkpoint_repository.go:50-71 | the checkpoint of this very step, if there is one |
| Fleet.OneChanged | infrastructure/persistence/transactionManager.go:7-25 | a transaction on one execution keeps the invariant of all |
| Fleet.OneActs | usecase/service.go:17-43 | an action on one execution is a step of a run for that execution and for every other |
| Fleet.OneStarted | usecase/execution.go:50-101 | starting an execution keeps the invariant of all and is a step of a run for the others |
| Fleet.RolledBackStart | usecase/execution.go:93-95 | a start that is rolled back leaves every other execution as it was |
| Fleet.SweepGoesOn | usecase/service.go:109-137 | a round of the expiry loop sweeps one more execution and disturbs none |
| Interactors.IndexOutputs | usecase/saga.go:66-69 | the loop builds the map from each step to its last result |
| Interactors.SelectActive | usecase/saga.go:71-76 | the loop keeps the steps with a recorded result, in order |
| Interactors.FindNext | usecase/saga.go:321-328 | the loop finds the first step with a recorded result |
| Interactors.ReportIsAnnounced | usecase/task.go:305-307 | the queue of every task and compensation task that a report adds is notified, and the signals of the execution are drained exactly if the report ends it |
| Interactors.CompensationReportIsAnnounced | usecase/saga.go:399-401 | the same for compensation reports |
| Interactors.GivenUpExactlyWhen | usecase/saga.go:213-248 | the flag for a rollback that is given up is set exactly if this report made the rollback fail |
| Interactors.Interactor.StartCompensation | usecase/saga.go:17-151 | does what the rollback's opening function says, with its notification before the commit; what that function creates is the row of `SagaRollback.CompensatingState` |
| Interactors.Interactor.CompleteTask | usecase/task.go:18-310 | a report on a known task leaves its execution as the transaction function says, notifies and drains accordingly, touches no other execution and keeps the invariant of all; if the commit fails it leaves only the checkpoint, the drained signals and the early notification; for an unknown task it fails without effect |
| Interactors.Interactor.CompleteCompensationTask | usecase/saga.go:153-403 | the same for compensation reports; success is false exactly if the rollback is given up, the commit fails, or the task is unknown |
| Interactors.Interactor.AdvanceRollback | usecase/saga.go:250-391 | counts the step, then ends the rollback or schedules the next compensation |
| Interactors.Interactor.CreateTasks | usecase/execution.go:75-81 | the loop creates one task per step or fails as a whole |
| Interactors.Interactor.StartWorkflow | usecase/execution.go:14-101 | for a known definition adds exactly one execution, which is as the request says (`Starting.BeginKeeps`, `Causes.BeginsTold`), leaves all others, and notifies its queue; for an unknown one fails without effect |
| Interactors.Interactor.CancelWorkflow | usecase/execution.go:103-130 | makes an execution that is not over CANCELLED, with all its active rows, and drains its signals; otherwise it is a conflict without effect |
| Interactors.Interactor.PollTask | usecase/task.go:14-16 | leases the eligible task of the queue that is scheduled first, and returns nothing only if there is none |
| Interactors.Interactor.PollCompensationTask | usecase/saga.go:13-15 | the same for compensation tasks |
| Interactors.Interactor.HeartbeatTask | infrastructure/persistence/task_repository.go:271-285 | renews the lease of a RUNNING task and fails without effect on any other |
| Interactors.Interactor.HeartbeatCompensationTask | infrastructure/persistence/compensation_task_repository.go:261-275 | renews for 300 seconds |
| Interactors.Interactor.ExpireOverdueWorkflows | usecase/service.go:103-140 | without interruption it closes exactly the executions whose deadline_at is before now and which are not over, drains their signals, and leaves the rest as they are |
| Interactors.Interactor.RecoverExecution | usecase/service.go:149-206 | the body of the recovery loop does what the recovery function says |
| Interactors.Interactor.RecoverWorkflows | usecase/service.go:143-209 | on tables that satisfy the invariant recovery changes nothing, notifies nobody, and leaves every execution where a run could |
| Signals.SignalsAreConserved | usecase/signal.go:59-156 | over every interleaving each signal sent is in exactly one of six places: received, pending, in the channel of a blocked call that can still read it, abandoned in the channel of a call that is leaving or has left, overwritten, or drained |
| Signals.LostExactlyWhen | usecase/signal.go:116-133 | a signal for which Send reported a waiter is lost exactly when that call gives up with the signal in its channel, or was already leaving |
| Signals.LostForGood | usecase/signal.go:123-133 | a signal lost that way stays lost |
| Signals.WaitReturnsExactlyWhen | usecase/signal.go:116-133 | a registered wait returns exactly when it takes its signal, sees its channel closed, or has cleaned up after giving up, and returns once |
| Signals.NoChannelFaults | usecase/signal.go:65-80 | no step sends to a full or closed channel or closes one twice, even with overlapping waits |
| Signals.SafeKeeps | usecase/signal.go:92-133 | no key is in both maps, and registered channels are open, empty and registered once |
| Signals.JustReceived | usecase/signal.go:95-115 | what a step receives was never received before |
| Signals.WaiterFirst | usecase/signal.go:65-75 | a signal sent to a waiting call notifies it, and that call receives this very signal |
| Signals.SignalFirst | usecase/signal.go:77-99 | a signal sent to nobody is kept, and the next wait returns it at once |
| Signals.DrainIsForOneExecution | usecase/signal.go:140-156 | key by key, message by message and channel by channel: what is pending or registered for the execution is dropped, each of its registered waits sees its channel closed, and nothing of any other execution changes |
| Signals.EveryStepIsForOneKey | usecase/signal.go:59-133 | no other step touches what is pending or registered under another key, or the channel of a wait for another key |
| SignalOrder.NoOvertakingReceivesInOrder | usecase/signal.go:89-133 | in every run in which no wait starts while an earlier wait for its key has an unread channel, each key receives an in-order subsequence of what was sent |
| SignalOrder.OvertakingReorders | usecase/signal.go:94-121 | from any state in which the order still holds, an overtaking wait has a continuation, without further overtaking, that receives out of order |
| SignalOrder.ReordersExactlyWhen | usecase/signal.go:89-133 | a wait can be followed by a reception out of order, without further overtaking, if and only if it overtakes |
| SignalOrder.OneWaitReceivesInOrder | usecase/signal.go:89-133 | with one wait per key at a time there is no overtaking, each key receives in order, and no blocked wait is out of reach |
| SignalOrder.OverlappingWaitsReorder | usecase/signal.go:94-115 | a run of two overlapping waits in which the later signal is received first |
| SignalOrder.SecondWaitStrandsTheFirst | usecase/signal.go:104-106 | after two waits for the same key in a row the first is out of reach |
| SignalOrder.StrandsExactlyWhen | usecase/signal.go:104-133 | a step puts a blocked wait out of reach exactly when that wait is registered and the step is another wait for its key or the clean-up of another wait for its key |
| SignalOrder.StrandedForGood | usecase/signal.go:116-133 | a wait out of reach never receives: it can only give up |
| Signals.SignalStore.Send | usecase/signal.go:59-81 | refines the sending section; true exactly if a waiter was registered |
| Signals.SignalStore.Wait | usecase/signal.go:89-106 | refines the first critical section of a wait |
| Signals.SignalStore.Take | usecase/signal.go:116-121 | hands over the signal in the channel, or nothing from a closed one |
| Signals.SignalStore.Leave | usecase/signal.go:123-133 | refines the clean-up section |
| Signals.SignalStore.Drain | usecase/signal.go:140-156 | the two loops drop exactly the execution's signals and registrations and close its channels, and leave those of every other execution as they are |
| Broker.NoLostWakeUp | usecase/broker.go:18-60 | in every run a stream that waits while an announced task of its queue is ready has a token in its channel, and no Notify sends on a closed channel |
| Broker.ListedKeeps | usecase/broker.go:37-60 | the list of a queue always names each of its open streams once and nothing else |
| Broker.NoneAsleepKeeps | interface/grpc/task_handler.go:18-57 | every step, also somebody else's leaving, keeps waiting streams awake to announced tasks |
| Broker.SleepsExactlyWhen | interface/grpc/task_handler.go:48-55 | a stream begins to sleep over a task exactly when the task is committed while it waits without a token |
| Broker.SleepEnds | interface/grpc/task_handler.go:48-55 | calling Notify after the commit ends that, and so does the poll after the timer |
| Broker.TokensExactlyWhen | usecase/broker.go:18-57 | a step gives a token to exactly the open streams of the queue it notifies, takes one exactly from the stream that wakes up, and closes a channel only when its own stream leaves |
| Broker.EarlyNotifyIsLost | usecase/saga.go:149-149 | a notification before the commit can be used up before the task exists |
| Dispatch.NoTaskIsSleptOver | usecase/task.go:305-307 | in every run of an execution with the broker and its streams, a stream that waits while an untried task of its queue is there has a token to wake it, as soon as the Notify that follows the commit was called; likewise for every compensation task after the first of a rollback |
| Broker.WithoutKeepsTheRest | usecase/broker.go:50-57 | removing a channel from a list keeps all others |
| Broker.TaskBroker.Notify | usecase/broker.go:18-35 | the loop leaves a token in every channel listed for the queue and changes no other channel and no list |
| Broker.TaskBroker.Subscribe | usecase/broker.go:37-42 | adds a new open channel at the end of the queue's list |
| Broker.TaskBroker.Unsubscribe | usecase/broker.go:44-57 | removes and closes the channel where it is listed; a second call does nothing |
| Registration.Registry.RegisterWorkflow | usecase/registration.go:13-113 | rejects an unknown type or else an empty step list without effect, each with its own error; otherwise adds the next version as the only active one, with one well-formed step row per name |
| Registration.CreateSteps | usecase/registration.go:77-105 | the rows are indexed 1, 2, 3, ...; each has the name and the handler at its own place, the timeout or 300 seconds, its attempts or 3, and no queue, and the lookup by index finds it |
| Registration.NextVersion | usecase/registration.go:46-58 | with versions 1 to n and n active, a registration gives versions 1 to n + 1 and n + 1 active |
| Registration.TablesStayOk | usecase/registration.go:46-107 | after every registration the versions of each name are exactly 1 to n with n alone active, and every definition's steps are indexed 1 to their number with positive attempts and timeouts |
| Registration.AllNames | usecase/registration.go:46-75 | a registration does that to its own name and nothing to any other |
| Registration.Registry.GetByName | infrastructure/persistence/workflow_definition_repository.go:119-140 | finds the latest version of a name, and nothing if the name is new |
| Catalogue.RegisteredIsWellFormed | usecase/registration.go:60-107 | every registered definition is what the engine demands of its definitions, of the registered type, with as many steps as recorded and no step with a queue of its own |
| Catalogue.EarlierStay | usecase/registration.go:46-75 | a registration leaves every earlier definition and its steps as the engine reads them |
| Catalogue.MoreDefinitionsKeep | usecase/registration.go:60-107 | more definitions keep the invariant of all executions and change none of them |

## Left out

- PostgreSQL itself: tables are maps and sequences with the WHERE guards and constraints of the SQL; isolation anomalies inside a transaction, SKIP LOCKED contention and connection errors are not modelled beyond the rollback of a whole transaction.
- Interactors.Interactor.ExpireOverdueWorkflows: the method is proved for a sweep without interruption; the sweep interleaved with other steps is covered by `Runs`, where its statements are separate steps. A crash inside the sweep, and statements of it that fail and are only logged, are not modelled.
- Interactors.Interactor.StartWorkflow: deadlines come only from the timeout given at the start, because the definition's default timeout is neither stored nor read.
- Broker.NoLostWakeUp: it speaks of tasks that are ready when committed; a retry becomes ready later, without a notification of its own, and is left to the one-second timer.
- Attempts.RetriesBackOff: workers learn the ids of tasks from polls, so reports on a task that nobody has leased are left out here; the server does not refuse them, and such a report could bring the retry forward.
- Dispatch.NoTaskIsSleptOver: it leaves out the first compensation task of a rollback, which is announced before the commit and can be slept over (`Broker.SleepsExactlyWhen`, `Broker.EarlyNotifyIsLost`), retries, which become ready later, and definitions whose first steps name a queue of their own (`Notifications.StartTells`), which registration never writes. One execution is followed; the rest of the fleet appears as other steps of the broker.
- The stream loops of interface/grpc/task_handler.go and the select statements are steps of a state machine, since they do not terminate; goroutines and contexts are the choice among enabled steps.
- Channels are numbered records in a sequence that the methods update, so aliasing of Go channels is modelled by their numbers.
- JSON: the combined result of an INDEPENDENT execution is the list of step, name and bytes; a result that is not valid JSON, which would make the encoding fail, is excluded.
- The wording of the error logged when a rollback cannot start, started_at and completed_at columns, the SCHEDULED task state (never written), logging, and NULL as opposed to empty bytes.
- gRPC validation and status codes, namespaces (a namespace has the workflow's name), defaulting of queue names, server start-up and shutdown.
- Overflow of `time.Duration` in the backoff of steps with very many attempts; integers are unbounded.
- ResetTimedOutTasks, GetPendingByExecution and the other getters that nothing calls or that only read.
