/** One execution with everything the database holds about it, and the effect on it of each
    transaction of the use cases (usecase/task.go, saga.go, execution.go, service.go). The class
    Interactor carries these transactions out statement by statement. */
module Instances {
  import opened StateMachine
  import opened Domain
  import opened Rows
  import opened Definitions
  import opened History

  /** How far the expiry sweep has come with an execution whose state it has flipped. */
  datatype Sweep = Idle | Flipped | TasksCancelled | CompensationsCancelled | TimeoutLogged

  /** The rows of one execution. now, nextId and nextEvent are shared by all executions: the
      clock, the supply of fresh task ids and the sequence behind the event ids. */
  datatype Instance = Instance(
    steps: seq<StepDef>,
    exec: Execution,
    tasks: map<int, Row>,
    comps: map<int, Row>,
    history: seq<Event>,
    checkpoints: map<int, Bytes>,
    sweep: Sweep,
    now: int,
    nextId: int,
    nextEvent: int)

  /** CommitFailed is the database's answer to a COMMIT; the others are errors of the closure. */
  datatype Error = NotFound | Conflict | InvalidTransition | NoSteps | CommitFailed

  /** The end of a transaction: either it commits, or it fails in a state that is discarded.
      notify is the queue signalled after the commit and early the one signalled before it ("" for
      none); drained says that the execution's signals are dropped. */
  datatype Tx =
    | Commit(next: Instance, notify: string, early: string, drained: bool)
    | Rollback(dirty: Instance, error: Error)

  // ---------------------------------------------------------------- statements

  function Log(i: Instance, kind: EventType, step: int, stepName: string, payload: Payload, error: string): Instance {
    i.(history := Append(i.history, Event(i.nextEvent, kind, step, stepName, payload, error)),
       nextEvent := i.nextEvent + 1)
  }

  /** UpdateState; None is ErrConflict. */
  function SetState(i: Instance, s: State): Option<Instance> {
    if IsTerminal(i.exec.state) then None else Some(i.(exec := i.exec.(state := s)))
  }

  /** UpdateState where the caller ignores the error. */
  function TrySetState(i: Instance, s: State): Instance {
    if IsTerminal(i.exec.state) then i else i.(exec := i.exec.(state := s))
  }

  /** SaveResult writes only to a row that is not terminal. */
  function SaveResult(i: Instance, result: Payload): Instance {
    if IsTerminal(i.exec.state) then i else i.(exec := i.exec.(result := Some(result)))
  }

  function SaveError(i: Instance, error: string): Instance {
    i.(exec := i.exec.(error := error))
  }

  /** The constraint UNIQUE (workflow_execution_id, step_index). */
  predicate StepFree(rows: map<int, Row>, step: int) {
    forall id :: id in rows ==> rows[id].stepIndex != step
  }

  function InsertTask(i: Instance, r: Row): Option<Instance> {
    if r.maxAttempts > 0 && r.attempt >= 0 && StepFree(i.tasks, r.stepIndex)
    then Some(i.(tasks := i.tasks[i.nextId := r], nextId := i.nextId + 1))
    else None
  }

  function InsertCompensation(i: Instance, r: Row): Option<Instance> {
    if StepFree(i.comps, r.stepIndex)
    then Some(i.(comps := i.comps[i.nextId := r], nextId := i.nextId + 1))
    else None
  }

  function DropTask(i: Instance, id: int): Instance {
    i.(tasks := i.tasks - {id})
  }

  function DropCompensation(i: Instance, id: int): Instance {
    i.(comps := i.comps - {id})
  }

  function QueueFor(step: StepDef, fallback: string): string {
    if step.taskQueue == "" then fallback else step.taskQueue
  }

  function BuildTask(step: StepDef, input: Bytes, queue: string, now: int): Row {
    Row(step.stepIndex, step.stepName, "", QueueFor(step, queue), input, [], Created, "", 0,
        step.maxAttempts, step.timeoutSeconds, now, None)
  }

  function BuildCompensation(step: StepDef, input: Bytes, queue: string, now: int): Row {
    BuildTask(step, input, queue, now).(compensationStepName := step.compensationStepName)
  }

  // ---------------------------------------------------------------- messages

  const NOTHING_TO_UNDO := "Saga rolled back: no successful steps to compensate"
  const ALL_UNDONE := "Saga rolled back successfully"
  const START_FAILED := "Saga compensation start failed"
  const TIMED_OUT := "workflow exceeded its configured timeout"

  function RollbackFailure(stepName: string, error: string): string {
    "Saga rollback failed at step " + stepName + ": " + error
  }

  // ---------------------------------------------------------------- StartWorkflow

  /** Task creation for the first n steps of an INDEPENDENT execution. */
  function FanOut(i: Instance, n: nat): Option<Instance>
    requires n <= |i.steps|
  {
    if n == 0 then Some(i)
    else match FanOut(i, n - 1)
      case None => None
      case Some(j) => InsertTask(j, BuildTask(i.steps[n - 1], i.exec.input, i.exec.taskQueue, i.now))
  }

  function NewExecution(kind: WorkflowType, steps: int, queue: string, input: Bytes, timeout: int,
                        now: int): Execution {
    Execution(kind, queue, steps, 0, 0, input, None, Created, "",
              if timeout > 0 then Some(now + timeout) else None, 0, 0)
  }

  function StartTx(steps: seq<StepDef>, exec: Execution, now: int, nextId: int, nextEvent: int): Tx {
    var i := Instance(steps, exec, map[], map[], [], map[], Idle, now, nextId, nextEvent);
    var j := Log(i, WorkflowStarted, 0, "", Raw(exec.input), "");
    if !CanMove(exec.state, Running) then Rollback(j, InvalidTransition)
    else match SetState(j, Running)
      case None => Rollback(j, Conflict)
      case Some(k) =>
        if exec.workflowType == Independent then
          match FanOut(k, |steps|)
          case None => Rollback(k, Conflict)
          case Some(l) => Commit(l, exec.taskQueue, "", false)
        else if steps == [] then Rollback(k, NoSteps)
        else match InsertTask(k, BuildTask(steps[0], exec.input, exec.taskQueue, now))
          case None => Rollback(k, Conflict)
          case Some(l) => Commit(l, exec.taskQueue, "", false)
  }

  // ---------------------------------------------------------------- CompleteTask

  function RetryTask(i: Instance, id: int): Tx
    requires id in i.tasks
  {
    var t := i.tasks[id];
    var j := DropTask(Log(i, StepRetrying, t.stepIndex, t.stepName, Empty, t.error), id);
    match InsertTask(j, RetryRow(t, i.now))
    case None => Rollback(j, Conflict)
    case Some(k) => Commit(k, t.taskQueue, "", false)
  }

  /** The steps that will be undone: those returned by the query that have a recorded output. */
  function WithOutput(steps: seq<StepDef>, outputs: map<int, Bytes>): seq<StepDef> {
    if steps == [] then []
    else
      var rest := WithOutput(steps[..|steps| - 1], outputs);
      if steps[|steps| - 1].stepIndex in outputs then rest + [steps[|steps| - 1]] else rest
  }

  /** The first step of the query's answer that has a recorded output. */
  function FirstWithOutput(steps: seq<StepDef>, outputs: map<int, Bytes>): Option<StepDef> {
    if steps == [] then None
    else if steps[0].stepIndex in outputs then Some(steps[0])
    else FirstWithOutput(steps[1..], outputs)
  }

  /** The end of a rollback that undid everything. */
  function EndRollback(i: Instance, message: string): Option<Instance> {
    match SetState(i, Failed)
    case None => None
    case Some(j) =>
      Some(Log(Log(j, SagaRolledBack, 0, "", Empty, ""), WorkflowFailed, 0, "", Empty, message))
  }

  function ScheduleCompensation(i: Instance, step: StepDef, input: Bytes): Option<Instance> {
    match InsertCompensation(i, BuildCompensation(step, input, i.exec.taskQueue, i.now))
    case None => None
    case Some(j) => Some(Log(j, StepScheduled, step.stepIndex, step.stepName, Empty, ""))
  }

  /** startCompensation: Refused is an error of the state machine, which the caller turns into a
      failed execution; Broken is a database error, which undoes the whole transaction. */
  datatype Rollout =
    | Started(next: Instance, early: string, drained: bool)
    | Refused(dirty: Instance)
    | Broken(dirty: Instance)

  function StartCompensation(i: Instance, failedAt: int): Rollout {
    if !CanMove(i.exec.state, Compensating) then Refused(i)
    else match SetState(i, Compensating)
      case None => Refused(i)
      case Some(j) =>
        var k := Log(j, CompensationStarted, 0, "", Empty, "");
        var outputs := OutputByStep(StepOutputs(k.history));
        var active := WithOutput(CompensationSteps(k.steps, failedAt - 1), outputs);
        var l := k.(exec := k.exec.(compensationTotal := |active|));
        if active == [] then
          match EndRollback(l, NOTHING_TO_UNDO)
          case None => Refused(l)
          case Some(m) => Started(m, "", true)
        else
          var first := active[0];
          match ScheduleCompensation(l, first, if first.stepIndex in outputs then outputs[first.stepIndex] else [])
          case None => Broken(l)
          case Some(m) => Started(m, QueueFor(first, l.exec.taskQueue), false)
  }

  function FailSaga(i: Instance, id: int): Tx
    requires id in i.tasks
  {
    var t := i.tasks[id];
    var j := Log(i, StepFailed, t.stepIndex, t.stepName, Empty, t.error);
    match StartCompensation(j, t.stepIndex)
    case Started(k, early, drained) => Commit(DropTask(k, id), "", early, drained)
    case Refused(k) =>
      var l := TrySetState(SaveError(k, START_FAILED), Failed);
      Commit(DropTask(Log(l, WorkflowFailed, 0, "", Empty, START_FAILED), id), "", "", true)
    case Broken(k) => Rollback(k, Conflict)
  }

  function FailExecution(i: Instance, id: int): Tx
    requires id in i.tasks
  {
    var t := i.tasks[id];
    if !CanMove(i.exec.state, Failed) then Rollback(i, InvalidTransition)
    else match SetState(SaveError(i, t.error), Failed)
      case None => Rollback(i, Conflict)
      case Some(j) =>
        var k := j.(tasks := CancelRows(j.tasks));
        var l := Log(k, StepFailed, t.stepIndex, t.stepName, Empty, t.error);
        Commit(DropTask(Log(l, WorkflowFailed, 0, "", Empty, t.error), id), "", "", true)
  }

  /** The move to COMPLETED, common to both kinds of success. */
  function Finish(i: Instance, payload: Payload): Option<Instance> {
    if !CanMove(i.exec.state, Completed) then None
    else match SetState(i, Completed)
      case None => None
      case Some(j) => Some(Log(SaveResult(j, payload), WorkflowCompleted, 0, "", payload, ""))
  }

  function CompleteIndependent(i: Instance, id: int): Tx
    requires id in i.tasks
  {
    var t := i.tasks[id];
    var j := Log(i, StepCompleted, t.stepIndex, t.stepName, Raw(t.output), "");
    var k := j.(exec := j.exec.(completedSteps := j.exec.completedSteps + 1));
    if k.exec.completedSteps == k.exec.totalSteps then
      match Finish(k, Combined(StepOutputs(k.history)))
      case None => Rollback(k, InvalidTransition)
      case Some(l) => Commit(DropTask(l, id), "", "", true)
    else Commit(DropTask(k, id), "", "", false)
  }

  function AdvanceChain(i: Instance, id: int): Tx
    requires id in i.tasks
  {
    var t := i.tasks[id];
    var j := Log(i.(checkpoints := i.checkpoints[t.stepIndex := t.output]),
                 StepCompleted, t.stepIndex, t.stepName, Raw(t.output), "");
    if t.stepIndex + 1 > j.exec.totalSteps then
      match Finish(j, Raw(t.output))
      case None => Rollback(j, InvalidTransition)
      case Some(k) => Commit(DropTask(k, id), "", "", true)
    else match StepAt(j.steps, t.stepIndex + 1)
      case None => Rollback(j, NotFound)
      case Some(step) =>
        match InsertTask(j, BuildTask(step, t.output, j.exec.taskQueue, j.now).(stepIndex := t.stepIndex + 1))
        case None => Rollback(j, Conflict)
        case Some(k) =>
          var l := k.(exec := k.exec.(currentStep := t.stepIndex + 1));
          Commit(DropTask(Log(l, StepScheduled, t.stepIndex + 1, step.stepName, Empty, ""), id),
                 QueueFor(step, l.exec.taskQueue), "", false)
  }

  /** CompleteTask, from the UPDATE of the reported row to the commit. */
  function CompleteTaskTx(i: Instance, id: int, result: Bytes, err: string): Tx {
    if id !in i.tasks then Rollback(i, NotFound)
    else
      var j := i.(tasks := i.tasks[id := ReportRow(i.tasks[id], result, err)]);
      if IsTerminal(j.exec.state) then Commit(j, "", "", false)
      else if err != "" then
        if j.tasks[id].attempt < j.tasks[id].maxAttempts then RetryTask(j, id)
        else if j.exec.workflowType == Saga then FailSaga(j, id)
        else FailExecution(j, id)
      else if j.exec.workflowType == Independent then CompleteIndependent(j, id)
      else AdvanceChain(j, id)
  }

  // ---------------------------------------------------------------- CompleteCompensationTask

  function RetryCompensation(i: Instance, id: int): Tx
    requires id in i.comps
  {
    var t := i.comps[id];
    var j := DropCompensation(i, id);
    match InsertCompensation(j, RetryRow(t, i.now))
    case None => Rollback(j, Conflict)
    case Some(k) => Commit(k, t.taskQueue, "", false)
  }

  function FailRollback(i: Instance, id: int): Tx
    requires id in i.comps
  {
    var t := i.comps[id];
    var message := RollbackFailure(t.stepName, t.error);
    var j := Log(Log(Log(i, CompensationFailed, t.stepIndex, t.stepName, Empty, t.error),
                     SagaRollbackFailed, 0, "", Empty, t.error),
                 WorkflowFailed, 0, "", Empty, message);
    Commit(DropCompensation(TrySetState(SaveError(j, message), Failed), id), "", "", true)
  }

  function AdvanceRollback(i: Instance, id: int): Tx
    requires id in i.comps
  {
    var t := i.comps[id];
    var j := Log(i, CompensationCompleted, t.stepIndex, t.stepName, Raw(t.output), "");
    var k := DropCompensation(j.(exec := j.exec.(compensationDone := j.exec.compensationDone + 1)), id);
    if k.exec.compensationDone >= k.exec.compensationTotal then
      match EndRollback(k, ALL_UNDONE)
      case None => Rollback(k, Conflict)
      case Some(l) => Commit(l, "", "", true)
    else
      var outputs := OutputByStep(StepOutputs(k.history));
      match FirstWithOutput(CompensationSteps(k.steps, t.stepIndex - 1), outputs)
      case None =>
        (match EndRollback(k, ALL_UNDONE)
         case None => Rollback(k, Conflict)
         case Some(l) => Commit(l, "", "", true))
      case Some(step) =>
        match ScheduleCompensation(k, step, if step.stepIndex in outputs then outputs[step.stepIndex] else [])
        case None => Rollback(k, Conflict)
        case Some(l) => Commit(l, QueueFor(step, l.exec.taskQueue), "", false)
  }

  /** CompleteCompensationTask, from the UPDATE of the reported row to the commit. */
  function CompleteCompensationTx(i: Instance, id: int, result: Bytes, err: string): Tx {
    if id !in i.comps then Rollback(i, NotFound)
    else
      var j := i.(comps := i.comps[id := ReportRow(i.comps[id], result, err)]);
      if IsTerminal(j.exec.state) then Commit(j, "", "", false)
      else if err != "" then
        if j.comps[id].attempt < j.comps[id].maxAttempts then RetryCompensation(j, id)
        else FailRollback(j, id)
      else AdvanceRollback(j, id)
  }

  // ---------------------------------------------------------------- CancelWorkflow, expiry, recovery

  function CancelTx(i: Instance): Tx {
    match SetState(i, Cancelled)
    case None => Rollback(i, Conflict)
    case Some(j) =>
      var k := j.(tasks := CancelRows(j.tasks), comps := CancelRows(j.comps));
      Commit(Log(k, WorkflowCancelled, 0, "", Empty, ""), "", "", true)
  }

  predicate Overdue(i: Instance) {
    i.exec.deadlineAt.Some? && i.exec.deadlineAt.value < i.now && !IsTerminal(i.exec.state)
  }

  /** ExpireOverdue, the single UPDATE at the head of the sweep. */
  function Flip(i: Instance): Instance {
    if Overdue(i) then i.(exec := i.exec.(state := Failed, error := TIMED_OUT), sweep := Flipped) else i
  }

  /** The next statement of the sweep for this execution; each commits on its own. */
  function SweepOn(i: Instance): Instance {
    match i.sweep
    case Idle => i
    case Flipped => i.(tasks := CancelRows(i.tasks), sweep := TasksCancelled)
    case TasksCancelled => i.(comps := CancelRows(i.comps), sweep := CompensationsCancelled)
    case CompensationsCancelled => Log(i, WorkflowTimedOut, 0, "", Empty, TIMED_OUT).(sweep := TimeoutLogged)
    case TimeoutLogged => Log(i, WorkflowFailed, 0, "", Empty, TIMED_OUT).(sweep := Idle)
  }

  predicate HasActiveTasks(i: Instance) {
    exists id :: id in i.tasks && Active(i.tasks[id])
  }

  /** RecoverWorkflows for this execution. The attempts and the missing timeout are the source's. */
  function Recover(i: Instance): Instance {
    if i.exec.state != Running || HasActiveTasks(i) then i
    else
      var input := if i.exec.currentStep in i.checkpoints then i.checkpoints[i.exec.currentStep] else i.exec.input;
      match StepAt(i.steps, i.exec.currentStep + 1)
      case None => i
      case Some(step) =>
        var row := BuildTask(step, input, i.exec.taskQueue, i.now)
                   .(stepIndex := i.exec.currentStep + 1, maxAttempts := 3, timeoutSeconds := 0);
        match InsertTask(i, row)
        case None => i
        case Some(j) => j
  }
}
