/** Entities of the workflow engine (domain/workflow/workflow.go, Events.go). */
module Domain {
  import opened StateMachine

  datatype Option<+T> = None | Some(value: T)

  newtype Byte = x: int | 0 <= x < 256
  type Bytes = seq<Byte>

  datatype WorkflowType = Chain | Independent | Saga

  datatype StepDef = StepDef(
    stepIndex: int,
    stepName: string,
    compensationStepName: string,
    timeoutSeconds: int,
    taskQueue: string,
    maxAttempts: int)

  /** One entry of the result list of an INDEPENDENT execution. */
  datatype TaskOutput = TaskOutput(stepIndex: int, stepName: string, output: Bytes)

  /** Payload column of a history event; Combined stands for the JSON encoding of a list. */
  datatype Payload = Empty | Raw(bytes: Bytes) | Combined(outputs: seq<TaskOutput>)

  datatype EventType =
    | WorkflowStarted | WorkflowCompleted | WorkflowFailed | WorkflowCancelled | WorkflowTimedOut
    | StepScheduled | StepCompleted | StepFailed | StepRetrying
    | CompensationStarted | CompensationCompleted | CompensationFailed
    | SagaRolledBack | SagaRollbackFailed

  /** A history row; step 0 stands for the NULL step of a workflow-level event. */
  datatype Event = Event(
    id: int,
    kind: EventType,
    step: int,
    stepName: string,
    payload: Payload,
    error: string)

  /** A workflow_execution row (identifiers and bookkeeping timestamps aside). */
  datatype Execution = Execution(
    workflowType: WorkflowType,
    taskQueue: string,
    totalSteps: int,
    completedSteps: int,
    currentStep: int,
    input: Bytes,
    result: Option<Payload>,
    state: State,
    error: string,
    deadlineAt: Option<int>,
    compensationTotal: int,
    compensationDone: int)

  /** A row of the task table or of the compensation_task table; a task row has an empty
      compensationStepName. */
  datatype Row = Row(
    stepIndex: int,
    stepName: string,
    compensationStepName: string,
    taskQueue: string,
    input: Bytes,
    output: Bytes,
    state: State,
    error: string,
    attempt: int,
    maxAttempts: int,
    timeoutSeconds: int,
    scheduledAt: int,
    lockedUntil: Option<int>)
}
