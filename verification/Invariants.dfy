/** What every transaction keeps true of an execution. */
module Invariants {
  import opened StateMachine
  import opened Domain
  import opened Rows
  import opened Definitions
  import opened History
  import opened Instances

  /** What is fixed when an execution starts. */
  datatype Plan = Plan(steps: seq<StepDef>, kind: WorkflowType, input: Bytes, queue: string, deadline: Option<int>)

  function PlanOf(i: Instance): Plan {
    Plan(i.steps, i.exec.workflowType, i.exec.input, i.exec.taskQueue, i.exec.deadlineAt)
  }

  /** The steps a rollback undoes after m completed steps, in its order: those with a handler,
      last first. */
  function Undoable(p: Plan, m: nat): seq<StepDef> {
    if p.kind == Saga then CompensationSteps(p.steps, m) else []
  }

  function Indices(steps: seq<StepDef>): seq<int> {
    seq(|steps|, k requires 0 <= k < |steps| => steps[k].stepIndex)
  }

  // ---------------------------------------------------------------- rows

  ghost predicate DistinctRows(rows: map<int, Row>) {
    forall a, b :: a in rows && b in rows && a != b ==> rows[a].stepIndex != rows[b].stepIndex
  }

  ghost predicate NoRows(rows: map<int, Row>) {
    forall id :: id !in rows
  }

  ghost predicate NoneActive(rows: map<int, Row>) {
    forall id :: id in rows ==> !Active(rows[id])
  }

  ghost predicate AllActive(rows: map<int, Row>) {
    forall id :: id in rows ==> Active(rows[id])
  }

  ghost predicate LockMatchesState(r: Row) {
    && r.attempt >= 0
    && (r.state == Created ==> r.lockedUntil == None)
    && (r.state == Running ==> r.lockedUntil.Some?)
  }

  /** A task row repeats its step's definition. Its input is the execution's own input or, from
      the second step of a CHAIN or SAGA on, the result of the step before. */
  ghost predicate TaskOk(p: Plan, outs: seq<TaskOutput>, r: Row) {
    && 1 <= r.stepIndex <= |p.steps|
    && r.maxAttempts == p.steps[r.stepIndex - 1].maxAttempts
    && r.timeoutSeconds == p.steps[r.stepIndex - 1].timeoutSeconds
    && r.stepName == p.steps[r.stepIndex - 1].stepName
    && r.compensationStepName == ""
    && r.taskQueue == (if p.steps[r.stepIndex - 1].taskQueue == "" then p.queue else p.steps[r.stepIndex - 1].taskQueue)
    && LockMatchesState(r)
    && (p.kind != Independent ==> r.stepIndex == |outs| + 1)
    && r.input == if p.kind == Independent || outs == [] then p.input else outs[|outs| - 1].output
  }

  /** A compensation row is for the next step to undo: it names that step's handler, goes to that
      step's queue and carries that step's own result. */
  ghost predicate CompensationOk(p: Plan, outs: seq<TaskOutput>, undone: nat, r: Row) {
    && undone < |Undoable(p, |outs|)|
    && var step := Undoable(p, |outs|)[undone];
    && r.stepIndex == step.stepIndex
    && r.stepName == step.stepName
    && r.compensationStepName == step.compensationStepName
    && r.taskQueue == (if step.taskQueue == "" then p.queue else step.taskQueue)
    && r.maxAttempts == step.maxAttempts
    && r.timeoutSeconds == step.timeoutSeconds
    && LockMatchesState(r)
    && 1 <= r.stepIndex <= |outs|
    && r.input == outs[r.stepIndex - 1].output
  }

  ghost predicate TasksOk(p: Plan, outs: seq<TaskOutput>, rows: map<int, Row>, nextId: int) {
    && DistinctRows(rows)
    && forall id :: id in rows ==> id < nextId && TaskOk(p, outs, rows[id])
  }

  ghost predicate CompensationsOk(p: Plan, outs: seq<TaskOutput>, undone: nat, rows: map<int, Row>, nextId: int) {
    && DistinctRows(rows)
    && forall id :: id in rows ==> id < nextId && CompensationOk(p, outs, undone, rows[id])
  }

  // ---------------------------------------------------------------- history

  ghost predicate OutputsOk(p: Plan, outs: seq<TaskOutput>) {
    && (forall k :: 0 <= k < |outs| ==>
          && 1 <= outs[k].stepIndex <= |p.steps|
          && outs[k].stepName == p.steps[outs[k].stepIndex - 1].stepName)
    && (if p.kind == Independent then DistinctSteps(outs) else InStepOrder(outs))
  }

  /** The steps undone so far begin the list of steps to undo. */
  ghost predicate UndoneOk(p: Plan, outs: seq<TaskOutput>, undone: seq<int>) {
    undone <= Indices(Undoable(p, |outs|))
  }

  ghost predicate RecordOk(i: Instance) {
    && Ordered(i.history, i.nextEvent) && 0 <= i.nextEvent
    && OutputsOk(PlanOf(i), Outputs(i.history))
    && UndoneOk(PlanOf(i), Outputs(i.history), Undone(i.history))
    && i.exec.compensationDone == |Undone(i.history)|
    && (RolledBack(i.history) ==>
          && i.exec.workflowType == Saga && i.exec.state == Failed && i.sweep == Idle
          && |Undone(i.history)| == |Undoable(PlanOf(i), |Outputs(i.history)|)|)
  }

  // ---------------------------------------------------------------- phases

  ghost predicate HasOutput(outs: seq<TaskOutput>, k: int) {
    exists j :: 0 <= j < |outs| && outs[j].stepIndex == k
  }

  ghost predicate HasRow(rows: map<int, Row>, k: int) {
    exists id :: id in rows && rows[id].stepIndex == k
  }

  /** Every step has either a result or a task, and none has both. */
  ghost predicate Partition(n: nat, outs: seq<TaskOutput>, rows: map<int, Row>) {
    && (forall id :: id in rows ==> !HasOutput(outs, rows[id].stepIndex))
    && (forall k :: 1 <= k <= n ==> HasOutput(outs, k) || HasRow(rows, k))
  }

  /** The cursor and the checkpoint of a CHAIN or SAGA after m steps. */
  ghost predicate CursorOk(i: Instance, outs: seq<TaskOutput>) {
    var m := |outs|;
    && i.exec.currentStep == (if m == 0 then 0 else m + 1)
    && (m > 0 ==> m in i.checkpoints && i.checkpoints[m] == outs[m - 1].output)
  }

  ghost predicate RunningOk(i: Instance) {
    var outs := Outputs(i.history);
    && Endings(i.history) == [] && i.sweep == Idle
    && i.comps == map[] && Undone(i.history) == [] && i.exec.compensationTotal == 0
    && !NoRows(i.tasks) && AllActive(i.tasks)
    && (if i.exec.workflowType == Independent
        then i.exec.completedSteps == |outs| && Partition(|i.steps|, outs, i.tasks)
        else CursorOk(i, outs))
  }

  ghost predicate CompensatingOk(i: Instance) {
    && Endings(i.history) == [] && i.sweep == Idle
    && i.exec.workflowType == Saga
    && |Outputs(i.history)| < |i.steps|
    && i.tasks == map[]
    && !NoRows(i.comps) && AllActive(i.comps)
    && i.exec.compensationTotal == |Undoable(PlanOf(i), |Outputs(i.history)|)|
  }

  function EndingOf(s: State): EventType {
    if s == Completed then WorkflowCompleted else if s == Failed then WorkflowFailed else WorkflowCancelled
  }

  /** The payload of WORKFLOW_COMPLETED: the last result, or all results by place. */
  function FinalPayload(kind: WorkflowType, outs: seq<TaskOutput>): Payload {
    if kind == Independent then Combined(SortByStep(outs))
    else if outs == [] then Empty
    else Raw(outs[|outs| - 1].output)
  }

  ghost predicate ClosedOk(i: Instance) {
    && Endings(i.history) == [EndingOf(i.exec.state)]
    && i.history != [] && i.history[|i.history| - 1].kind == EndingOf(i.exec.state)
    && NoneActive(i.tasks) && NoneActive(i.comps)
    && (i.exec.state == Completed ==>
          && |Outputs(i.history)| == |i.steps|
          && i.history[|i.history| - 1].payload == FinalPayload(i.exec.workflowType, Outputs(i.history)))
  }

  ghost predicate SweptOk(i: Instance) {
    && i.exec.state == Failed && Endings(i.history) == []
    && (i.sweep != Flipped ==> NoneActive(i.tasks))
    && (i.sweep != Flipped && i.sweep != TasksCancelled ==> NoneActive(i.comps))
    && (NoRows(i.tasks) || NoRows(i.comps))
  }

  ghost predicate PhaseOk(i: Instance) {
    match i.exec.state
    case Created => false
    case Running => RunningOk(i)
    case Compensating => CompensatingOk(i)
    case _ => if i.sweep == Idle then ClosedOk(i) else SweptOk(i)
  }

  ghost predicate TablesOk(i: Instance) {
    && TasksOk(PlanOf(i), Outputs(i.history), i.tasks, i.nextId)
    && CompensationsOk(PlanOf(i), Outputs(i.history), |Undone(i.history)|, i.comps, i.nextId)
  }

  ghost predicate Grew(h: seq<Event>, r: seq<Event>) {
    h <= r
  }

  /** What may change from one state of an execution to the next. */
  ghost predicate Follows(i: Instance, n: Instance) {
    && PlanOf(n) == PlanOf(i)
    && (n.exec.state == i.exec.state || CanMove(i.exec.state, n.exec.state))
    && Grew(i.history, n.history)
    && i.nextId <= n.nextId && i.now <= n.now
    && (forall id :: id in n.tasks ==> id in i.tasks || i.nextId <= id)
    && (forall id :: id in n.comps ==> id in i.comps || i.nextId <= id)
  }

  ghost predicate Inv(i: Instance) {
    && WellFormed(i.steps) && i.exec.totalSteps == |i.steps|
    && i.exec.result == None
    && TablesOk(i)
    && RecordOk(i)
    && PhaseOk(i)
  }
}
