/** Every transaction on an execution keeps the invariant. */
module Preservation {
  import opened StateMachine
  import opened Domain
  import opened Rows
  import opened Definitions
  import opened History
  import opened Instances
  import opened Invariants

  /** The state in which a branch of CompleteTask starts: the row has been marked. */
  function Marked(i: Instance, id: int, result: Bytes, err: string): Instance
    requires id in i.tasks
  {
    i.(tasks := i.tasks[id := ReportRow(i.tasks[id], result, err)])
  }

  /** Replacing a row by one for the same step. */
  function Swapped(rows: map<int, Row>, id: int, newId: int, r: Row): map<int, Row> {
    (rows - {id})[newId := r]
  }

  lemma SwapKeepsSteps(rows: map<int, Row>, id: int, newId: int, r: Row)
    requires id in rows && r.stepIndex == rows[id].stepIndex && newId !in rows
    ensures forall k :: HasRow(Swapped(rows, id, newId, r), k) <==> HasRow(rows, k)
    ensures DistinctRows(rows) ==> DistinctRows(Swapped(rows, id, newId, r))
    ensures AllActive(rows) && Active(r) ==> AllActive(Swapped(rows, id, newId, r))
    ensures !NoRows(Swapped(rows, id, newId, r))
  {
    var after := Swapped(rows, id, newId, r);
    assert newId in after;
    forall k ensures HasRow(after, k) <==> HasRow(rows, k) {
      if HasRow(rows, k) {
        var b :| b in rows && rows[b].stepIndex == k;
        assert after[if b == id then newId else b].stepIndex == k;
      }
      if HasRow(after, k) {
        var b :| b in after && after[b].stepIndex == k;
        assert rows[if b == newId then id else b].stepIndex == k;
      }
    }
  }

  lemma SwapKeepsTasks(p: Plan, outs: seq<TaskOutput>, rows: map<int, Row>, nextId: int, id: int, r: Row)
    requires id in rows && TasksOk(p, outs, rows, nextId) && TaskOk(p, outs, r)
    requires r.stepIndex == rows[id].stepIndex
    ensures TasksOk(p, outs, Swapped(rows, id, nextId, r), nextId + 1)
  {
    SwapKeepsSteps(rows, id, nextId, r);
  }

  lemma SwapKeepsPartition(n: nat, outs: seq<TaskOutput>, rows: map<int, Row>, id: int, newId: int, r: Row)
    requires id in rows && r.stepIndex == rows[id].stepIndex && newId !in rows
    requires Partition(n, outs, rows)
    ensures Partition(n, outs, Swapped(rows, id, newId, r))
  {
    SwapKeepsSteps(rows, id, newId, r);
  }

  /** What a transaction makes of the record of an execution. */
  ghost predicate Extends(i: Instance, n: Instance, outs: seq<TaskOutput>, undone: seq<int>, endings: seq<EventType>) {
    && PlanOf(n) == PlanOf(i)
    && Outputs(n.history) == outs
    && Undone(n.history) == undone
    && Endings(n.history) == endings
    && Ordered(n.history, n.nextEvent)
    && i.nextEvent <= n.nextEvent && n.now == i.now
    && Grew(i.history, n.history)
  }

  /** What Log changes. */
  lemma Logged(i: Instance, kind: EventType, step: int, stepName: string, payload: Payload, error: string)
    returns (n: Instance)
    requires Ordered(i.history, i.nextEvent) && 0 <= i.nextEvent
    ensures n == Log(i, kind, step, stepName, payload, error)
    ensures n.steps == i.steps && n.exec == i.exec && n.tasks == i.tasks && n.comps == i.comps
    ensures n.checkpoints == i.checkpoints && n.sweep == i.sweep && n.now == i.now && n.nextId == i.nextId
    ensures n.nextEvent == i.nextEvent + 1 && Ordered(n.history, n.nextEvent)
    ensures Outputs(n.history) ==
              if kind == StepCompleted
              then Outputs(i.history) + [OutputOf(Event(i.nextEvent, kind, step, stepName, payload, error))]
              else Outputs(i.history)
    ensures Undone(n.history) == if kind == CompensationCompleted then Undone(i.history) + [step] else Undone(i.history)
    ensures Endings(n.history) == if Closing(kind) then Endings(i.history) + [kind] else Endings(i.history)
    ensures RolledBack(n.history) <==> RolledBack(i.history) || kind == SagaRolledBack
    ensures n.history != [] && n.history[|n.history| - 1].kind == kind && n.history[|n.history| - 1].payload == payload
    ensures Grew(i.history, n.history)
  {
    hide Outputs, Undone, Endings, RolledBack, Ordered;
    n := Log(i, kind, step, stepName, payload, error);
  }

  lemma GrewOn(a: seq<Event>, b: seq<Event>, c: seq<Event>)
    requires Grew(a, b) && Grew(b, c)
    ensures Grew(a, c)
  {
  }

  lemma DropMarked(rows: map<int, Row>, id: int, r: Row)
    ensures rows[id := r] - {id} == rows - {id}
    ensures CancelRows(rows[id := r]) - {id} == CancelRows(rows) - {id}
  {
  }

  lemma RetryTaskEffect(i: Instance, id: int, result: Bytes, err: string) returns (n: Instance)
    requires Ordered(i.history, i.nextEvent) && 0 <= i.nextEvent
    requires id in i.tasks && DistinctRows(i.tasks) && i.tasks[id].maxAttempts > 0 && i.tasks[id].attempt >= 0
    ensures var r := RetryRow(ReportRow(i.tasks[id], result, err), i.now);
            && RetryTask(Marked(i, id, result, err), id) == Commit(n, r.taskQueue, "", false)
            && n.tasks == Swapped(i.tasks, id, i.nextId, r)
    ensures n.exec == i.exec && n.checkpoints == i.checkpoints
    ensures n.comps == i.comps && n.sweep == i.sweep && n.nextId == i.nextId + 1
    ensures Extends(i, n, Outputs(i.history), Undone(i.history), Endings(i.history))
    ensures RolledBack(n.history) <==> RolledBack(i.history)
  {
    hide Outputs, Undone, Endings, RolledBack, Ordered, Grew, Log;
    var j := Marked(i, id, result, err);
    var t := j.tasks[id];
    DropMarked(i.tasks, id, t);
    assert StepFree(i.tasks - {id}, t.stepIndex);
    var l := Logged(j, StepRetrying, t.stepIndex, t.stepName, Empty, err);
    var k := DropTask(l, id);
    n := InsertTask(k, RetryRow(t, i.now)).value;
  }

  lemma InvFromParts(i: Instance)
    requires WellFormed(i.steps) && i.exec.totalSteps == |i.steps| && i.exec.result == None
    requires TablesOk(i) && RecordOk(i) && PhaseOk(i)
    ensures Inv(i)
  {
  }

  lemma WhileRunning(i: Instance)
    requires Inv(i) && i.exec.state == Running
    ensures RunningOk(i) && TablesOk(i) && RecordOk(i)
    ensures WellFormed(i.steps) && i.exec.totalSteps == |i.steps| && i.exec.result == None
  {
    hide Outputs, Undone, Endings, RolledBack, Ordered, TablesOk, RecordOk;
  }

  lemma TaskMayBeTried(i: Instance, id: int)
    requires Inv(i) && id in i.tasks
    ensures TaskOk(PlanOf(i), Outputs(i.history), i.tasks[id]) && i.tasks[id].maxAttempts > 0 && id < i.nextId
  {
    hide Outputs, PhaseOk, RecordOk;
  }

  lemma RetryRowOk(p: Plan, outs: seq<TaskOutput>, q: Row, result: Bytes, err: string, now: int)
    requires TaskOk(p, outs, q)
    ensures var r := RetryRow(ReportRow(q, result, err), now);
            TaskOk(p, outs, r) && Active(r) && r.stepIndex == q.stepIndex
    ensures q.attempt >= 0
  {
  }

  lemma RetryKeeps(i: Instance, id: int, result: Bytes, err: string) returns (n: Instance)
    requires Inv(i) && id in i.tasks && i.exec.state == Running
    ensures var tx := RetryTask(Marked(i, id, result, err), id); tx.Commit? && tx.next == n
    ensures Inv(n) && Follows(i, n)
  {
    hide Inv, Outputs, Undone, Endings, RolledBack, Ordered, Append, RetryTask, Partition, OutputsOk, UndoneOk,
      WellFormed, CompensationOk, TaskOk, RetryRow, Swapped;
    WhileRunning(i);
    TaskMayBeTried(i, id);
    var p, outs := PlanOf(i), Outputs(i.history);
    var r := RetryRow(ReportRow(i.tasks[id], result, err), i.now);
    RetryRowOk(p, outs, i.tasks[id], result, err, i.now);
    n := RetryTaskEffect(i, id, result, err);
    SwapKeepsTasks(p, outs, i.tasks, i.nextId, id, r);
    SwapKeepsSteps(i.tasks, id, i.nextId, r);
    if i.exec.workflowType == Independent {
      SwapKeepsPartition(|i.steps|, outs, i.tasks, id, i.nextId, r);
    }
    RetryFollows(i, n, id, r);
    hide DistinctRows, HasRow, Follows;
    assert RecordOk(n);
    InvFromParts(n);
  }

  lemma RetryFollows(i: Instance, n: Instance, id: int, r: Row)
    requires n.tasks == Swapped(i.tasks, id, i.nextId, r) && n.comps == i.comps && n.exec == i.exec
    requires n.nextId == i.nextId + 1 && n.now == i.now && PlanOf(n) == PlanOf(i) && Grew(i.history, n.history)
    ensures Follows(i, n)
  {
  }

  // ---------------------------------------------------------------- cancelling and dropping rows

  lemma CancelledRow(r: Row)
    ensures var c := CancelRow(r);
            !Active(c) && c == r.(state := c.state, lockedUntil := c.lockedUntil)
            && (LockMatchesState(r) ==> LockMatchesState(c))
  {
  }

  lemma CancelledTaskOk(p: Plan, outs: seq<TaskOutput>, r: Row)
    requires TaskOk(p, outs, r)
    ensures TaskOk(p, outs, CancelRow(r))
  {
    hide CancelRow, LockMatchesState;
    CancelledRow(r);
  }

  lemma CancelledCompensationOk(p: Plan, outs: seq<TaskOutput>, undone: nat, r: Row)
    requires CompensationOk(p, outs, undone, r)
    ensures CompensationOk(p, outs, undone, CancelRow(r))
  {
    hide CancelRow, LockMatchesState, Undoable;
    CancelledRow(r);
  }

  lemma CancelKeepsSteps(rows: map<int, Row>)
    ensures var after := CancelRows(rows);
            && (forall id :: id in after <==> id in rows)
            && (forall id :: id in rows ==> after[id] == CancelRow(rows[id]) && !Active(after[id])
                                            && after[id].stepIndex == rows[id].stepIndex)
            && (DistinctRows(rows) ==> DistinctRows(after)) && NoneActive(after)
  {
    hide CancelRow, Active;
    forall id | id in rows ensures !Active(CancelRow(rows[id])) && CancelRow(rows[id]).stepIndex == rows[id].stepIndex {
      CancelledRow(rows[id]);
    }
  }

  lemma CancelKeepsTasks(p: Plan, outs: seq<TaskOutput>, rows: map<int, Row>, nextId: int)
    requires TasksOk(p, outs, rows, nextId)
    ensures TasksOk(p, outs, CancelRows(rows), nextId) && NoneActive(CancelRows(rows))
    ensures forall id :: id in CancelRows(rows) <==> id in rows
  {
    hide CancelRow, CancelRows, TaskOk, DistinctRows, Active;
    CancelKeepsSteps(rows);
    forall id | id in rows ensures TaskOk(p, outs, CancelRow(rows[id])) {
      CancelledTaskOk(p, outs, rows[id]);
    }
  }

  lemma CancelKeepsCompensations(p: Plan, outs: seq<TaskOutput>, undone: nat, rows: map<int, Row>, nextId: int)
    requires CompensationsOk(p, outs, undone, rows, nextId)
    ensures CompensationsOk(p, outs, undone, CancelRows(rows), nextId) && NoneActive(CancelRows(rows))
    ensures forall id :: id in CancelRows(rows) <==> id in rows
  {
    hide CancelRow, CancelRows, CompensationOk, DistinctRows, Active;
    CancelKeepsSteps(rows);
    forall id | id in rows ensures CompensationOk(p, outs, undone, CancelRow(rows[id])) {
      CancelledCompensationOk(p, outs, undone, rows[id]);
    }
  }

  lemma FailExecutionEffect(i: Instance, id: int, result: Bytes, err: string) returns (n: Instance)
    requires Ordered(i.history, i.nextEvent) && 0 <= i.nextEvent
    requires id in i.tasks && i.exec.state == Running
    ensures FailExecution(Marked(i, id, result, err), id) == Commit(n, "", "", true)
    ensures n.exec == i.exec.(error := err, state := Failed)
    ensures n.tasks == CancelRows(i.tasks) - {id} && n.comps == i.comps
    ensures n.sweep == i.sweep && n.nextId == i.nextId
    ensures Extends(i, n, Outputs(i.history), Undone(i.history), Endings(i.history) + [WorkflowFailed])
    ensures RolledBack(n.history) <==> RolledBack(i.history)
    ensures n.history != [] && n.history[|n.history| - 1].kind == WorkflowFailed
  {
    hide Outputs, Undone, Endings, RolledBack, Ordered, Grew, Log, CancelRows;
    var j := Marked(i, id, result, err);
    var t := j.tasks[id];
    DropMarked(i.tasks, id, t);
    var k := j.(exec := j.exec.(error := err, state := Failed), tasks := CancelRows(j.tasks));
    var l := Logged(k, StepFailed, t.stepIndex, t.stepName, Empty, err);
    var m := Logged(l, WorkflowFailed, 0, "", Empty, err);
    GrewOn(i.history, l.history, m.history);
    n := DropTask(m, id);
  }

  lemma FailExecutionKeeps(i: Instance, id: int, result: Bytes, err: string) returns (n: Instance)
    requires Inv(i) && id in i.tasks && i.exec.state == Running
    ensures var tx := FailExecution(Marked(i, id, result, err), id); tx.Commit? && tx.next == n
    ensures Inv(n) && Follows(i, n)
  {
    hide Inv, Outputs, Undone, Endings, RolledBack, Ordered, Append, FailExecution, CancelRows, OutputsOk, UndoneOk,
      WellFormed, TasksOk, CompensationOk;
    WhileRunning(i);
    n := FailExecutionEffect(i, id, result, err);
    CancelledRowsAreOk(PlanOf(i), Outputs(i.history), i.tasks, i.nextId, id);
    assert RecordOk(n);
    hide DistinctRows, TaskOk;
    assert ClosedOk(n);
    InvFromParts(n);
  }

  lemma CancelledRowsAreOk(p: Plan, outs: seq<TaskOutput>, rows: map<int, Row>, nextId: int, id: int)
    requires TasksOk(p, outs, rows, nextId)
    ensures TasksOk(p, outs, CancelRows(rows) - {id}, nextId) && NoneActive(CancelRows(rows) - {id})
    ensures forall a :: a in CancelRows(rows) - {id} ==> a in rows
  {
    CancelKeepsTasks(p, outs, rows, nextId);
    hide CancelRows, TaskOk;
  }

  // ---------------------------------------------------------------- CHAIN and the forward phase of SAGA

  ghost predicate Only(rows: map<int, Row>, id: int) {
    id in rows && forall a :: a in rows ==> a == id
  }

  lemma OnlyReplaced(rows: map<int, Row>, id: int, t: Row, newId: int, r: Row)
    requires Only(rows, id) && newId != id
    ensures rows - {id} == rows[id := t] - {id} == map[]
    ensures rows[id := t][newId := r] - {id} == map[newId := r]
    ensures StepFree(rows - {id}, r.stepIndex)
    ensures r.stepIndex != t.stepIndex ==> StepFree(rows[id := t], r.stepIndex)
  {
    assert forall a :: a !in rows - {id};
  }

  /** In a CHAIN or SAGA all task rows are for the same step, so there is one at most. */
  lemma OneTask(i: Instance, id: int)
    requires Inv(i) && i.exec.workflowType != Independent && id in i.tasks
    ensures Only(i.tasks, id)
    ensures i.tasks[id].stepIndex == |Outputs(i.history)| + 1
  {
    forall a | a in i.tasks ensures a == id {
      assert TaskOk(PlanOf(i), Outputs(i.history), i.tasks[a]);
      assert TaskOk(PlanOf(i), Outputs(i.history), i.tasks[id]);
    }
  }

  lemma FinishEffect(i: Instance, payload: Payload) returns (n: Instance)
    requires Ordered(i.history, i.nextEvent) && 0 <= i.nextEvent && i.exec.state == Running
    ensures Finish(i, payload) == Some(n)
    ensures n.exec == i.exec.(state := Completed) && n.tasks == i.tasks && n.comps == i.comps
    ensures n.sweep == i.sweep && n.nextId == i.nextId && 0 <= n.nextEvent
    ensures Extends(i, n, Outputs(i.history), Undone(i.history), Endings(i.history) + [WorkflowCompleted])
    ensures RolledBack(n.history) <==> RolledBack(i.history)
    ensures n.history != [] && n.history[|n.history| - 1].kind == WorkflowCompleted
    ensures n.history[|n.history| - 1].payload == payload
  {
    hide Outputs, Undone, Endings, RolledBack, Ordered, Log;
    n := Logged(i.(exec := i.exec.(state := Completed)), WorkflowCompleted, 0, "", payload, "");
  }

  lemma FinishChainEffect(i: Instance, id: int, result: Bytes) returns (n: Instance)
    requires Ordered(i.history, i.nextEvent) && 0 <= i.nextEvent && i.exec.result == None
    requires id in i.tasks && i.exec.state == Running && Only(i.tasks, id)
    requires i.tasks[id].stepIndex == i.exec.totalSteps
    ensures AdvanceChain(Marked(i, id, result, ""), id) == Commit(n, "", "", true)
    ensures n.exec == i.exec.(state := Completed)
    ensures n.tasks == map[] && n.comps == i.comps && n.sweep == i.sweep && n.nextId == i.nextId
    ensures Extends(i, n, Outputs(i.history) + [TaskOutput(i.tasks[id].stepIndex, i.tasks[id].stepName, result)],
                    Undone(i.history), Endings(i.history) + [WorkflowCompleted])
    ensures RolledBack(n.history) <==> RolledBack(i.history)
    ensures n.history != [] && n.history[|n.history| - 1].kind == WorkflowCompleted
    ensures n.history[|n.history| - 1].payload == Raw(result)
  {
    hide Outputs, Undone, Endings, RolledBack, Ordered, Grew, Log, StepAt, StepFree, Only, Finish;
    var j := Marked(i, id, result, "");
    var t := j.tasks[id];
    OnlyReplaced(i.tasks, id, t, id + 1, t);
    var k := Logged(j.(checkpoints := j.checkpoints[t.stepIndex := result]),
                    StepCompleted, t.stepIndex, t.stepName, Raw(result), "");
    var l := FinishEffect(k, Raw(result));
    GrewOn(i.history, k.history, l.history);
    n := DropTask(l, id);
  }

  lemma LogOnlyLogs(i: Instance, kind: EventType, step: int, stepName: string, payload: Payload, error: string)
    ensures var n := Log(i, kind, step, stepName, payload, error);
            n == i.(history := n.history, nextEvent := i.nextEvent + 1)
  {
    hide Append;
  }

  /** AdvanceChain, if the next step is there and its place in the task table is free. */
  lemma AdvancesTo(j: Instance, id: int, step: StepDef)
    requires id in j.tasks && j.tasks[id].stepIndex + 1 <= j.exec.totalSteps
    requires StepAt(j.steps, j.tasks[id].stepIndex + 1) == Some(step) && step.stepIndex == j.tasks[id].stepIndex + 1
    requires step.maxAttempts > 0 && StepFree(j.tasks, step.stepIndex)
    ensures var t := j.tasks[id];
            var l := Log(j.(checkpoints := j.checkpoints[t.stepIndex := t.output]),
                         StepCompleted, t.stepIndex, t.stepName, Raw(t.output), "");
            var row := BuildTask(step, t.output, j.exec.taskQueue, j.now);
            var m := l.(tasks := j.tasks[j.nextId := row], nextId := j.nextId + 1,
                        exec := j.exec.(currentStep := t.stepIndex + 1));
            var n := Log(m, StepScheduled, t.stepIndex + 1, step.stepName, Empty, "");
            AdvanceChain(j, id) == Commit(DropTask(n, id), QueueFor(step, j.exec.taskQueue), "", false)
  {
    hide Log, StepAt, StepFree, Finish, QueueFor;
    var t := j.tasks[id];
    var c := j.(checkpoints := j.checkpoints[t.stepIndex := t.output]);
    LogOnlyLogs(c, StepCompleted, t.stepIndex, t.stepName, Raw(t.output), "");
    var row := BuildTask(step, t.output, j.exec.taskQueue, j.now);
    assert row.(stepIndex := t.stepIndex + 1) == row;
    var l := Log(c, StepCompleted, t.stepIndex, t.stepName, Raw(t.output), "");
    var m := l.(tasks := j.tasks[j.nextId := row], nextId := j.nextId + 1,
                exec := j.exec.(currentStep := t.stepIndex + 1));
    LogOnlyLogs(m, StepScheduled, t.stepIndex + 1, step.stepName, Empty, "");
  }

  lemma NextStepEffect(i: Instance, id: int, result: Bytes) returns (n: Instance)
    requires Ordered(i.history, i.nextEvent) && 0 <= i.nextEvent
    requires id in i.tasks && i.exec.state == Running && Only(i.tasks, id) && id < i.nextId
    requires WellFormed(i.steps) && 1 <= i.tasks[id].stepIndex < i.exec.totalSteps == |i.steps|
    ensures var k := i.tasks[id].stepIndex;
            && AdvanceChain(Marked(i, id, result, ""), id)
               == Commit(n, QueueFor(i.steps[k], i.exec.taskQueue), "", false)
            && n.tasks == map[i.nextId := BuildTask(i.steps[k], result, i.exec.taskQueue, i.now)]
            && n.exec == i.exec.(currentStep := k + 1)
            && n.checkpoints == i.checkpoints[k := result]
            && Extends(i, n, Outputs(i.history) + [TaskOutput(k, i.tasks[id].stepName, result)],
                       Undone(i.history), Endings(i.history))
    ensures n.comps == i.comps && n.sweep == i.sweep && n.nextId == i.nextId + 1
    ensures RolledBack(n.history) <==> RolledBack(i.history)
  {
    hide Outputs, Undone, Endings, RolledBack, Ordered, Grew, Log, StepAt, StepFree, Only, AdvanceChain, QueueFor;
    var j := Marked(i, id, result, "");
    var k := i.tasks[id].stepIndex;
    StepAtFindsEveryIndex(i.steps, k + 1);
    var row := BuildTask(i.steps[k], result, i.exec.taskQueue, i.now);
    OnlyReplaced(i.tasks, id, j.tasks[id], i.nextId, row);
    AdvancesTo(j, id, i.steps[k]);
    hide WellFormed;
    var l := Logged(j.(checkpoints := j.checkpoints[k := result]),
                    StepCompleted, k, j.tasks[id].stepName, Raw(result), "");
    var m := Logged(l.(tasks := j.tasks[j.nextId := row], nextId := j.nextId + 1,
                       exec := j.exec.(currentStep := k + 1)),
                    StepScheduled, k + 1, i.steps[k].stepName, Empty, "");
    GrewOn(i.history, l.history, m.history);
    n := DropTask(m, id);
  }

  lemma OutputsExtend(p: Plan, outs: seq<TaskOutput>, o: TaskOutput)
    requires OutputsOk(p, outs) && p.kind != Independent
    requires o.stepIndex == |outs| + 1 <= |p.steps| && o.stepName == p.steps[|outs|].stepName
    ensures OutputsOk(p, outs + [o])
  {
  }

  lemma LastStepKeeps(i: Instance, id: int, result: Bytes) returns (n: Instance)
    requires Inv(i) && id in i.tasks && i.exec.state == Running && i.exec.workflowType != Independent
    requires i.tasks[id].stepIndex == |i.steps|
    ensures AdvanceChain(Marked(i, id, result, ""), id) == Commit(n, "", "", true)
    ensures Inv(n) && Follows(i, n)
  {
    hide Outputs, Undone, Endings, RolledBack, Ordered, AdvanceChain;
    OneTask(i, id);
    var p, outs, t := PlanOf(i), Outputs(i.history), i.tasks[id];
    assert TaskOk(p, outs, t);
    OutputsExtend(p, outs, TaskOutput(t.stepIndex, t.stepName, result));
    n := FinishChainEffect(i, id, result);
    assert RecordOk(n);
  }

  lemma WhileInSequence(i: Instance, id: int)
    requires Inv(i) && id in i.tasks && i.exec.state == Running && i.exec.workflowType != Independent
    ensures var p, outs, t := PlanOf(i), Outputs(i.history), i.tasks[id];
            && TaskOk(p, outs, t) && Only(i.tasks, id) && id < i.nextId && t.stepIndex == |outs| + 1
            && WellFormed(i.steps) && i.exec.totalSteps == |i.steps| && i.exec.result == None
            && Ordered(i.history, i.nextEvent) && 0 <= i.nextEvent && OutputsOk(p, outs)
            && Undone(i.history) == [] && i.comps == map[] && Endings(i.history) == [] && i.sweep == Idle
            && i.exec.compensationTotal == 0 && !RolledBack(i.history) && i.exec.compensationDone == 0
  {
    hide Outputs, Undone, Endings, RolledBack, Ordered;
    OneTask(i, id);
    assert TaskOk(PlanOf(i), Outputs(i.history), i.tasks[id]);
  }

  lemma NextStepParts(i: Instance, id: int, result: Bytes) returns (n: Instance)
    requires Inv(i) && id in i.tasks && i.exec.state == Running && i.exec.workflowType != Independent
    requires i.tasks[id].stepIndex != |i.steps|
    ensures var tx := AdvanceChain(Marked(i, id, result, ""), id); tx.Commit? && tx.next == n
    ensures TablesOk(n) && RecordOk(n)
  {
    hide Outputs, Undone, Endings, RolledBack, Ordered, AdvanceChain;
    WhileInSequence(i, id);
    hide Inv, OutputsOk;
    var p, outs, t := PlanOf(i), Outputs(i.history), i.tasks[id];
    var o := TaskOutput(t.stepIndex, t.stepName, result);
    OutputsExtend(p, outs, o);
    n := NextStepEffect(i, id, result);
    assert TaskOk(p, outs + [o], BuildTask(i.steps[t.stepIndex], result, i.exec.taskQueue, i.now));
    hide Marked, TaskOk;
    assert TablesOk(n);
  }

  lemma NextStepKeeps(i: Instance, id: int, result: Bytes) returns (n: Instance)
    requires Inv(i) && id in i.tasks && i.exec.state == Running && i.exec.workflowType != Independent
    requires i.tasks[id].stepIndex != |i.steps|
    ensures var tx := AdvanceChain(Marked(i, id, result, ""), id); tx.Commit? && tx.next == n
    ensures Inv(n) && Follows(i, n)
  {
    hide Outputs, Undone, Endings, RolledBack, Ordered, AdvanceChain, TablesOk, RecordOk;
    var m := NextStepParts(i, id, result);
    WhileInSequence(i, id);
    hide Inv, OutputsOk, TaskOk;
    n := NextStepEffect(i, id, result);
    assert i.nextId in n.tasks;
    InvFromParts(n);
  }

  lemma AdvanceChainKeeps(i: Instance, id: int, result: Bytes) returns (n: Instance)
    requires Inv(i) && id in i.tasks && i.exec.state == Running && i.exec.workflowType != Independent
    ensures var tx := AdvanceChain(Marked(i, id, result, ""), id); tx.Commit? && tx.next == n
    ensures Inv(n) && Follows(i, n)
  {
    hide Follows, AdvanceChain;
    if i.tasks[id].stepIndex == |i.steps| {
      n := LastStepKeeps(i, id, result);
    } else {
      n := NextStepKeeps(i, id, result);
    }
  }

  // ---------------------------------------------------------------- INDEPENDENT

  lemma {:induction false} EveryStepNeedsAnOutput(outs: seq<TaskOutput>, n: nat)
    requires forall k :: 1 <= k <= n ==> HasOutput(outs, k)
    ensures |outs| >= n
  {
    if n > 0 {
      assert HasOutput(outs, n);
      var j :| 0 <= j < |outs| && outs[j].stepIndex == n;
      var rest := outs[..j] + outs[j + 1..];
      forall k | 1 <= k <= n - 1 ensures HasOutput(rest, k) {
        assert HasOutput(outs, k);
        var l :| 0 <= l < |outs| && outs[l].stepIndex == k;
        assert rest[if l < j then l else l - 1] == outs[l];
      }
      EveryStepNeedsAnOutput(rest, n - 1);
    }
  }

  lemma OutputsFillUp(outs: seq<TaskOutput>, n: nat)
    requires OnePerStep(outs, n)
    ensures forall k :: 1 <= k <= n ==> HasOutput(outs, k)
  {
    SortedByPlace(outs, n);
    forall k | 1 <= k <= n ensures HasOutput(outs, k) {
      assert SortByStep(outs)[k - 1] in outs;
    }
  }

  lemma NoneLeft(outs: seq<TaskOutput>, rows: map<int, Row>, n: nat)
    requires forall k :: 1 <= k <= n ==> HasOutput(outs, k)
    requires forall id :: id in rows ==> 1 <= rows[id].stepIndex <= n && !HasOutput(outs, rows[id].stepIndex)
    ensures NoRows(rows)
  {
  }

  lemma PartitionMoves(outs: seq<TaskOutput>, rows: map<int, Row>, n: nat, id: int, o: TaskOutput)
    requires Partition(n, outs, rows) && DistinctRows(rows)
    requires id in rows && o.stepIndex == rows[id].stepIndex
    ensures Partition(n, outs + [o], rows - {id})
  {
    var after, left := outs + [o], rows - {id};
    forall k | 1 <= k <= n ensures HasOutput(after, k) || HasRow(left, k) {
      if HasOutput(outs, k) {
        var j :| 0 <= j < |outs| && outs[j].stepIndex == k;
        assert after[j].stepIndex == k;
      } else {
        var b :| b in rows && rows[b].stepIndex == k;
        if b == id { assert after[|outs|].stepIndex == k; } else { assert b in left; }
      }
    }
    forall b | b in left ensures !HasOutput(after, left[b].stepIndex) {
      assert !HasOutput(outs, rows[b].stepIndex);
    }
  }

  lemma NewStepExtends(p: Plan, outs: seq<TaskOutput>, o: TaskOutput)
    requires p.kind == Independent && OutputsOk(p, outs) && !HasOutput(outs, o.stepIndex)
    requires 1 <= o.stepIndex <= |p.steps| && o.stepName == p.steps[o.stepIndex - 1].stepName
    ensures OutputsOk(p, outs + [o])
  {
  }

  lemma FullExactlyWhenNoneLeft(outs: seq<TaskOutput>, rows: map<int, Row>, n: nat)
    requires Partition(n, outs, rows) && DistinctSteps(outs)
    requires forall k :: 0 <= k < |outs| ==> 1 <= outs[k].stepIndex <= n
    requires forall b :: b in rows ==> 1 <= rows[b].stepIndex <= n
    ensures |outs| == n <==> NoRows(rows)
  {
    AtMostOnePerStep(outs, n);
    if |outs| == n {
      OutputsFillUp(outs, n);
      NoneLeft(outs, rows, n);
    } else if NoRows(rows) {
      EveryStepNeedsAnOutput(outs, n);
    }
  }

  /** One more result and one task less: the counter reaches the number of steps exactly when the
      last task is gone. */
  lemma PartitionShrinks(p: Plan, outs: seq<TaskOutput>, rows: map<int, Row>, nextId: int, id: int, o: TaskOutput)
    requires p.kind == Independent
    requires TasksOk(p, outs, rows, nextId) && OutputsOk(p, outs) && Partition(|p.steps|, outs, rows)
    requires id in rows && o.stepIndex == rows[id].stepIndex && o.stepName == rows[id].stepName
    ensures OutputsOk(p, outs + [o])
    ensures Partition(|p.steps|, outs + [o], rows - {id})
    ensures |outs| + 1 == |p.steps| <==> NoRows(rows - {id})
  {
    var after, left := outs + [o], rows - {id};
    assert TaskOk(p, outs, rows[id]);
    assert !HasOutput(outs, o.stepIndex);
    assert forall b :: b in left ==> TaskOk(p, outs, rows[b]);
    PartitionMoves(outs, rows, |p.steps|, id, o);
    hide Partition, HasOutput, NoRows, DistinctRows;
    NewStepExtends(p, outs, o);
    FullExactlyWhenNoneLeft(after, left, |p.steps|);
  }

  lemma AtMostOnePerStep(outs: seq<TaskOutput>, n: nat)
    requires DistinctSteps(outs) && forall k :: 0 <= k < |outs| ==> 1 <= outs[k].stepIndex <= n
    ensures |outs| <= n
  {
    DistinctStepsSort(outs, n);
    AscendingFillsTheRange(SortByStep(outs), n);
  }

  /** The state that an INDEPENDENT success records, before the test for the last step. */
  lemma CountedEffect(i: Instance, id: int, result: Bytes) returns (l: Instance)
    requires Ordered(i.history, i.nextEvent) && 0 <= i.nextEvent && id in i.tasks
    ensures var t := i.tasks[id];
            && l == (var k := Log(Marked(i, id, result, ""), StepCompleted, t.stepIndex, t.stepName, Raw(result), "");
                     k.(exec := k.exec.(completedSteps := k.exec.completedSteps + 1)))
            && Extends(i, l, Outputs(i.history) + [TaskOutput(t.stepIndex, t.stepName, result)],
                       Undone(i.history), Endings(i.history))
    ensures l.exec == i.exec.(completedSteps := i.exec.completedSteps + 1)
    ensures l.tasks - {id} == i.tasks - {id} && l.comps == i.comps && l.sweep == i.sweep && l.nextId == i.nextId
    ensures 0 <= l.nextEvent && (RolledBack(l.history) <==> RolledBack(i.history))
  {
    hide Outputs, Undone, Endings, RolledBack, Ordered, Grew, Log;
    var j := Marked(i, id, result, "");
    var t := j.tasks[id];
    DropMarked(i.tasks, id, t);
    var k := Logged(j, StepCompleted, t.stepIndex, t.stepName, Raw(result), "");
    l := k.(exec := k.exec.(completedSteps := k.exec.completedSteps + 1));
  }

  lemma CompleteIndependentEffect(i: Instance, id: int, result: Bytes) returns (n: Instance)
    requires Ordered(i.history, i.nextEvent) && 0 <= i.nextEvent && i.exec.result == None
    requires id in i.tasks && i.exec.state == Running
    ensures var last := i.exec.completedSteps + 1 == i.exec.totalSteps;
            && CompleteIndependent(Marked(i, id, result, ""), id) == Commit(n, "", "", last)
            && n.exec == i.exec.(state := if last then Completed else Running,
                                 completedSteps := i.exec.completedSteps + 1)
            && Extends(i, n, Outputs(i.history) + [TaskOutput(i.tasks[id].stepIndex, i.tasks[id].stepName, result)],
                       Undone(i.history), if last then Endings(i.history) + [WorkflowCompleted] else Endings(i.history))
            && (last ==> n.history != [] && n.history[|n.history| - 1].kind == WorkflowCompleted
                         && n.history[|n.history| - 1].payload == Combined(SortByStep(Outputs(n.history))))
    ensures n.tasks == i.tasks - {id} && n.comps == i.comps && n.sweep == i.sweep && n.nextId == i.nextId
    ensures RolledBack(n.history) <==> RolledBack(i.history)
  {
    hide Outputs, Undone, Endings, RolledBack, Ordered, Grew, Log, SortByStep, Finish;
    var l := CountedEffect(i, id, result);
    n := DropTask(l, id);
    if l.exec.completedSteps == l.exec.totalSteps {
      var m := FinishEffect(l, Combined(StepOutputs(l.history)));
      GrewOn(i.history, l.history, m.history);
      n := DropTask(m, id);
    }
  }

  lemma WhileIndependent(i: Instance)
    requires Inv(i) && i.exec.state == Running && i.exec.workflowType == Independent
    ensures var p, outs := PlanOf(i), Outputs(i.history);
            && RunningOk(i) && RecordOk(i) && i.exec.totalSteps == |i.steps|
            && Ordered(i.history, i.nextEvent) && 0 <= i.nextEvent && i.exec.result == None
            && TasksOk(p, outs, i.tasks, i.nextId) && OutputsOk(p, outs) && Partition(|i.steps|, outs, i.tasks)
            && i.exec.completedSteps == |outs| && Undone(i.history) == [] && i.comps == map[]
            && Endings(i.history) == [] && i.sweep == Idle && i.exec.compensationTotal == 0 && AllActive(i.tasks)
            && !RolledBack(i.history) && i.exec.compensationDone == 0
  {
    hide Outputs, Undone, Endings, RolledBack, Ordered, Partition, TasksOk, OutputsOk;
  }

  lemma DroppedTasksOk(p: Plan, outs: seq<TaskOutput>, o: TaskOutput, rows: map<int, Row>, nextId: int, id: int)
    requires p.kind == Independent && TasksOk(p, outs, rows, nextId)
    ensures TasksOk(p, outs + [o], rows - {id}, nextId)
    ensures AllActive(rows) ==> AllActive(rows - {id})
  {
  }

  /** The counter and the task table agree on which success is the last one. */
  lemma LastOne(i: Instance, id: int)
    requires Inv(i) && id in i.tasks && i.exec.state == Running && i.exec.workflowType == Independent
    ensures i.exec.completedSteps == |Outputs(i.history)| && i.exec.totalSteps == |i.steps|
    ensures i.exec.completedSteps + 1 == i.exec.totalSteps <==> NoRows(i.tasks - {id})
    ensures Ordered(i.history, i.nextEvent) && 0 <= i.nextEvent && i.exec.result == None
    ensures i.comps == map[] && Endings(i.history) == [] && i.sweep == Idle
  {
    var p, outs, o := PlanOf(i), Outputs(i.history), TaskOutput(i.tasks[id].stepIndex, i.tasks[id].stepName, []);
    hide Outputs, Undone, Endings, RolledBack, Ordered;
    WhileIndependent(i);
    hide Inv, Partition, OutputsOk, TasksOk, RecordOk, RunningOk;
    PartitionShrinks(p, outs, i.tasks, i.nextId, id, o);
  }

  lemma NewOutputOk(i: Instance, id: int, o: TaskOutput)
    requires Inv(i) && id in i.tasks && i.exec.state == Running && i.exec.workflowType == Independent
    requires o.stepIndex == i.tasks[id].stepIndex && o.stepName == i.tasks[id].stepName
    ensures OutputsOk(PlanOf(i), Outputs(i.history) + [o])
    ensures Undone(i.history) == [] && i.exec.compensationDone == 0 && !RolledBack(i.history)
    ensures Ordered(i.history, i.nextEvent) && 0 <= i.nextEvent && i.exec.result == None
  {
    hide Outputs, Undone, Endings, RolledBack, Ordered;
    WhileIndependent(i);
    hide Inv, Partition, OutputsOk, TasksOk, RecordOk, RunningOk;
    PartitionShrinks(PlanOf(i), Outputs(i.history), i.tasks, i.nextId, id, o);
  }

  lemma IndependentLogs(i: Instance, id: int, result: Bytes) returns (n: Instance)
    requires Inv(i) && id in i.tasks && i.exec.state == Running && i.exec.workflowType == Independent
    ensures CompleteIndependent(Marked(i, id, result, ""), id).Commit?
    ensures CompleteIndependent(Marked(i, id, result, ""), id).next == n
    ensures Ordered(n.history, n.nextEvent) && 0 <= n.nextEvent
    ensures PlanOf(n).kind == Independent && OutputsOk(PlanOf(n), Outputs(n.history))
    ensures Undone(n.history) == [] && n.exec.compensationDone == 0 && !RolledBack(n.history)
  {
    var o := TaskOutput(i.tasks[id].stepIndex, i.tasks[id].stepName, result);
    NewOutputOk(i, id, o);
    hide Inv, Outputs, Undone, Endings, RolledBack, Ordered, Append, SortByStep, CompleteIndependent, OutputsOk;
    n := CompleteIndependentEffect(i, id, result);
  }

  lemma IndependentRecord(i: Instance, id: int, result: Bytes)
    requires Inv(i) && id in i.tasks && i.exec.state == Running && i.exec.workflowType == Independent
    ensures var tx := CompleteIndependent(Marked(i, id, result, ""), id); tx.Commit? && RecordOk(tx.next)
  {
    hide Inv, Outputs, Undone, RolledBack, Ordered, CompleteIndependent, OutputsOk, Marked;
    var n := IndependentLogs(i, id, result);
  }

  lemma IndependentChanges(i: Instance, id: int, result: Bytes) returns (n: Instance)
    requires Inv(i) && id in i.tasks && i.exec.state == Running && i.exec.workflowType == Independent
    ensures CompleteIndependent(Marked(i, id, result, ""), id).Commit?
    ensures CompleteIndependent(Marked(i, id, result, ""), id).next == n
    ensures Outputs(n.history)
            == Outputs(i.history) + [TaskOutput(i.tasks[id].stepIndex, i.tasks[id].stepName, result)]
    ensures PlanOf(n) == PlanOf(i)
    ensures n.tasks == i.tasks - {id} && n.comps == map[] && n.nextId == i.nextId
  {
    LastOne(i, id);
    hide Inv, Outputs, Undone, Endings, RolledBack, Ordered, Append, SortByStep, CompleteIndependent;
    n := CompleteIndependentEffect(i, id, result);
  }

  lemma IndependentTables(i: Instance, id: int, result: Bytes)
    requires Inv(i) && id in i.tasks && i.exec.state == Running && i.exec.workflowType == Independent
    ensures var tx := CompleteIndependent(Marked(i, id, result, ""), id); tx.Commit? && TablesOk(tx.next)
  {
    var p, outs, o := PlanOf(i), Outputs(i.history), TaskOutput(i.tasks[id].stepIndex, i.tasks[id].stepName, result);
    assert TasksOk(p, outs, i.tasks, i.nextId) by { hide Outputs, PhaseOk, RecordOk; }
    hide Inv, Outputs, Undone, PlanOf, CompleteIndependent, Marked, TaskOk, CompensationOk;
    DroppedTasksOk(p, outs, o, i.tasks, i.nextId, id);
    var n := IndependentChanges(i, id, result);
  }

  lemma IndependentFollows(i: Instance, id: int, result: Bytes)
    requires Inv(i) && id in i.tasks && i.exec.state == Running && i.exec.workflowType == Independent
    ensures var tx := CompleteIndependent(Marked(i, id, result, ""), id); tx.Commit? && Follows(i, tx.next)
  {
    LastOne(i, id);
    hide Inv, Outputs, Undone, Endings, RolledBack, Ordered, Append, SortByStep, CompleteIndependent;
    var n := CompleteIndependentEffect(i, id, result);
  }

  lemma IndependentEnds(i: Instance, id: int, result: Bytes) returns (n: Instance)
    requires Inv(i) && id in i.tasks && i.exec.state == Running && i.exec.workflowType == Independent
    requires i.exec.completedSteps + 1 == i.exec.totalSteps
    ensures CompleteIndependent(Marked(i, id, result, ""), id) == Commit(n, "", "", true)
    ensures Endings(n.history) == [EndingOf(n.exec.state)]
    ensures n.history != [] && n.history[|n.history| - 1].kind == EndingOf(n.exec.state)
    ensures NoneActive(n.tasks) && NoneActive(n.comps)
    ensures |Outputs(n.history)| == |n.steps|
    ensures n.history[|n.history| - 1].payload == FinalPayload(n.exec.workflowType, Outputs(n.history))
  {
    LastOne(i, id);
    hide Inv, Outputs, Undone, Endings, RolledBack, Ordered, Append, SortByStep, CompleteIndependent;
    n := CompleteIndependentEffect(i, id, result);
  }

  lemma IndependentCloses(i: Instance, id: int, result: Bytes) returns (n: Instance)
    requires Inv(i) && id in i.tasks && i.exec.state == Running && i.exec.workflowType == Independent
    requires i.exec.completedSteps + 1 == i.exec.totalSteps
    ensures CompleteIndependent(Marked(i, id, result, ""), id) == Commit(n, "", "", true) && ClosedOk(n)
  {
    hide Inv, Outputs, Endings, FinalPayload, CompleteIndependent, EndingOf;
    n := IndependentEnds(i, id, result);
  }

  lemma IndependentRuns(i: Instance, id: int, result: Bytes)
    requires Inv(i) && id in i.tasks && i.exec.state == Running && i.exec.workflowType == Independent
    requires i.exec.completedSteps + 1 != i.exec.totalSteps
    ensures var tx := CompleteIndependent(Marked(i, id, result, ""), id); tx.Commit? && RunningOk(tx.next)
  {
    var p, outs, o := PlanOf(i), Outputs(i.history), TaskOutput(i.tasks[id].stepIndex, i.tasks[id].stepName, result);
    hide Outputs, Undone, Endings, RolledBack, Ordered, Append, SortByStep, CompleteIndependent;
    WhileIndependent(i);
    hide Inv, Partition, OutputsOk, TasksOk, RecordOk;
    PartitionShrinks(p, outs, i.tasks, i.nextId, id, o);
    DroppedTasksOk(p, outs, o, i.tasks, i.nextId, id);
    var n := CompleteIndependentEffect(i, id, result);
  }

  lemma CompleteIndependentKeeps(i: Instance, id: int, result: Bytes) returns (n: Instance)
    requires Inv(i) && id in i.tasks && i.exec.state == Running && i.exec.workflowType == Independent
    ensures var tx := CompleteIndependent(Marked(i, id, result, ""), id); tx.Commit? && tx.next == n
    ensures Inv(n) && Follows(i, n)
  {
    hide Outputs, Undone, Endings, RolledBack, Ordered, Marked, TablesOk, RecordOk, RunningOk, ClosedOk,
      CompleteIndependent, Follows;
    LastOne(i, id);
    IndependentRecord(i, id, result);
    IndependentTables(i, id, result);
    IndependentFollows(i, id, result);
    n := CompleteIndependentEffect(i, id, result);
    assert WellFormed(n.steps);
    hide Inv, WellFormed;
    if n.exec.state == Completed {
      var m := IndependentCloses(i, id, result);
    } else {
      IndependentRuns(i, id, result);
    }
    InvFromParts(n);
  }
}
