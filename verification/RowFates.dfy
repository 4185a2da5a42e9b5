/** What one step of a run does to one row of the task table or of the compensation table. */
module RowFates {
  import opened StateMachine
  import opened Domain
  import opened Rows
  import opened Definitions
  import opened History
  import opened Instances
  import opened Invariants
  import opened Preservation
  import opened RollbackPreservation
  import opened Runs

  /** A report that reaches a task, or a compensation task, of an execution that is not over. */
  predicate Reports(i: Instance, a: Action, id: int) {
    a.Report? && a.id == id && id in i.tasks && !IsTerminal(i.exec.state)
  }

  predicate ReportsCompensation(i: Instance, a: Action, id: int) {
    a.ReportCompensation? && a.id == id && id in i.comps && !IsTerminal(i.exec.state)
  }

  /** A row that was there before is leased by a poll, renewed by a heartbeat, made inactive, or left
      alone; a report removes it. */
  predicate OldTask(i: Instance, a: Action, id: int, r: Row, n: Row) {
    && !Reports(i, a, id)
    && (if a == Poll(id) && Eligible(r, i.now) then n == LockRow(r, i.now, r.timeoutSeconds)
        else if a == Heartbeat(id) && r.state == Running then n == RenewRow(r, i.now, r.timeoutSeconds)
        else n == r || !Active(n))
  }

  /** A row that was not there retries the reported one, or begins the step after it. */
  predicate NewTask(i: Instance, a: Action, n: Row) {
    && a.Report? && Reports(i, a, a.id)
    && var q := i.tasks[a.id];
    || (a.err != "" && q.attempt < q.maxAttempts && n == RetryRow(ReportRow(q, a.result, a.err), i.now))
    || (a.err == "" && i.exec.workflowType != Independent && n.stepIndex == q.stepIndex + 1 && First(n, i.now))
  }

  /** As BuildTask makes it. */
  predicate First(n: Row, now: int) {
    n.state == Created && n.attempt == 0 && n.scheduledAt == now && n.lockedUntil == None && n.maxAttempts > 0
  }

  ghost predicate TaskFate(i: Instance, a: Action, n: Instance, id: int) {
    id in n.tasks ==>
      if id in i.tasks then OldTask(i, a, id, i.tasks[id], n.tasks[id]) else NewTask(i, a, n.tasks[id])
  }

  predicate OldCompensation(i: Instance, a: Action, id: int, r: Row, n: Row) {
    && !ReportsCompensation(i, a, id)
    && (if a == PollCompensation(id) && Eligible(r, i.now) then n == LockRow(r, i.now, CompensationLease(r))
        else if a == HeartbeatCompensation(id) && r.state == Running then n == RenewRow(r, i.now, 300)
        else n == r || !Active(n))
  }

  /** A new row retries the reported one, begins a step below it, or is the first of a rollback. */
  predicate NewCompensation(i: Instance, a: Action, state: State, n: Row) {
    || (a.Report? && i.exec.state == Running && state == Compensating && First(n, i.now))
    || (a.ReportCompensation? && ReportsCompensation(i, a, a.id) && i.exec.state == Compensating
        && var q := i.comps[a.id];
        || (a.err != "" && q.attempt < q.maxAttempts && n == RetryRow(ReportRow(q, a.result, a.err), i.now))
        || (a.err == "" && n.stepIndex < q.stepIndex && First(n, i.now)))
  }

  ghost predicate CompensationFate(i: Instance, a: Action, n: Instance, id: int) {
    id in n.comps ==>
      if id in i.comps then OldCompensation(i, a, id, i.comps[id], n.comps[id])
      else NewCompensation(i, a, n.exec.state, n.comps[id])
  }

  // ---------------------------------------------------------------- reports on tasks

  lemma RetryFates(i: Instance, id: int, result: Bytes, err: string, row: int)
    requires Inv(i) && id in i.tasks && i.exec.state == Running && err != ""
             && i.tasks[id].attempt < i.tasks[id].maxAttempts
    ensures var tx := RetryTask(Marked(i, id, result, err), id);
            tx.Commit? && TaskFate(i, Report(id, result, err), tx.next, row) && tx.next.comps == i.comps
  {
    hide Outputs, Undone, Endings, RolledBack, Ordered, RetryTask, OutputsOk, UndoneOk, CompensationsOk, Partition;
    assert TaskOk(PlanOf(i), Outputs(i.history), i.tasks[id]);
    var n := RetryTaskEffect(i, id, result, err);
  }

  lemma FailExecutionFates(i: Instance, id: int, result: Bytes, err: string, row: int)
    requires Inv(i) && id in i.tasks && i.exec.state == Running
    ensures var tx := FailExecution(Marked(i, id, result, err), id);
            tx.Commit? && TaskFate(i, Report(id, result, err), tx.next, row) && tx.next.comps == i.comps
  {
    hide Outputs, Undone, Endings, RolledBack, Ordered, FailExecution, OutputsOk, UndoneOk, CompensationsOk,
      Partition;
    var n := FailExecutionEffect(i, id, result, err);
  }

  lemma FailSagaFates(i: Instance, id: int, result: Bytes, err: string, row: int)
    requires Inv(i) && id in i.tasks && i.exec.state == Running && i.exec.workflowType == Saga
    ensures var tx := FailSaga(Marked(i, id, result, err), id);
            tx.Commit? && TaskFate(i, Report(id, result, err), tx.next, row)
            && CompensationFate(i, Report(id, result, err), tx.next, row)
  {
    hide Outputs, Undone, Endings, RolledBack, Ordered, FailSaga, WithOutput, CompensationSteps, Recorded, OutputsOk,
      UndoneOk;
    UndoableHaveOutputs(i);
    assert TaskOk(PlanOf(i), Outputs(i.history), i.tasks[id]);
    var n := FailSagaEffect(i, id, result, err, Undoable(PlanOf(i), |Outputs(i.history)|));
  }

  lemma IndependentFates(i: Instance, id: int, result: Bytes, row: int)
    requires Inv(i) && id in i.tasks && i.exec.state == Running && i.exec.workflowType == Independent
    ensures var tx := CompleteIndependent(Marked(i, id, result, ""), id);
            tx.Commit? && TaskFate(i, Report(id, result, ""), tx.next, row) && tx.next.comps == i.comps
  {
    hide Outputs, Undone, Endings, RolledBack, Ordered, CompleteIndependent, OutputsOk, UndoneOk, CompensationsOk,
      Partition;
    var n := CompleteIndependentEffect(i, id, result);
  }

  lemma ChainFates(i: Instance, id: int, result: Bytes, row: int)
    requires Inv(i) && id in i.tasks && i.exec.state == Running && i.exec.workflowType != Independent
    ensures var tx := AdvanceChain(Marked(i, id, result, ""), id);
            tx.Commit? && TaskFate(i, Report(id, result, ""), tx.next, row) && tx.next.comps == i.comps
  {
    hide Outputs, Undone, Endings, RolledBack, Ordered, AdvanceChain, OutputsOk, UndoneOk, CompensationsOk, Partition;
    OneTask(i, id);
    assert TaskOk(PlanOf(i), Outputs(i.history), i.tasks[id]);
    if i.tasks[id].stepIndex == |i.steps| {
      var n := FinishChainEffect(i, id, result);
    } else {
      var n := NextStepEffect(i, id, result);
    }
  }

  lemma SameCompensations(i: Instance, a: Action, n: Instance, id: int)
    requires n.comps == i.comps && !a.ReportCompensation? && a != PollCompensation(id) && a != HeartbeatCompensation(id)
    ensures CompensationFate(i, a, n, id)
  {
  }

  lemma SameTasks(i: Instance, a: Action, n: Instance, id: int)
    requires n.tasks == i.tasks && !a.Report? && a != Poll(id) && a != Heartbeat(id)
    ensures TaskFate(i, a, n, id)
  {
  }

  lemma ReportOnlyMarks(i: Instance, a: Action, row: int)
    requires a.Report? && (a.id !in i.tasks || IsTerminal(i.exec.state))
    ensures TaskFate(i, a, Next(i, a), row) && CompensationFate(i, a, Next(i, a), row)
  {
  }

  lemma ReportFates(i: Instance, id: int, result: Bytes, err: string, row: int)
    requires Inv(i)
    ensures var a := Report(id, result, err); TaskFate(i, a, Next(i, a), row) && CompensationFate(i, a, Next(i, a), row)
  {
    hide Outputs, RetryTask, FailSaga, FailExecution, CompleteIndependent, AdvanceChain, TaskFate, CompensationFate,
      PhaseOk, RecordOk;
    var a := Report(id, result, err);
    if id in i.tasks && !IsTerminal(i.exec.state) {
      TaskMeansRunning(i, id);
      assert i.tasks[id].maxAttempts == Marked(i, id, result, err).tasks[id].maxAttempts;
      if err != "" && i.tasks[id].attempt < i.tasks[id].maxAttempts {
        RetryFates(i, id, result, err, row);
        SameCompensations(i, a, RetryTask(Marked(i, id, result, err), id).next, row);
      } else if err != "" && i.exec.workflowType == Saga {
        FailSagaFates(i, id, result, err, row);
      } else if err != "" {
        FailExecutionFates(i, id, result, err, row);
        SameCompensations(i, a, FailExecution(Marked(i, id, result, err), id).next, row);
      } else if i.exec.workflowType == Independent {
        IndependentFates(i, id, result, row);
        SameCompensations(i, a, CompleteIndependent(Marked(i, id, result, ""), id).next, row);
      } else {
        ChainFates(i, id, result, row);
        SameCompensations(i, a, AdvanceChain(Marked(i, id, result, ""), id).next, row);
      }
    } else {
      ReportOnlyMarks(i, a, row);
    }
  }

  lemma TaskMeansRunning(i: Instance, id: int)
    requires Inv(i) && id in i.tasks && !IsTerminal(i.exec.state)
    ensures i.exec.state == Running
  {
    hide Outputs, Undone, Endings, RolledBack, Ordered;
    TerminalByName(i.exec.state);
  }

  // ---------------------------------------------------------------- reports on compensation tasks

  lemma ReportCompensationOnlyMarks(i: Instance, a: Action, row: int)
    requires a.ReportCompensation? && (a.id !in i.comps || IsTerminal(i.exec.state))
    ensures TaskFate(i, a, Next(i, a), row) && CompensationFate(i, a, Next(i, a), row)
  {
  }

  lemma CompensationMeansCompensating(i: Instance, id: int)
    requires Inv(i) && id in i.comps && !IsTerminal(i.exec.state)
    ensures i.exec.state == Compensating
  {
    hide Outputs, Undone, Endings, RolledBack, Ordered;
    TerminalByName(i.exec.state);
  }

  lemma RetryCompensationFates(i: Instance, id: int, result: Bytes, err: string, row: int)
    requires Inv(i) && id in i.comps && i.exec.state == Compensating && err != ""
             && i.comps[id].attempt < i.comps[id].maxAttempts
    ensures var tx := RetryCompensation(MarkedCompensation(i, id, result, err), id);
            tx.Commit? && CompensationFate(i, ReportCompensation(id, result, err), tx.next, row)
            && tx.next.tasks == i.tasks
  {
    hide Outputs, Undone, Endings, RolledBack, Ordered, RetryCompensation, OutputsOk, UndoneOk, PhaseOk;
    assert i.nextId !in i.comps;
    OneCompensation(i, id);
    hide CompensationOk, TablesOk, RecordOk;
    var n := RetryCompensationKeeps(i, id, result, err);
  }

  lemma FailRollbackFates(i: Instance, id: int, result: Bytes, err: string, row: int)
    requires Inv(i) && id in i.comps && i.exec.state == Compensating
    ensures var tx := FailRollback(MarkedCompensation(i, id, result, err), id);
            tx.Commit? && CompensationFate(i, ReportCompensation(id, result, err), tx.next, row)
            && tx.next.tasks == i.tasks
  {
    hide Outputs, Undone, Endings, RolledBack, Ordered, FailRollback, OutputsOk, UndoneOk, CompensationsOk, Partition;
    var n := FailRollbackEffect(i, id, result, err);
  }

  lemma AdvanceRollbackFates(i: Instance, id: int, result: Bytes, row: int)
    requires Inv(i) && id in i.comps && i.exec.state == Compensating
    ensures var tx := AdvanceRollback(MarkedCompensation(i, id, result, ""), id);
            tx.Commit? && CompensationFate(i, ReportCompensation(id, result, ""), tx.next, row)
            && tx.next.tasks == i.tasks
  {
    hide Outputs, Undone, Endings, RolledBack, Ordered, AdvanceRollback, Recorded, CompensationSteps, FirstWithOutput;
    hide PhaseOk, OutputsOk, UndoneOk;
    assert Ordered(i.history, i.nextEvent) && 0 <= i.nextEvent && i.nextId !in i.comps;
    UndoableDescend(i);
    OneCompensation(i, id);
    var next := NextToUndo(i, id);
    hide Inv, Undoable, CompensationOk;
    var n := AdvanceRollbackEffect(i, id, result, next);
  }

  /** The steps to undo come in descending order and may be attempted. */
  lemma UndoableDescend(i: Instance)
    requires Inv(i)
    ensures var e := Undoable(PlanOf(i), |Outputs(i.history)|);
            && (forall j, k :: 0 <= j < k < |e| ==> e[j].stepIndex > e[k].stepIndex)
            && (forall j :: 0 <= j < |e| ==> e[j].maxAttempts > 0)
  {
    hide Outputs, PhaseOk, RecordOk, TablesOk;
    CompensationStepsSelect(i.steps, |Outputs(i.history)|);
  }

  lemma ReportCompensationFates(i: Instance, id: int, result: Bytes, err: string, row: int)
    requires Inv(i)
    ensures var a := ReportCompensation(id, result, err);
            TaskFate(i, a, Next(i, a), row) && CompensationFate(i, a, Next(i, a), row)
  {
    hide Outputs, RetryCompensation, FailRollback, AdvanceRollback, TaskFate, CompensationFate, PhaseOk, RecordOk;
    var a := ReportCompensation(id, result, err);
    if id in i.comps && !IsTerminal(i.exec.state) {
      CompensationMeansCompensating(i, id);
      if err != "" && i.comps[id].attempt < i.comps[id].maxAttempts {
        RetryCompensationFates(i, id, result, err, row);
      } else if err != "" {
        FailRollbackFates(i, id, result, err, row);
      } else {
        AdvanceRollbackFates(i, id, result, row);
      }
      SameTasks(i, a, Next(i, a), row);
    } else {
      ReportCompensationOnlyMarks(i, a, row);
    }
  }

  // ---------------------------------------------------------------- the other steps

  lemma CancelFates(i: Instance, id: int)
    ensures TaskFate(i, Cancel, Settle(i, CancelTx(i)), id) && CompensationFate(i, Cancel, Settle(i, CancelTx(i)), id)
  {
    hide Append;
  }

  lemma SweepFates(i: Instance, id: int)
    ensures TaskFate(i, SweepStep, SweepOn(i), id) && CompensationFate(i, SweepStep, SweepOn(i), id)
  {
    hide Append;
  }

  lemma RowsUntouched(i: Instance, a: Action, n: Instance, id: int)
    requires n.tasks == i.tasks && n.comps == i.comps
    requires a.LostReport? || a.ExpireOverdue? || a.RecoverAtStartup? || a.Elsewhere?
    ensures TaskFate(i, a, n, id) && CompensationFate(i, a, n, id)
  {
  }

  lemma PollFates(i: Instance, row: int, id: int)
    ensures TaskFate(i, Poll(row), PollTask(i, row), id) && CompensationFate(i, Poll(row), PollTask(i, row), id)
    ensures TaskFate(i, Heartbeat(row), HeartbeatTask(i, row), id)
            && CompensationFate(i, Heartbeat(row), HeartbeatTask(i, row), id)
  {
    hide LockRow, RenewRow, Eligible;
  }

  lemma PollCompensationFates(i: Instance, row: int, id: int)
    ensures TaskFate(i, PollCompensation(row), PollCompensationTask(i, row), id)
    ensures CompensationFate(i, PollCompensation(row), PollCompensationTask(i, row), id)
    ensures TaskFate(i, HeartbeatCompensation(row), HeartbeatCompensationTask(i, row), id)
    ensures CompensationFate(i, HeartbeatCompensation(row), HeartbeatCompensationTask(i, row), id)
  {
    hide LockRow, RenewRow, Eligible;
  }

  /** The fate of every row of both tables in every step of a run. */
  lemma Fates(i: Instance, a: Action, id: int)
    requires Inv(i)
    ensures TaskFate(i, a, Next(i, a), id) && CompensationFate(i, a, Next(i, a), id)
  {
    hide Inv, TaskFate, CompensationFate, CompleteTaskTx, CompleteCompensationTx, CancelTx, PollTask,
      PollCompensationTask, HeartbeatTask, HeartbeatCompensationTask, SweepOn, Recover;
    match a
    case Poll(row) => PollFates(i, row, id);
    case PollCompensation(row) => PollCompensationFates(i, row, id);
    case Heartbeat(row) => PollFates(i, row, id);
    case HeartbeatCompensation(row) => PollCompensationFates(i, row, id);
    case Report(row, result, err) => ReportFates(i, row, result, err, id);
    case ReportCompensation(row, result, err) => ReportCompensationFates(i, row, result, err, id);
    case Cancel => CancelFates(i, id);
    case SweepStep => SweepFates(i, id);
    case _ =>
      RecoveryFindsNothing(i);
      RowsUntouched(i, a, Next(i, a), id);
  }
}
