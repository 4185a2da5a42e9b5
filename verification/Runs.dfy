/** Runs of one execution: everything that can happen to it, in any order. */
module Runs {
  import opened StateMachine
  import opened Domain
  import opened Rows
  import opened Definitions
  import opened History
  import opened Instances
  import opened Invariants
  import opened Preservation
  import opened RollbackPreservation

  /** LostReport is a success report whose transaction is undone by a database error after the
      checkpoint was written: checkpoints bypass the transaction. Elsewhere stands for the passage
      of time and for other executions taking task ids and event ids. */
  datatype Action =
    | Poll(id: int)
    | PollCompensation(id: int)
    | Heartbeat(id: int)
    | HeartbeatCompensation(id: int)
    | Report(id: int, result: Bytes, err: string)
    | ReportCompensation(id: int, result: Bytes, err: string)
    | LostReport(id: int, result: Bytes)
    | Cancel
    | ExpireOverdue
    | SweepStep
    | RecoverAtStartup
    | Elsewhere(time: nat, ids: nat, events: nat)

  /** The state a transaction leaves behind. A rollback undoes everything but checkpoints. */
  function Settle(i: Instance, tx: Tx): Instance {
    match tx
    case Commit(n, _, _, _) => n
    case Rollback(dirty, _) => i.(checkpoints := dirty.checkpoints)
  }

  /** What is left when the closure returns but the commit fails. */
  function SettleFailed(i: Instance, tx: Tx): Instance {
    match tx
    case Commit(n, _, _, _) => i.(checkpoints := n.checkpoints)
    case Rollback(dirty, _) => i.(checkpoints := dirty.checkpoints)
  }

  function PollTask(i: Instance, id: int): Instance {
    if id in i.tasks && Eligible(i.tasks[id], i.now)
    then i.(tasks := i.tasks[id := LockRow(i.tasks[id], i.now, i.tasks[id].timeoutSeconds)])
    else i
  }

  function PollCompensationTask(i: Instance, id: int): Instance {
    if id in i.comps && Eligible(i.comps[id], i.now)
    then i.(comps := i.comps[id := LockRow(i.comps[id], i.now, CompensationLease(i.comps[id]))])
    else i
  }

  /** RenewLock; a row that is not RUNNING is not renewed. */
  function HeartbeatTask(i: Instance, id: int): Instance {
    if id in i.tasks && i.tasks[id].state == Running
    then i.(tasks := i.tasks[id := RenewRow(i.tasks[id], i.now, i.tasks[id].timeoutSeconds)])
    else i
  }

  function HeartbeatCompensationTask(i: Instance, id: int): Instance {
    if id in i.comps && i.comps[id].state == Running
    then i.(comps := i.comps[id := RenewRow(i.comps[id], i.now, 300)])
    else i
  }

  function LoseReport(i: Instance, id: int, result: Bytes): Instance {
    if id in i.tasks && !IsTerminal(i.exec.state) && i.exec.workflowType != Independent
    then i.(checkpoints := i.checkpoints[i.tasks[id].stepIndex := result])
    else i
  }

  function Next(i: Instance, a: Action): Instance {
    match a
    case Poll(id) => PollTask(i, id)
    case PollCompensation(id) => PollCompensationTask(i, id)
    case Heartbeat(id) => HeartbeatTask(i, id)
    case HeartbeatCompensation(id) => HeartbeatCompensationTask(i, id)
    case Report(id, result, err) => Settle(i, CompleteTaskTx(i, id, result, err))
    case ReportCompensation(id, result, err) => Settle(i, CompleteCompensationTx(i, id, result, err))
    case LostReport(id, result) => LoseReport(i, id, result)
    case Cancel => Settle(i, CancelTx(i))
    case ExpireOverdue => Flip(i)
    case SweepStep => SweepOn(i)
    case RecoverAtStartup => Recover(i)
    case Elsewhere(time, ids, events) =>
      i.(now := i.now + time, nextId := i.nextId + ids, nextEvent := i.nextEvent + events)
  }

  function Run(i: Instance, acts: seq<Action>): Instance {
    if acts == [] then i else Next(Run(i, acts[..|acts| - 1]), acts[|acts| - 1])
  }

  // ---------------------------------------------------------------- reports

  lemma ReportedTaskOk(p: Plan, outs: seq<TaskOutput>, rows: map<int, Row>, nextId: int, id: int, r: Row)
    requires id in rows && TasksOk(p, outs, rows, nextId)
    requires r.stepIndex == rows[id].stepIndex && TaskOk(p, outs, r)
    ensures TasksOk(p, outs, rows[id := r], nextId)
    ensures NoneActive(rows) && !Active(r) ==> NoneActive(rows[id := r])
    ensures AllActive(rows) && Active(r) ==> AllActive(rows[id := r])
    ensures !NoRows(rows[id := r])
    ensures forall a :: a in rows[id := r] <==> a in rows
    ensures forall k :: HasRow(rows[id := r], k) <==> HasRow(rows, k)
  {
    var after := rows[id := r];
    assert id in after;
    forall k ensures HasRow(after, k) <==> HasRow(rows, k) {
      if HasRow(rows, k) {
        var b :| b in rows && rows[b].stepIndex == k;
        assert b in after && after[b].stepIndex == k;
      }
    }
  }

  lemma ReportedCompensationOk(p: Plan, outs: seq<TaskOutput>, undone: nat, rows: map<int, Row>, nextId: int, id: int,
                               r: Row)
    requires id in rows && CompensationsOk(p, outs, undone, rows, nextId)
    requires r.stepIndex == rows[id].stepIndex && CompensationOk(p, outs, undone, r)
    ensures CompensationsOk(p, outs, undone, rows[id := r], nextId)
    ensures NoneActive(rows) && !Active(r) ==> NoneActive(rows[id := r])
    ensures AllActive(rows) && Active(r) ==> AllActive(rows[id := r])
    ensures !NoRows(rows[id := r])
    ensures forall a :: a in rows[id := r] <==> a in rows
  {
    assert id in rows[id := r];
  }

  /** Replacing a task row by another version of itself keeps the invariant as long as the row is
      as active as before, or the execution is over. */
  lemma RewriteTaskKeeps(i: Instance, id: int, r: Row)
    requires Inv(i) && id in i.tasks
    requires r.stepIndex == i.tasks[id].stepIndex && TaskOk(PlanOf(i), Outputs(i.history), r)
    requires Active(r) ==> Active(i.tasks[id])
    requires Active(r) || IsTerminal(i.exec.state)
    ensures Inv(i.(tasks := i.tasks[id := r]))
  {
    hide Outputs, Undone, Endings, RolledBack, Ordered, TaskOk, CompensationsOk;
    ReportedTaskOk(PlanOf(i), Outputs(i.history), i.tasks, i.nextId, id, r);
    TerminalByName(i.exec.state);
    var n := i.(tasks := i.tasks[id := r]);
    assert TablesOk(n);
    assert RecordOk(n);
    if i.exec.state == Running && i.exec.workflowType == Independent {
      RewriteKeepsPartition(|i.steps|, Outputs(i.history), i.tasks, id, r);
    }
    assert PhaseOk(n);
  }

  lemma RewriteKeepsPartition(n: nat, outs: seq<TaskOutput>, rows: map<int, Row>, id: int, r: Row)
    requires id in rows && r.stepIndex == rows[id].stepIndex && Partition(n, outs, rows)
    ensures Partition(n, outs, rows[id := r])
  {
    forall k | HasRow(rows, k) ensures HasRow(rows[id := r], k) {
      var b :| b in rows && rows[b].stepIndex == k;
      assert rows[id := r][b].stepIndex == k;
    }
  }

  lemma RewriteCompensationKeeps(i: Instance, id: int, r: Row)
    requires Inv(i) && id in i.comps
    requires r.stepIndex == i.comps[id].stepIndex
    requires CompensationOk(PlanOf(i), Outputs(i.history), |Undone(i.history)|, r)
    requires Active(r) ==> Active(i.comps[id])
    requires Active(r) || IsTerminal(i.exec.state)
    ensures Inv(i.(comps := i.comps[id := r]))
  {
    hide Outputs, Undone, Endings, RolledBack, Ordered, CompensationOk, TasksOk;
    ReportedCompensationOk(PlanOf(i), Outputs(i.history), |Undone(i.history)|, i.comps, i.nextId, id, r);
    TerminalByName(i.exec.state);
    var n := i.(comps := i.comps[id := r]);
    assert TablesOk(n);
    assert RecordOk(n);
    assert PhaseOk(n);
  }

  lemma FollowsItself(i: Instance)
    ensures Follows(i, i)
  {
  }

  lemma ReportedRowOk(p: Plan, outs: seq<TaskOutput>, r: Row, result: Bytes, err: string)
    requires TaskOk(p, outs, r)
    ensures TaskOk(p, outs, ReportRow(r, result, err))
  {
  }

  lemma LateReportKeeps(i: Instance, id: int, result: Bytes, err: string)
    requires Inv(i) && id in i.tasks && IsTerminal(i.exec.state)
    ensures Inv(Marked(i, id, result, err)) && Follows(i, Marked(i, id, result, err))
  {
    assert TaskOk(PlanOf(i), Outputs(i.history), i.tasks[id]);
    hide Inv, Outputs, TaskOk;
    ReportedRowOk(PlanOf(i), Outputs(i.history), i.tasks[id], result, err);
    RewriteTaskKeeps(i, id, ReportRow(i.tasks[id], result, err));
  }

  lemma LiveStates(i: Instance)
    requires Inv(i) && !IsTerminal(i.exec.state)
    ensures i.exec.state == Running || i.exec.state == Compensating
    ensures i.exec.state == Compensating ==> i.tasks == map[]
    ensures i.exec.state == Running ==> i.comps == map[]
  {
    hide TablesOk, RecordOk, Outputs, Undone;
  }

  /** A report on a known task id always commits, and every outcome keeps the invariant. */
  lemma ReportKeeps(i: Instance, id: int, result: Bytes, err: string)
    requires Inv(i)
    ensures CompleteTaskTx(i, id, result, err).Commit? <==> id in i.tasks
    ensures Inv(Settle(i, CompleteTaskTx(i, id, result, err)))
    ensures Follows(i, Settle(i, CompleteTaskTx(i, id, result, err)))
  {
    hide Inv, Follows, RetryTask, FailSaga, FailExecution, CompleteIndependent, AdvanceChain;
    FollowsItself(i);
    if id in i.tasks {
      var j := Marked(i, id, result, err);
      if IsTerminal(i.exec.state) {
        LateReportKeeps(i, id, result, err);
      } else {
        LiveStates(i);
        if err != "" && j.tasks[id].attempt < j.tasks[id].maxAttempts {
          var n := RetryKeeps(i, id, result, err);
        } else if err != "" && i.exec.workflowType == Saga {
          var n := FailSagaKeeps(i, id, result, err);
        } else if err != "" {
          var n := FailExecutionKeeps(i, id, result, err);
        } else if i.exec.workflowType == Independent {
          var n := CompleteIndependentKeeps(i, id, result);
        } else {
          var n := AdvanceChainKeeps(i, id, result);
        }
      }
    }
  }

  lemma LateCompensationReportKeeps(i: Instance, id: int, result: Bytes, err: string)
    requires Inv(i) && id in i.comps && IsTerminal(i.exec.state)
    ensures Inv(MarkedCompensation(i, id, result, err)) && Follows(i, MarkedCompensation(i, id, result, err))
  {
    OneCompensation(i, id);
    hide Inv, Outputs, Undone;
    RewriteCompensationKeeps(i, id, ReportRow(i.comps[id], result, err));
  }

  lemma ReportCompensationKeeps(i: Instance, id: int, result: Bytes, err: string)
    requires Inv(i)
    ensures CompleteCompensationTx(i, id, result, err).Commit? <==> id in i.comps
    ensures Inv(Settle(i, CompleteCompensationTx(i, id, result, err)))
    ensures Follows(i, Settle(i, CompleteCompensationTx(i, id, result, err)))
  {
    hide Inv, Follows, RetryCompensation, FailRollback, AdvanceRollback;
    FollowsItself(i);
    if id in i.comps {
      var j := MarkedCompensation(i, id, result, err);
      if IsTerminal(i.exec.state) {
        LateCompensationReportKeeps(i, id, result, err);
      } else {
        LiveStates(i);
        if err != "" && j.comps[id].attempt < j.comps[id].maxAttempts {
          var n := RetryCompensationKeeps(i, id, result, err);
        } else if err != "" {
          var n := FailRollbackKeeps(i, id, result, err);
        } else {
          var n := AdvanceRollbackKeeps(i, id, result);
        }
      }
    }
  }

  // ---------------------------------------------------------------- the rows of an execution

  lemma RowsAreDistinct(i: Instance)
    requires Inv(i)
    ensures DistinctRows(i.tasks) && DistinctRows(i.comps)
    ensures forall id :: (id in i.tasks ==> id < i.nextId) && (id in i.comps ==> id < i.nextId)
  {
    hide Outputs, Undone, PhaseOk, RecordOk, TaskOk, CompensationOk;
  }

  /** Which rows an execution has that is not over. */
  lemma RowsWhileLive(i: Instance)
    requires Inv(i)
    ensures i.exec.state == Running ==> i.comps == map[] && !NoRows(i.tasks) && AllActive(i.tasks)
    ensures i.exec.state == Compensating ==> i.tasks == map[] && !NoRows(i.comps) && AllActive(i.comps)
    ensures i.exec.state == Compensating ==> i.exec.workflowType == Saga
  {
    hide Outputs, Undone, TablesOk, RecordOk;
  }

  // ---------------------------------------------------------------- the other steps

  lemma RelockedTaskOk(p: Plan, outs: seq<TaskOutput>, r: Row, until: int, attempt: nat)
    requires TaskOk(p, outs, r)
    ensures TaskOk(p, outs, r.(state := Running, lockedUntil := Some(until), attempt := attempt))
  {
  }

  lemma RelockedTaskKeeps(i: Instance, id: int, until: int, attempt: nat)
    requires Inv(i) && id in i.tasks && Active(i.tasks[id])
    ensures var r := i.tasks[id].(state := Running, lockedUntil := Some(until), attempt := attempt);
            var n := i.(tasks := i.tasks[id := r]);
            Inv(n) && Follows(i, n)
  {
    var r, p, outs := i.tasks[id], PlanOf(i), Outputs(i.history);
    assert TaskOk(p, outs, r);
    hide Inv, TaskOk, Outputs;
    RelockedTaskOk(p, outs, r, until, attempt);
    RewriteTaskKeeps(i, id, r.(state := Running, lockedUntil := Some(until), attempt := attempt));
  }

  lemma TaskAttempts(i: Instance, id: int)
    requires Inv(i) && id in i.tasks
    ensures i.tasks[id].attempt >= 0
  {
    assert TaskOk(PlanOf(i), Outputs(i.history), i.tasks[id]);
    hide Outputs, PhaseOk, RecordOk;
  }

  lemma PollKeeps(i: Instance, id: int)
    requires Inv(i)
    ensures Inv(PollTask(i, id)) && Follows(i, PollTask(i, id))
  {
    hide Inv, Follows;
    FollowsItself(i);
    if id in i.tasks && Eligible(i.tasks[id], i.now) {
      TaskAttempts(i, id);
      RelockedTaskKeeps(i, id, i.now + i.tasks[id].timeoutSeconds, i.tasks[id].attempt + 1);
    }
  }

  lemma HeartbeatKeeps(i: Instance, id: int)
    requires Inv(i)
    ensures Inv(HeartbeatTask(i, id)) && Follows(i, HeartbeatTask(i, id))
  {
    hide Inv, Follows;
    FollowsItself(i);
    if id in i.tasks && i.tasks[id].state == Running {
      TaskAttempts(i, id);
      RelockedTaskKeeps(i, id, i.now + i.tasks[id].timeoutSeconds, i.tasks[id].attempt);
    }
  }

  lemma RelockedOk(p: Plan, outs: seq<TaskOutput>, undone: nat, r: Row, until: int, attempt: nat)
    requires CompensationOk(p, outs, undone, r)
    ensures CompensationOk(p, outs, undone, r.(state := Running, lockedUntil := Some(until), attempt := attempt))
  {
    hide CompensationSteps;
  }

  lemma CompensationAttempts(p: Plan, outs: seq<TaskOutput>, undone: nat, r: Row)
    requires CompensationOk(p, outs, undone, r)
    ensures r.attempt >= 0
  {
  }

  lemma PollCompensationKeeps(i: Instance, id: int)
    requires Inv(i)
    ensures Inv(PollCompensationTask(i, id)) && Inv(HeartbeatCompensationTask(i, id))
    ensures Follows(i, PollCompensationTask(i, id)) && Follows(i, HeartbeatCompensationTask(i, id))
  {
    hide Outputs, Undone, Endings, RolledBack, Ordered, CompensationOk, RecordOk;
    if id in i.comps {
      var r := i.comps[id];
      OneCompensation(i, id);
      var p, outs, undone := PlanOf(i), Outputs(i.history), |Undone(i.history)|;
      assert r.attempt >= 0 by { CompensationAttempts(p, outs, undone, r); }
      RelockedOk(p, outs, undone, r, i.now + CompensationLease(r), r.attempt + 1);
      RelockedOk(p, outs, undone, r, i.now + 300, r.attempt);
      if Eligible(r, i.now) {
        RewriteCompensationKeeps(i, id, LockRow(r, i.now, CompensationLease(r)));
      }
      if r.state == Running {
        RewriteCompensationKeeps(i, id, RenewRow(r, i.now, 300));
      }
    }
  }

  lemma LostReportKeeps(i: Instance, id: int, result: Bytes)
    requires Inv(i)
    ensures Inv(LoseReport(i, id, result)) && Follows(i, LoseReport(i, id, result))
  {
    hide Inv, Outputs, Undone, Endings, RolledBack, Ordered, TasksOk, CompensationsOk, OutputsOk, UndoneOk,
      WellFormed, Partition;
    FollowsItself(i);
    if id in i.tasks && !IsTerminal(i.exec.state) && i.exec.workflowType != Independent {
      LiveStates(i);
      WhileRunning(i);
      assert i.tasks[id].stepIndex == |Outputs(i.history)| + 1 by { OneTask(i, id); }
      var n := LoseReport(i, id, result);
      assert RunningOk(n);
      InvFromParts(n);
    }
  }

  /** The rows of both tables after CancelByExecution. */
  lemma CancelledTablesOk(i: Instance, n: Instance)
    requires Inv(i) && PlanOf(n) == PlanOf(i) && Outputs(n.history) == Outputs(i.history)
    requires Undone(n.history) == Undone(i.history) && n.nextId == i.nextId
    requires n.tasks == CancelRows(i.tasks) && n.comps == CancelRows(i.comps)
    ensures TablesOk(n) && NoneActive(n.tasks) && NoneActive(n.comps)
    ensures forall id :: (id in n.tasks <==> id in i.tasks) && (id in n.comps <==> id in i.comps)
  {
    assert TablesOk(i);
    hide Inv, Outputs, Undone, PlanOf, CancelRows, TaskOk, CompensationOk, DistinctRows;
    CancelKeepsTasks(PlanOf(i), Outputs(i.history), i.tasks, i.nextId);
    CancelKeepsCompensations(PlanOf(i), Outputs(i.history), |Undone(i.history)|, i.comps, i.nextId);
  }

  lemma NoEndingYet(i: Instance)
    requires Inv(i) && !IsTerminal(i.exec.state)
    ensures Endings(i.history) == [] && i.sweep == Idle && !RolledBack(i.history)
    ensures WellFormed(i.steps) && i.exec.totalSteps == |i.steps| && i.exec.result == None
    ensures Ordered(i.history, i.nextEvent) && 0 <= i.nextEvent
  {
    hide Outputs, Undone, Endings, RolledBack, Ordered, TablesOk;
    TerminalByName(i.exec.state);
  }

  lemma CancelEffect(i: Instance) returns (n: Instance)
    requires Ordered(i.history, i.nextEvent) && 0 <= i.nextEvent && !IsTerminal(i.exec.state)
    ensures Settle(i, CancelTx(i)) == n
    ensures n.exec == i.exec.(state := Cancelled) && n.tasks == CancelRows(i.tasks) && n.comps == CancelRows(i.comps)
    ensures n.sweep == i.sweep && n.nextId == i.nextId
    ensures Extends(i, n, Outputs(i.history), Undone(i.history), Endings(i.history) + [WorkflowCancelled])
    ensures RolledBack(n.history) <==> RolledBack(i.history)
    ensures n.history != [] && n.history[|n.history| - 1].kind == WorkflowCancelled
  {
    hide Outputs, Undone, Endings, RolledBack, Ordered, Grew, Log, CancelRows;
    var k := i.(exec := i.exec.(state := Cancelled), tasks := CancelRows(i.tasks), comps := CancelRows(i.comps));
    n := Logged(k, WorkflowCancelled, 0, "", Empty, "");
  }

  lemma CancelledRecordOk(i: Instance, n: Instance)
    requires Inv(i) && !IsTerminal(i.exec.state) && n.exec == i.exec.(state := Cancelled) && n.sweep == i.sweep
    requires Extends(i, n, Outputs(i.history), Undone(i.history), Endings(i.history) + [WorkflowCancelled])
    requires RolledBack(n.history) <==> RolledBack(i.history)
    requires 0 <= i.nextEvent
    ensures RecordOk(n)
  {
    hide Inv, Outputs, Undone, Endings, RolledBack, Ordered, TablesOk, OutputsOk, UndoneOk;
    NoEndingYet(i);
    RecordHolds(i);
  }

  lemma CancelTooLate(i: Instance)
    requires IsTerminal(i.exec.state)
    ensures Settle(i, CancelTx(i)) == i
  {
  }

  lemma CancelKeeps(i: Instance)
    requires Inv(i)
    ensures Inv(Settle(i, CancelTx(i))) && Follows(i, Settle(i, CancelTx(i)))
  {
    hide Inv, Outputs, Undone, Endings, RolledBack, Ordered, CancelTx, Settle, CancelRows, TablesOk, RecordOk,
      WellFormed, NoneActive;
    FollowsItself(i);
    if IsTerminal(i.exec.state) {
      CancelTooLate(i);
    } else {
      LiveStates(i);
      NoEndingYet(i);
      var n := CancelEffect(i);
      CancelledTablesOk(i, n);
      CancelledRecordOk(i, n);
      assert ClosedOk(n);
      InvFromParts(n);
    }
  }

  lemma RecordHolds(i: Instance)
    requires Inv(i)
    ensures RecordOk(i)
  {
  }

  lemma FlipKeeps(i: Instance)
    requires Inv(i)
    ensures Inv(Flip(i)) && Follows(i, Flip(i))
  {
    hide Outputs, Undone, Endings, RolledBack, Ordered;
    TerminalByName(i.exec.state);
  }

  lemma SweepRowsKeeps(i: Instance)
    requires Inv(i) && (i.sweep == Flipped || i.sweep == TasksCancelled)
    ensures Inv(SweepOn(i)) && Follows(i, SweepOn(i))
  {
    hide Outputs, Undone, Endings, RolledBack, Ordered, CancelRows, TasksOk, CompensationsOk, OutputsOk, UndoneOk;
    TerminalByName(i.exec.state);
    CancelKeepsTasks(PlanOf(i), Outputs(i.history), i.tasks, i.nextId);
    CancelKeepsCompensations(PlanOf(i), Outputs(i.history), |Undone(i.history)|, i.comps, i.nextId);
  }

  lemma WhileSweeping(i: Instance)
    requires Inv(i) && (i.sweep == CompensationsCancelled || i.sweep == TimeoutLogged)
    ensures i.exec.state == Failed && Endings(i.history) == [] && !RolledBack(i.history)
    ensures NoneActive(i.tasks) && NoneActive(i.comps) && (NoRows(i.tasks) || NoRows(i.comps))
    ensures TablesOk(i) && RecordOk(i) && Ordered(i.history, i.nextEvent) && 0 <= i.nextEvent
    ensures WellFormed(i.steps) && i.exec.totalSteps == |i.steps| && i.exec.result == None
  {
    hide Outputs, Undone, Endings, RolledBack, Ordered, TablesOk;
    TerminalByName(i.exec.state);
  }

  lemma SweepLogKeeps(i: Instance)
    requires Inv(i) && (i.sweep == CompensationsCancelled || i.sweep == TimeoutLogged)
    ensures Inv(SweepOn(i)) && Follows(i, SweepOn(i))
  {
    hide Inv, Outputs, Undone, Endings, RolledBack, Ordered, Log, TasksOk, CompensationsOk, OutputsOk, UndoneOk,
      WellFormed, NoneActive, NoRows;
    WhileSweeping(i);
    if i.sweep == CompensationsCancelled {
      var n := Logged(i, WorkflowTimedOut, 0, "", Empty, TIMED_OUT);
      InvFromParts(n.(sweep := TimeoutLogged));
    } else {
      var n := Logged(i, WorkflowFailed, 0, "", Empty, TIMED_OUT);
      assert ClosedOk(n.(sweep := Idle));
      InvFromParts(n.(sweep := Idle));
    }
  }

  lemma SweepKeeps(i: Instance)
    requires Inv(i)
    ensures Inv(SweepOn(i)) && Follows(i, SweepOn(i))
  {
    hide Inv;
    match i.sweep
    case Idle =>
    case Flipped => SweepRowsKeeps(i);
    case TasksCancelled => SweepRowsKeeps(i);
    case _ => SweepLogKeeps(i);
  }

  /** A RUNNING execution always has an active task, so recovery creates nothing. In a CHAIN or
      SAGA that task is the only one, it is for step max(1, current_step), and from step 2 on its
      input is what the checkpoint of the step before holds, even if reports were lost meanwhile. */
  lemma RecoveryFindsNothing(i: Instance)
    requires Inv(i)
    ensures Recover(i) == i && Follows(i, i)
    ensures i.exec.state == Running ==> HasActiveTasks(i)
    ensures i.exec.state == Running && i.exec.workflowType != Independent ==>
              exists id :: Only(i.tasks, id) && Active(i.tasks[id])
                && (var k := i.tasks[id].stepIndex;
                    && k == (if i.exec.currentStep == 0 then 1 else i.exec.currentStep)
                    && (k == 1 ==> i.tasks[id].input == i.exec.input)
                    && (k > 1 ==> k - 1 in i.checkpoints && i.checkpoints[k - 1] == i.tasks[id].input))
  {
    hide Outputs, Undone, Endings, RolledBack, Ordered;
    if i.exec.state == Running {
      var id :| id in i.tasks;
      assert Active(i.tasks[id]);
      if i.exec.workflowType != Independent {
        OneTask(i, id);
        assert TaskOk(PlanOf(i), Outputs(i.history), i.tasks[id]);
      }
    }
  }

  /** What a heartbeat on a leased row of either table does: it moves the end of the lease, and nothing
      else. */
  lemma HeartbeatRenews(i: Instance, id: int)
    ensures id in i.tasks && i.tasks[id].state == Running ==>
              && RenewRow(i.tasks[id], i.now, i.tasks[id].timeoutSeconds)
                 == i.tasks[id].(lockedUntil := Some(i.now + i.tasks[id].timeoutSeconds))
              && Next(i, Heartbeat(id)) == HeartbeatTask(i, id)
              && HeartbeatTask(i, id)
                 == i.(tasks := i.tasks[id := i.tasks[id].(lockedUntil := Some(i.now + i.tasks[id].timeoutSeconds))])
    ensures id in i.comps && i.comps[id].state == Running ==>
              && RenewRow(i.comps[id], i.now, 300) == i.comps[id].(lockedUntil := Some(i.now + 300))
              && Next(i, HeartbeatCompensation(id)) == HeartbeatCompensationTask(i, id)
              && HeartbeatCompensationTask(i, id)
                 == i.(comps := i.comps[id := i.comps[id].(lockedUntil := Some(i.now + 300))])
  {
  }

  /** What recovery does to an execution that the invariant excludes, RUNNING without an active task: it
      creates a task for the step after the cursor, from the checkpoint at the cursor or else from the
      input of the execution, with three attempts and no timeout. */
  lemma RecoveryWould(i: Instance)
    requires WellFormed(i.steps) && 0 <= i.exec.currentStep < |i.steps|
    requires StepFree(i.tasks, i.exec.currentStep + 1)
    ensures i.exec.state != Running || HasActiveTasks(i) ==> Recover(i) == i
    ensures i.exec.state == Running && !HasActiveTasks(i) ==>
              var k, step := i.exec.currentStep, i.steps[i.exec.currentStep];
              Recover(i) == i.(nextId := i.nextId + 1, tasks := i.tasks[i.nextId :=
                Row(k + 1, step.stepName, "", if step.taskQueue == "" then i.exec.taskQueue else step.taskQueue,
                    if k in i.checkpoints then i.checkpoints[k] else i.exec.input,
                    [], Created, "", 0, 3, 0, i.now, None)])
  {
    StepAtFindsEveryIndex(i.steps, i.exec.currentStep + 1);
    hide StepAt;
  }

  lemma NextKeeps(i: Instance, a: Action)
    requires Inv(i)
    ensures Inv(Next(i, a)) && Follows(i, Next(i, a))
  {
    hide Inv, Follows, CompleteTaskTx, CompleteCompensationTx, CancelTx, PollTask, PollCompensationTask,
      HeartbeatTask, HeartbeatCompensationTask, LoseReport, Flip, SweepOn, Recover, Settle;
    match a
    case Poll(id) => PollKeeps(i, id);
    case PollCompensation(id) => PollCompensationKeeps(i, id);
    case Heartbeat(id) => HeartbeatKeeps(i, id);
    case HeartbeatCompensation(id) => PollCompensationKeeps(i, id);
    case Report(id, result, err) => ReportKeeps(i, id, result, err);
    case ReportCompensation(id, result, err) => ReportCompensationKeeps(i, id, result, err);
    case LostReport(id, result) => LostReportKeeps(i, id, result);
    case Cancel => CancelKeeps(i);
    case ExpireOverdue => FlipKeeps(i);
    case SweepStep => SweepKeeps(i);
    case RecoverAtStartup => RecoveryFindsNothing(i);
    case Elsewhere(time, ids, events) => ElsewhereKeeps(i, time, ids, events);
  }

  lemma ElsewhereKeeps(i: Instance, time: nat, ids: nat, events: nat)
    requires Inv(i)
    ensures var n := i.(now := i.now + time, nextId := i.nextId + ids, nextEvent := i.nextEvent + events);
            Inv(n) && Follows(i, n)
  {
    hide Outputs, Undone, Endings, RolledBack;
  }

  lemma {:induction false} RunKeeps(i: Instance, acts: seq<Action>)
    requires Inv(i)
    ensures Inv(Run(i, acts))
  {
    hide Inv, Next;
    if acts != [] {
      RunKeeps(i, acts[..|acts| - 1]);
      NextKeeps(Run(i, acts[..|acts| - 1]), acts[|acts| - 1]);
    }
  }

  lemma OneMore(i: Instance, acts: seq<Action>, a: Action)
    ensures Run(i, acts + [a]) == Next(Run(i, acts), a)
  {
    assert (acts + [a])[..|acts|] == acts;
    hide Next;
  }

  lemma {:induction false} IdsGrow(i: Instance, acts: seq<Action>)
    requires Inv(i)
    ensures i.nextId <= Run(i, acts).nextId && i.now <= Run(i, acts).now
  {
    hide Inv, Next;
    if acts != [] {
      IdsGrow(i, acts[..|acts| - 1]);
      RunKeeps(i, acts[..|acts| - 1]);
      NextKeeps(Run(i, acts[..|acts| - 1]), acts[|acts| - 1]);
    }
  }

  // ---------------------------------------------------------------- failed commits

  lemma CheckpointsOfRetry(i: Instance, id: int)
    requires id in i.tasks
    ensures SettleFailed(i, RetryTask(i, id)) == i && SettleFailed(i, FailExecution(i, id)) == i
    ensures SettleFailed(i, CompleteIndependent(i, id)) == i
  {
    hide Append, Outputs, Undone, Endings, RolledBack, Ordered, StepOutputs;
  }

  lemma ScheduleKeepsCheckpoints(i: Instance, step: StepDef, input: Bytes)
    ensures match ScheduleCompensation(i, step, input)
            case None => true
            case Some(n) => n.checkpoints == i.checkpoints
  {
    hide Append, Outputs, Undone, Endings, RolledBack, Ordered;
  }

  lemma EndKeepsCheckpoints(i: Instance, message: string)
    ensures match EndRollback(i, message)
            case None => true
            case Some(n) => n.checkpoints == i.checkpoints
  {
    hide Append, Outputs, Undone, Endings, RolledBack, Ordered;
  }

  lemma CheckpointsOfStart(i: Instance, failedAt: int)
    ensures match StartCompensation(i, failedAt)
            case Started(n, _, _) => n.checkpoints == i.checkpoints
            case Refused(n) => n.checkpoints == i.checkpoints
            case Broken(n) => n.checkpoints == i.checkpoints
  {
    hide Append, Outputs, Undone, Endings, RolledBack, Ordered, StepOutputs, OutputByStep, WithOutput,
      CompensationSteps;
    hide ScheduleCompensation, EndRollback;
    if CanMove(i.exec.state, Compensating) && !IsTerminal(i.exec.state) {
      var k := Log(i.(exec := i.exec.(state := Compensating)), CompensationStarted, 0, "", Empty, "");
      var outputs := OutputByStep(StepOutputs(k.history));
      var active := WithOutput(CompensationSteps(k.steps, failedAt - 1), outputs);
      var l := k.(exec := k.exec.(compensationTotal := |active|));
      EndKeepsCheckpoints(l, NOTHING_TO_UNDO);
      if active != [] {
        var input := if active[0].stepIndex in outputs then outputs[active[0].stepIndex] else [];
        ScheduleKeepsCheckpoints(l, active[0], input);
      }
    }
  }

  lemma CheckpointsOfFailSaga(i: Instance, id: int)
    requires id in i.tasks
    ensures SettleFailed(i, FailSaga(i, id)) == i
  {
    hide Append, Outputs, Undone, Endings, RolledBack, Ordered, StartCompensation;
    var t := i.tasks[id];
    CheckpointsOfStart(Log(i, StepFailed, t.stepIndex, t.stepName, Empty, t.error), t.stepIndex);
  }

  lemma CheckpointsOfChain(i: Instance, id: int)
    requires id in i.tasks
    ensures SettleFailed(i, AdvanceChain(i, id))
            == i.(checkpoints := i.checkpoints[i.tasks[id].stepIndex := i.tasks[id].output])
  {
    hide Append, Outputs, Undone, Endings, RolledBack, Ordered, StepAt;
  }

  /** A report whose commit fails is a lost one: nothing of it stays but the checkpoint of a success. */
  lemma FailedCommitIsALostReport(i: Instance, id: int, result: Bytes, err: string)
    ensures SettleFailed(i, CompleteTaskTx(i, id, result, err)) == if err == "" then LoseReport(i, id, result) else i
  {
    hide RetryTask, FailSaga, FailExecution, CompleteIndependent, AdvanceChain;
    if id in i.tasks && !IsTerminal(i.exec.state) {
      var j := i.(tasks := i.tasks[id := ReportRow(i.tasks[id], result, err)]);
      CheckpointsOfRetry(j, id);
      CheckpointsOfFailSaga(j, id);
      CheckpointsOfChain(j, id);
    }
  }

  lemma FailedCommitOfCompensation(i: Instance, id: int, result: Bytes, err: string)
    ensures SettleFailed(i, CompleteCompensationTx(i, id, result, err)) == i
  {
    hide Append, Outputs, Undone, Endings, RolledBack, Ordered, StepOutputs, OutputByStep, FirstWithOutput,
      CompensationSteps;
  }
}
