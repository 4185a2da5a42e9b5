/** The use cases, statement by statement (usecase/task.go, saga.go, execution.go, service.go). Each
    transaction leaves the execution it is about as the corresponding function of Instances says,
    and every other execution as it was. */
module Interactors {
  import opened StateMachine
  import opened Domain
  import opened Rows
  import opened Definitions
  import opened History
  import opened Instances
  import opened Invariants
  import opened Runs
  import opened Starting
  import opened Storage
  import opened Fleet
  import opened Notifications
  import opened Verdicts

  // ---------------------------------------------------------------- loops over query results

  /** The loop that fills outputByStep. */
  method IndexOutputs(outs: seq<TaskOutput>) returns (outputByStep: map<int, Bytes>)
    ensures outputByStep == OutputByStep(outs)
  {
    outputByStep := map[];
    var k := 0;
    while k < |outs|
      invariant 0 <= k <= |outs| && outputByStep == OutputByStep(outs[..k])
    {
      assert outs[..k + 1][..k] == outs[..k];
      outputByStep := outputByStep[outs[k].stepIndex := outs[k].output];
      k := k + 1;
    }
    assert outs[..k] == outs;
  }

  /** The loop that fills activeCompSteps. */
  method SelectActive(steps: seq<StepDef>, outputByStep: map<int, Bytes>) returns (active: seq<StepDef>)
    ensures active == WithOutput(steps, outputByStep)
  {
    active := [];
    var k := 0;
    while k < |steps|
      invariant 0 <= k <= |steps| && active == WithOutput(steps[..k], outputByStep)
    {
      assert steps[..k + 1][..k] == steps[..k];
      if steps[k].stepIndex in outputByStep {
        active := active + [steps[k]];
      }
      k := k + 1;
    }
    assert steps[..k] == steps;
  }

  /** The loop that looks for nextComp and breaks at the first match. */
  method FindNext(steps: seq<StepDef>, outputByStep: map<int, Bytes>) returns (next: Option<StepDef>)
    ensures next == FirstWithOutput(steps, outputByStep)
  {
    var k := 0;
    while k < |steps|
      invariant 0 <= k <= |steps|
      invariant FirstWithOutput(steps, outputByStep) == FirstWithOutput(steps[k..], outputByStep)
    {
      if steps[k].stepIndex in outputByStep { return Some(steps[k]); }
      k := k + 1;
    }
    return None;
  }

  // ---------------------------------------------------------------- what a transaction amounts to

  function Notices(queue: string): seq<string> {
    if queue == "" then [] else [queue]
  }

  /** The closure given to RunInTx returns: it did what the transaction function says, up to the
      point where it failed, if it failed. */
  ghost predicate Did(tx: Tx, after: Instance, error: Option<Error>, notify: string) {
    match tx
    case Commit(n, queue, _, _) => error == None && after == n && notify == queue
    case Rollback(dirty, e) => error == Some(e) && after.checkpoints == dirty.checkpoints
  }

  function ErrorOf(tx: Tx): Option<Error> {
    if tx.Commit? then None else Some(tx.error)
  }

  function Early(tx: Tx): seq<string> {
    if tx.Commit? then Notices(tx.early) else []
  }

  function Notified(tx: Tx): seq<string> {
    if tx.Commit? then Notices(tx.early) + Notices(tx.notify) else []
  }

  function Drained(tx: Tx, e: int): seq<int> {
    if tx.Commit? && tx.drained then [e] else []
  }

  /** What StartWorkflow creates for a definition. */
  function NewExecutionOf(def: Workflow, queue: string, input: Bytes, timeout: int, now: int): Execution {
    NewExecution(def.kind, |def.steps|, queue, input, timeout, now)
  }

  /** The report ends the rollback without success. */
  predicate RollbackGivenUp(i: Instance, id: int, err: string) {
    id in i.comps && !IsTerminal(i.exec.state) && err != "" && i.comps[id].attempt >= i.comps[id].maxAttempts
  }

  /** What CompleteTask tells the broker and the signal store: for each task that the report adds, its
      queue is notified; nobody is notified of anything else; and the signals of the execution are
      dropped exactly if the report ends it. */
  lemma ReportIsAnnounced(i: Instance, e: int, id: int, result: Bytes, err: string)
    requires Inv(i) && id in i.tasks
    ensures var tx := CompleteTaskTx(i, id, result, err);
            && tx.Commit?
            && (forall t :: t in tx.next.tasks && t !in i.tasks && tx.next.tasks[t].taskQueue != "" ==>
                  tx.next.tasks[t].taskQueue in Notified(tx))
            && (forall c :: c in tx.next.comps && c !in i.comps && tx.next.comps[c].taskQueue != "" ==>
                  tx.next.comps[c].taskQueue in Notified(tx))
            && (Drained(tx, e) == if Live(i) && !Live(tx.next) then [e] else [])
  {
    hide Inv, CompleteTaskTx;
    ReportKeeps(i, id, result, err);
    ReportTells(i, id, result, err);
    LiveIsNotTerminal(i);
    LiveIsNotTerminal(CompleteTaskTx(i, id, result, err).next);
  }

  lemma CompensationReportIsAnnounced(i: Instance, e: int, id: int, result: Bytes, err: string)
    requires Inv(i) && id in i.comps
    ensures var tx := CompleteCompensationTx(i, id, result, err);
            && tx.Commit?
            && (forall c :: c in tx.next.comps && c !in i.comps && tx.next.comps[c].taskQueue != "" ==>
                  tx.next.comps[c].taskQueue in Notified(tx))
            && (Drained(tx, e) == if Live(i) && !Live(tx.next) then [e] else [])
  {
    hide Inv, CompleteCompensationTx;
    ReportCompensationKeeps(i, id, result, err);
    ReportCompensationTells(i, id, result, err);
    LiveIsNotTerminal(i);
    LiveIsNotTerminal(CompleteCompensationTx(i, id, result, err).next);
  }

  /** CompleteCompensationTask reports failure of the rollback exactly if this very report made the
      rollback fail. */
  lemma GivenUpExactlyWhen(i: Instance, id: int, result: Bytes, err: string)
    requires Inv(i) && id in i.comps
    ensures RollbackGivenUp(i, id, err)
            <==> OutcomeOf(i, PlanOf(i).deadline, ReportCompensation(id, result, err)) == UndoFailed
  {
    hide Inv, LastHandler;
    LiveIsNotTerminal(i);
  }

  datatype Launch = Launched | RefusedLaunch | BrokenLaunch

  /** notified and drained record the calls of TaskBroker.Notify and SignalStore.Drain. */
  class Interactor {
    const storage: Database
    var notified: seq<string>
    var drained: seq<int>

    /** What the use cases rely on and keep. */
    ghost predicate Valid()
      reads storage
    {
      AllOk(storage.db)
    }

    constructor (s: Database)
      requires AllOk(s.db)
      ensures Valid() && storage == s && notified == [] && drained == []
    {
      storage, notified, drained := s, [], [];
    }

    ghost function View(e: int): Instance
      requires e in storage.db.executions
      reads storage
    {
      ViewOf(storage.db, e)
    }

    // ------------------------------------------------------------ task reports

    method RetryTask(e: int, id: int, t: Row) returns (error: Option<Error>, notify: string)
      requires storage.InTx(e) && id in storage.start.tasks && storage.start.tasks[id].executionId == e
      requires id in View(e).tasks && t == View(e).tasks[id]
      modifies storage`db
      ensures var tx := Instances.RetryTask(old(View(e)), id);
              storage.InTx(e) && Did(tx, View(e), error, notify) && Early(tx) == [] && Drained(tx, e) == []
    {
      hide ViewOf, Log, Only, InsertTask, DropTask;
      var now := storage.db.now;
      storage.AppendHistory(e, StepRetrying, t.stepIndex, t.stepName, Empty, t.error);
      storage.DeleteTask(e, id);
      var ok := storage.CreateTask(e, RetryRow(t, now));
      if !ok { return Some(Conflict), ""; }
      return None, t.taskQueue;
    }

    /** The move to FAILED and the two events that end a rollback. */
    method EndRollback(e: int, message: string) returns (ok: bool)
      requires storage.InTx(e)
      modifies storage`db
      ensures storage.InTx(e) && ok == Instances.EndRollback(old(View(e)), message).Some?
      ensures if ok then Some(View(e)) == Instances.EndRollback(old(View(e)), message) else View(e) == old(View(e))
    {
      hide ViewOf, Only, Append, Outputs, Undone, Endings, RolledBack, Ordered;
      ok := storage.UpdateState(e, Failed);
      if ok {
        storage.AppendHistory(e, SagaRolledBack, 0, "", Empty, "");
        storage.AppendHistory(e, WorkflowFailed, 0, "", Empty, message);
      }
    }

    /** The next compensation task and its event. */
    method ScheduleCompensation(e: int, step: StepDef, input: Bytes) returns (ok: bool)
      requires storage.InTx(e)
      modifies storage`db
      ensures storage.InTx(e) && ok == Instances.ScheduleCompensation(old(View(e)), step, input).Some?
      ensures if ok then Some(View(e)) == Instances.ScheduleCompensation(old(View(e)), step, input)
              else View(e) == old(View(e))
      ensures View(e).exec == old(View(e)).exec
    {
      hide ViewOf, Only, Append, Outputs, Undone, Endings, RolledBack, Ordered;
      var exec := storage.GetExecution(e);
      ok := storage.CreateCompensation(e, BuildCompensation(step, input, exec.value.taskQueue, storage.db.now));
      if ok {
        storage.AppendHistory(e, StepScheduled, step.stepIndex, step.stepName, Empty, "");
      }
    }

    /** startCompensation: the loops over the query results, the first compensation task, and the
        notification before the commit. */
    method StartCompensation(e: int, failedAt: int) returns (launch: Launch)
      requires storage.InTx(e)
      modifies this, storage`db
      ensures storage.InTx(e)
      ensures match Instances.StartCompensation(old(View(e)), failedAt)
              case Started(n, early, dry) =>
                launch == Launched && View(e) == n && notified == old(notified) + Notices(early)
                && drained == old(drained) + if dry then [e] else []
              case Refused(dirty) =>
                launch == RefusedLaunch && View(e) == dirty && notified == old(notified) && drained == old(drained)
              case Broken(dirty) =>
                launch == BrokenLaunch && View(e) == dirty && notified == old(notified) && drained == old(drained)
    {
      hide ViewOf, Only, Append, Outputs, Undone, Endings, RolledBack, Ordered;
      hide Instances.EndRollback, Instances.ScheduleCompensation, StepOutputs, CompensationSteps, OutputByStep,
        WithOutput;
      var exec := storage.GetExecution(e);
      if !CanMove(exec.value.state, Compensating) { return RefusedLaunch; }
      var ok := storage.UpdateState(e, Compensating);
      if !ok { return RefusedLaunch; }
      storage.AppendHistory(e, CompensationStarted, 0, "", Empty, "");
      var stepsToCompensate := storage.GetCompensationSteps(e, failedAt - 1);
      var stepOutputs := storage.GetStepOutputs(e);
      var outputByStep := IndexOutputs(stepOutputs);
      var activeCompSteps := SelectActive(stepsToCompensate, outputByStep);
      storage.SetCompensationTotal(e, |activeCompSteps|);
      if |activeCompSteps| == 0 {
        ok := EndRollback(e, NOTHING_TO_UNDO);
        if !ok { return RefusedLaunch; }
        drained := drained + [e];
        return Launched;
      }
      var first := activeCompSteps[0];
      var input := if first.stepIndex in outputByStep then outputByStep[first.stepIndex] else [];
      ok := ScheduleCompensation(e, first, input);
      if !ok { return BrokenLaunch; }
      notified := notified + Notices(QueueFor(first, exec.value.taskQueue));
      return Launched;
    }

    method FailSaga(e: int, id: int, t: Row) returns (error: Option<Error>, notify: string)
      requires storage.InTx(e) && id in storage.start.tasks && storage.start.tasks[id].executionId == e
      requires id in View(e).tasks && t == View(e).tasks[id]
      modifies this, storage`db
      ensures var tx := Instances.FailSaga(old(View(e)), id);
              && storage.InTx(e) && Did(tx, View(e), error, notify)
              && notified == old(notified) + Early(tx) && drained == old(drained) + Drained(tx, e)
    {
      hide ViewOf, Only, Log, TrySetState, Instances.SaveError, Instances.StartCompensation, DropTask;
      storage.AppendHistory(e, StepFailed, t.stepIndex, t.stepName, Empty, t.error);
      var launch := StartCompensation(e, t.stepIndex);
      if launch == BrokenLaunch { return Some(Conflict), ""; }
      if launch == RefusedLaunch {
        storage.SaveError(e, START_FAILED);
        var _ := storage.UpdateState(e, Failed);
        storage.AppendHistory(e, WorkflowFailed, 0, "", Empty, START_FAILED);
        drained := drained + [e];
      }
      storage.DeleteTask(e, id);
      return None, "";
    }

    method FailExecution(e: int, id: int, t: Row) returns (error: Option<Error>, notify: string)
      requires storage.InTx(e) && id in storage.start.tasks && storage.start.tasks[id].executionId == e
      requires id in View(e).tasks && t == View(e).tasks[id]
      modifies this, storage`db
      ensures var tx := Instances.FailExecution(old(View(e)), id);
              && storage.InTx(e) && Did(tx, View(e), error, notify)
              && notified == old(notified) + Early(tx) && drained == old(drained) + Drained(tx, e)
    {
      hide ViewOf, Only, Append, Outputs, Undone, Endings, RolledBack, Ordered, CancelRows, DropTask;
      var exec := storage.GetExecution(e);
      if !CanMove(exec.value.state, Failed) { return Some(InvalidTransition), ""; }
      storage.SaveError(e, t.error);
      var ok := storage.UpdateState(e, Failed);
      if !ok { return Some(Conflict), ""; }
      storage.CancelTasks(e);
      storage.AppendHistory(e, StepFailed, t.stepIndex, t.stepName, Empty, t.error);
      storage.AppendHistory(e, WorkflowFailed, 0, "", Empty, t.error);
      storage.DeleteTask(e, id);
      drained := drained + [e];
      return None, "";
    }

    /** UPDATE to COMPLETED, the result and the last event. */
    method Finish(e: int, payload: Payload) returns (ok: bool)
      requires storage.InTx(e)
      modifies storage`db
      ensures storage.InTx(e) && ok == Instances.Finish(old(View(e)), payload).Some?
      ensures if ok then Some(View(e)) == Instances.Finish(old(View(e)), payload) else View(e) == old(View(e))
    {
      hide ViewOf, Only, Append, Outputs, Undone, Endings, RolledBack, Ordered;
      var exec := storage.GetExecution(e);
      if !CanMove(exec.value.state, Completed) { return false; }
      ok := storage.UpdateState(e, Completed);
      if ok {
        storage.SaveResult(e, payload);
        storage.AppendHistory(e, WorkflowCompleted, 0, "", payload, "");
      }
    }

    method CompleteIndependent(e: int, id: int, t: Row) returns (error: Option<Error>, notify: string)
      requires storage.InTx(e) && id in storage.start.tasks && storage.start.tasks[id].executionId == e
      requires id in View(e).tasks && t == View(e).tasks[id]
      modifies this, storage`db
      ensures var tx := Instances.CompleteIndependent(old(View(e)), id);
              && storage.InTx(e) && Did(tx, View(e), error, notify)
              && notified == old(notified) + Early(tx) && drained == old(drained) + Drained(tx, e)
    {
      hide ViewOf, Only, Append, Outputs, Undone, Endings, RolledBack, Ordered, Instances.Finish, StepOutputs,
        DropTask;
      var exec := storage.GetExecution(e);
      storage.AppendHistory(e, StepCompleted, t.stepIndex, t.stepName, Raw(t.output), "");
      var newCount := storage.IncrementCompletedSteps(e);
      if newCount == exec.value.totalSteps {
        var outputs := storage.GetStepOutputs(e);
        var ok := Finish(e, Combined(outputs));
        if !ok { return Some(InvalidTransition), ""; }
        drained := drained + [e];
      }
      storage.DeleteTask(e, id);
      return None, "";
    }

    method AdvanceChain(e: int, id: int, t: Row) returns (error: Option<Error>, notify: string)
      requires storage.InTx(e) && id in storage.start.tasks && storage.start.tasks[id].executionId == e
      requires id in View(e).tasks && t == View(e).tasks[id]
      requires !IsTerminal(View(e).exec.state)
      modifies this, storage`db
      ensures var tx := Instances.AdvanceChain(old(View(e)), id);
              && storage.InTx(e) && Did(tx, View(e), error, notify)
              && notified == old(notified) + Early(tx) && drained == old(drained) + Drained(tx, e)
    {
      hide ViewOf, Only, Append, Outputs, Undone, Endings, RolledBack, Ordered, Instances.Finish, StepAt, DropTask;
      var exec := storage.GetExecution(e);
      storage.SaveCheckpoint(e, t.stepIndex, t.output);
      storage.AppendHistory(e, StepCompleted, t.stepIndex, t.stepName, Raw(t.output), "");
      var nextIndex := t.stepIndex + 1;
      if nextIndex > exec.value.totalSteps {
        var ok := Finish(e, Raw(t.output));
        if !ok { return Some(InvalidTransition), ""; }
        storage.DeleteTask(e, id);
        drained := drained + [e];
        return None, "";
      }
      var step := storage.GetByDefinitionAndIndex(e, nextIndex);
      if step.None? { return Some(NotFound), ""; }
      var row := BuildTask(step.value, t.output, exec.value.taskQueue, storage.db.now).(stepIndex := nextIndex);
      var ok := storage.CreateTask(e, row);
      if !ok { return Some(Conflict), ""; }
      storage.UpdateStepCursor(e, nextIndex);
      storage.AppendHistory(e, StepScheduled, nextIndex, step.value.stepName, Empty, "");
      storage.DeleteTask(e, id);
      return None, QueueFor(step.value, exec.value.taskQueue);
    }

    /** The closure of CompleteTask. */
    method SettleTask(id: int, result: Bytes, err: string) returns (error: Option<Error>, notify: string)
      requires storage.Valid() && storage.start == storage.db
      requires forall e :: e in storage.db.executions ==> storage.InTx(e)
      modifies this, storage`db
      ensures id !in old(storage.db).tasks ==>
                error == Some(NotFound) && storage.db == old(storage.db) && notified == old(notified)
                && drained == old(drained)
      ensures id in old(storage.db).tasks ==> (
        var e := old(storage.db).tasks[id].executionId;
        && storage.InTx(e)
        && var tx := CompleteTaskTx(ViewOf(old(storage.db), e), id, result, err);
        && Did(tx, View(e), error, notify)
        && notified == old(notified) + Early(tx) && drained == old(drained) + Drained(tx, e))
    {
      assert id in storage.db.tasks ==> storage.InTx(storage.db.tasks[id].executionId);
      hide ViewOf, Sound, SameOwners, Append, Outputs, Undone, Endings, RolledBack, Ordered;
      hide Instances.RetryTask, Instances.FailSaga, Instances.FailExecution, Instances.CompleteIndependent,
        Instances.AdvanceChain;
      storage.UpdateTaskCompleted(id, result, err);
      var t := storage.GetTask(id);
      if t.None? { return Some(NotFound), ""; }
      var e := t.value.executionId;
      var exec := storage.GetExecution(e);
      if IsTerminal(exec.value.state) { return None, ""; }
      if err != "" {
        if t.value.row.attempt < t.value.row.maxAttempts {
          error, notify := RetryTask(e, id, t.value.row);
        } else if exec.value.workflowType == Saga {
          error, notify := FailSaga(e, id, t.value.row);
        } else {
          error, notify := FailExecution(e, id, t.value.row);
        }
      } else if exec.value.workflowType == Independent {
        error, notify := CompleteIndependent(e, id, t.value.row);
      } else {
        error, notify := AdvanceChain(e, id, t.value.row);
      }
    }

    /** RunInTx around the closure: a rollback on an error or if the commit fails, the notification
        after the commit. What the closure told the broker and the signal store is not undone. */
    method CompleteTaskInTx(id: int, result: Bytes, err: string, commits: bool) returns (error: Option<Error>)
      requires storage.Valid()
      modifies this, storage
      ensures storage.Valid()
      ensures id !in old(storage.db).tasks ==>
                error == Some(NotFound) && storage.db == old(storage.db) && notified == old(notified)
                && drained == old(drained)
      ensures id in old(storage.db).tasks ==> (
        var e := old(storage.db).tasks[id].executionId;
        && Only(old(storage.db), storage.db, e) && e in storage.db.executions
        && var tx := CompleteTaskTx(ViewOf(old(storage.db), e), id, result, err);
        && View(e) == (if commits then Settle(ViewOf(old(storage.db), e), tx)
                       else SettleFailed(ViewOf(old(storage.db), e), tx))
        && error == (if tx.Commit? && !commits then Some(CommitFailed) else ErrorOf(tx))
        && notified == old(notified) + (if commits then Notified(tx) else Early(tx))
        && drained == old(drained) + Drained(tx, e))
    {
      hide ViewOf, CompleteTaskTx;
      storage.Begin();
      ghost var e := if id in storage.db.tasks then storage.db.tasks[id].executionId else 0;
      var saved := storage.db;
      var notify;
      error, notify := SettleTask(id, result, err);
      if error.Some? || !commits {
        if id in saved.tasks { RolledBackViews(saved, storage.db, e); }
        storage.Rollback(saved);
        return if error.Some? then error else Some(CommitFailed);
      }
      notified := notified + Notices(notify);
    }

    /** CompleteTask for a known task leaves its execution as the transaction function and Settle say,
        or SettleFailed if the commit fails, and touches no other; for an unknown task it does nothing. */
    method CompleteTask(id: int, result: Bytes, err: string, commits: bool) returns (error: Option<Error>)
      requires Valid()
      modifies this, storage
      ensures Valid() && Evolves(old(storage.db), storage.db)
      ensures error.None? <==> commits && id in old(storage.db).tasks
      ensures id !in old(storage.db).tasks ==>
                error == Some(NotFound) && storage.db == old(storage.db) && notified == old(notified)
                && drained == old(drained)
      ensures id in old(storage.db).tasks ==> (
        var e := old(storage.db).tasks[id].executionId;
        && Only(old(storage.db), storage.db, e) && e in storage.db.executions
        && var tx := CompleteTaskTx(ViewOf(old(storage.db), e), id, result, err);
        && View(e) == (if commits then Settle(ViewOf(old(storage.db), e), tx)
                       else SettleFailed(ViewOf(old(storage.db), e), tx))
        && error == (if tx.Commit? && !commits then Some(CommitFailed) else ErrorOf(tx))
        && notified == old(notified) + (if commits then Notified(tx) else Early(tx))
        && drained == old(drained) + Drained(tx, e))
    {
      assert id in storage.db.tasks ==> id in ViewOf(storage.db, storage.db.tasks[id].executionId).tasks;
      hide ViewOf, Inv, AllOk, SameOwners, Sound, Settle, SettleFailed, WellFormed, Reaches, Evolves, CompleteTaskTx,
        RollbackGivenUp, Notified, Drained;
      ghost var before := storage.db;
      error := CompleteTaskInTx(id, result, err, commits);
      if id in before.tasks {
        ghost var e := before.tasks[id].executionId;
        ReportActs(before, storage.db, e, id, result, err, commits);
      } else {
        EvolvesNot(before);
      }
    }

    // ------------------------------------------------------------ compensation reports

    method RetryCompensation(e: int, id: int, t: Row) returns (error: Option<Error>, notify: string)
      requires storage.InTx(e) && id in storage.start.comps && storage.start.comps[id].executionId == e
      requires id in View(e).comps && t == View(e).comps[id]
      modifies storage`db
      ensures var tx := Instances.RetryCompensation(old(View(e)), id);
              storage.InTx(e) && Did(tx, View(e), error, notify) && Early(tx) == [] && Drained(tx, e) == []
    {
      hide ViewOf, Only, InsertCompensation, DropCompensation;
      var now := storage.db.now;
      storage.DeleteCompensation(e, id);
      var ok := storage.CreateCompensation(e, RetryRow(t, now));
      if !ok { return Some(Conflict), ""; }
      return None, t.taskQueue;
    }

    method FailRollback(e: int, id: int, t: Row) returns (error: Option<Error>, notify: string)
      requires storage.InTx(e) && id in storage.start.comps && storage.start.comps[id].executionId == e
      requires id in View(e).comps && t == View(e).comps[id]
      modifies this, storage`db
      ensures var tx := Instances.FailRollback(old(View(e)), id);
              && storage.InTx(e) && Did(tx, View(e), error, notify)
              && notified == old(notified) + Early(tx) && drained == old(drained) + Drained(tx, e)
    {
      hide ViewOf, Only, Log, TrySetState, Instances.SaveError, DropCompensation;
      var message := RollbackFailure(t.stepName, t.error);
      storage.AppendHistory(e, CompensationFailed, t.stepIndex, t.stepName, Empty, t.error);
      storage.AppendHistory(e, SagaRollbackFailed, 0, "", Empty, t.error);
      storage.AppendHistory(e, WorkflowFailed, 0, "", Empty, message);
      storage.SaveError(e, message);
      var _ := storage.UpdateState(e, Failed);
      storage.DeleteCompensation(e, id);
      drained := drained + [e];
      return None, "";
    }

    method AdvanceRollback(e: int, id: int, t: Row) returns (error: Option<Error>, notify: string)
      requires storage.InTx(e) && id in storage.start.comps && storage.start.comps[id].executionId == e
      requires id in View(e).comps && t == View(e).comps[id]
      modifies this, storage`db
      ensures var tx := Instances.AdvanceRollback(old(View(e)), id);
              && storage.InTx(e) && Did(tx, View(e), error, notify)
              && notified == old(notified) + Early(tx) && drained == old(drained) + Drained(tx, e)
    {
      hide ViewOf, Only, Append, Outputs, Undone, Endings, RolledBack, Ordered, Instances.EndRollback,
        Instances.ScheduleCompensation;
      hide StepOutputs, CompensationSteps, OutputByStep, FirstWithOutput, QueueFor;
      ghost var i := View(e);
      storage.AppendHistory(e, CompensationCompleted, t.stepIndex, t.stepName, Raw(t.output), "");
      var newDone := storage.IncrementCompensationDone(e);
      storage.DeleteCompensation(e, id);
      var freshExec := storage.GetExecution(e);
      ghost var j := Log(i, CompensationCompleted, t.stepIndex, t.stepName, Raw(t.output), "");
      ghost var k := DropCompensation(j.(exec := j.exec.(compensationDone := j.exec.compensationDone + 1)), id);
      assert View(e) == k && freshExec == Some(k.exec) && newDone == k.exec.compensationDone;
      hide Log, DropCompensation;
      if newDone >= freshExec.value.compensationTotal {
        var ok := EndRollback(e, ALL_UNDONE);
        if !ok { return Some(Conflict), ""; }
        drained := drained + [e];
        return None, "";
      }
      var stepsToCompensate := storage.GetCompensationSteps(e, t.stepIndex - 1);
      var stepOutputs := storage.GetStepOutputs(e);
      var outputByStep := IndexOutputs(stepOutputs);
      var nextComp := FindNext(stepsToCompensate, outputByStep);
      if nextComp.None? {
        var ok := EndRollback(e, ALL_UNDONE);
        if !ok { return Some(Conflict), ""; }
        drained := drained + [e];
        return None, "";
      }
      var step := nextComp.value;
      var input := if step.stepIndex in outputByStep then outputByStep[step.stepIndex] else [];
      var ok := ScheduleCompensation(e, step, input);
      if !ok { return Some(Conflict), ""; }
      return None, QueueFor(step, freshExec.value.taskQueue);
    }

    /** The closure of CompleteCompensationTask. */
    method SettleCompensation(id: int, result: Bytes, err: string)
      returns (error: Option<Error>, notify: string, success: bool)
      requires storage.Valid() && storage.start == storage.db
      requires forall e :: e in storage.db.executions ==> storage.InTx(e)
      modifies this, storage`db
      ensures id !in old(storage.db).comps ==>
                error == Some(NotFound) && storage.db == old(storage.db) && notified == old(notified)
                && drained == old(drained)
      ensures id in old(storage.db).comps ==> (
        var e := old(storage.db).comps[id].executionId;
        && storage.InTx(e)
        && var tx := CompleteCompensationTx(ViewOf(old(storage.db), e), id, result, err);
        && Did(tx, View(e), error, notify)
        && notified == old(notified) + Early(tx) && drained == old(drained) + Drained(tx, e)
        && success == !RollbackGivenUp(ViewOf(old(storage.db), e), id, err))
    {
      assert id in storage.db.comps ==> storage.InTx(storage.db.comps[id].executionId);
      hide ViewOf, Sound, SameOwners, Append, Outputs, Undone, Endings, RolledBack, Ordered;
      hide Instances.RetryCompensation, Instances.FailRollback, Instances.AdvanceRollback;
      success := true;
      storage.UpdateCompensationCompleted(id, result, err);
      var t := storage.GetCompensation(id);
      if t.None? { return Some(NotFound), "", success; }
      var e := t.value.executionId;
      var exec := storage.GetExecution(e);
      if IsTerminal(exec.value.state) { return None, "", success; }
      if err != "" {
        if t.value.row.attempt < t.value.row.maxAttempts {
          error, notify := RetryCompensation(e, id, t.value.row);
        } else {
          success := false;
          error, notify := FailRollback(e, id, t.value.row);
        }
      } else {
        error, notify := AdvanceRollback(e, id, t.value.row);
      }
    }

    /** RunInTx around the closure: a rollback on an error or if the commit fails, the notification
        after the commit. What the closure told the broker and the signal store is not undone. */
    method CompleteCompensationTaskInTx(id: int, result: Bytes, err: string, commits: bool)
      returns (success: bool, error: Option<Error>)
      requires storage.Valid()
      modifies this, storage
      ensures storage.Valid()
      ensures id !in old(storage.db).comps ==>
                !success && error == Some(NotFound)
                && storage.db == old(storage.db) && notified == old(notified) && drained == old(drained)
      ensures id in old(storage.db).comps ==> (
        var e := old(storage.db).comps[id].executionId;
        && Only(old(storage.db), storage.db, e) && e in storage.db.executions
        && var tx := CompleteCompensationTx(ViewOf(old(storage.db), e), id, result, err);
        && View(e) == (if commits then Settle(ViewOf(old(storage.db), e), tx)
                       else SettleFailed(ViewOf(old(storage.db), e), tx))
        && error == (if tx.Commit? && !commits then Some(CommitFailed) else ErrorOf(tx))
        && notified == old(notified) + (if commits then Notified(tx) else Early(tx))
        && drained == old(drained) + Drained(tx, e)
        && success == (tx.Commit? && commits && !RollbackGivenUp(ViewOf(old(storage.db), e), id, err)))
    {
      hide ViewOf, CompleteCompensationTx, RollbackGivenUp;
      storage.Begin();
      ghost var e := if id in storage.db.comps then storage.db.comps[id].executionId else 0;
      var saved := storage.db;
      var notify;
      error, notify, success := SettleCompensation(id, result, err);
      if error.Some? || !commits {
        if id in saved.comps { RolledBackViews(saved, storage.db, e); }
        storage.Rollback(saved);
        return false, if error.Some? then error else Some(CommitFailed);
      }
      notified := notified + Notices(notify);
    }

    /** The same for CompleteCompensationTask; success is false if the rollback was given up, or on an
        error. */
    method CompleteCompensationTask(id: int, result: Bytes, err: string, commits: bool)
      returns (success: bool, error: Option<Error>)
      requires Valid()
      modifies this, storage
      ensures Valid() && Evolves(old(storage.db), storage.db)
      ensures error.None? <==> commits && id in old(storage.db).comps
      ensures id !in old(storage.db).comps ==>
                !success && error == Some(NotFound)
                && storage.db == old(storage.db) && notified == old(notified) && drained == old(drained)
      ensures id in old(storage.db).comps ==> (
        var e := old(storage.db).comps[id].executionId;
        && Only(old(storage.db), storage.db, e) && e in storage.db.executions
        && var tx := CompleteCompensationTx(ViewOf(old(storage.db), e), id, result, err);
        && View(e) == (if commits then Settle(ViewOf(old(storage.db), e), tx)
                       else SettleFailed(ViewOf(old(storage.db), e), tx))
        && error == (if tx.Commit? && !commits then Some(CommitFailed) else ErrorOf(tx))
        && notified == old(notified) + (if commits then Notified(tx) else Early(tx))
        && drained == old(drained) + Drained(tx, e)
        && success == (tx.Commit? && commits && !RollbackGivenUp(ViewOf(old(storage.db), e), id, err)))
    {
      assert id in storage.db.comps ==> id in ViewOf(storage.db, storage.db.comps[id].executionId).comps;
      hide ViewOf, Inv, AllOk, SameOwners, Sound, Settle, SettleFailed, WellFormed, Reaches, Evolves,
        CompleteCompensationTx, RollbackGivenUp, Notified, Drained;
      ghost var before := storage.db;
      success, error := CompleteCompensationTaskInTx(id, result, err, commits);
      if id in before.comps {
        ghost var e := before.comps[id].executionId;
        ReportCompensationActs(before, storage.db, e, id, result, err, commits);
      } else {
        EvolvesNot(before);
      }
    }

    // ------------------------------------------------------------ starting and cancelling

    /** The loop over the steps of an INDEPENDENT workflow. */
    method CreateTasks(e: int, steps: seq<StepDef>, input: Bytes, queue: string) returns (ok: bool)
      requires storage.InTx(e) && steps == View(e).steps && input == View(e).exec.input
               && queue == View(e).exec.taskQueue
      modifies storage`db
      ensures storage.InTx(e) && ok == FanOut(old(View(e)), |steps|).Some?
      ensures ok ==> Some(View(e)) == FanOut(old(View(e)), |steps|)
    {
      hide ViewOf, Only, BuildTask, InsertTask;
      ghost var i := View(e);
      var now := storage.db.now;
      var k := 0;
      while k < |steps|
        invariant 0 <= k <= |steps| && storage.InTx(e)
        invariant FanOut(i, k) == Some(View(e))
      {
        var created := storage.CreateTask(e, BuildTask(steps[k], input, queue, now));
        if !created {
          FanOutStays(i, k + 1, |steps|);
          return false;
        }
        k := k + 1;
      }
      return true;
    }

    /** The closure of StartWorkflow, from the first event on. */
    method Launch(e: int, queue: string) returns (error: Option<Error>)
      requires storage.InTx(e) && queue == View(e).exec.taskQueue
      requires var i := View(e);
               i.tasks == map[] && i.comps == map[] && i.history == [] && i.checkpoints == map[] && i.sweep == Idle
      modifies storage`db
      ensures storage.InTx(e)
      ensures var i := old(View(e));
              match StartTx(i.steps, i.exec, i.now, i.nextId, i.nextEvent)
              case Commit(n, _, _, _) => error == None && View(e) == n
              case Rollback(_, why) => error == Some(why)
    {
      hide ViewOf, Only, Append, Outputs, Undone, Endings, RolledBack, Ordered, FanOut, InsertTask;
      ghost var i := View(e);
      assert i == Instance(i.steps, i.exec, map[], map[], [], map[], Idle, i.now, i.nextId, i.nextEvent);
      var exec := storage.GetExecution(e);
      storage.AppendHistory(e, WorkflowStarted, 0, "", Raw(exec.value.input), "");
      if !CanMove(exec.value.state, Running) { return Some(InvalidTransition); }
      var ok := storage.UpdateState(e, Running);
      if !ok { return Some(Conflict); }
      var steps := storage.GetSteps(e);
      if exec.value.workflowType == Independent {
        ok := CreateTasks(e, steps, exec.value.input, queue);
        return if ok then None else Some(Conflict);
      }
      if |steps| == 0 { return Some(Error.NoSteps); }
      ok := storage.CreateTask(e, BuildTask(steps[0], exec.value.input, queue, storage.db.now));
      return if ok then None else Some(Conflict);
    }

    /** Everything of StartWorkflow but the claim that it keeps the invariant. */
    method StartWorkflowInTx(definition: int, queue: string, input: Bytes, timeout: int)
      returns (started: Option<int>, error: Option<Error>)
      requires storage.Valid()
      modifies this, storage
      ensures storage.Valid() && drained == old(drained)
      ensures storage.db.definitions == old(storage.db).definitions && storage.db.now == old(storage.db).now
      ensures storage.db.nextId >= old(storage.db).nextId && storage.db.nextEvent >= old(storage.db).nextEvent
      ensures definition !in old(storage.db).definitions ==>
                started == None && error == Some(NotFound) && storage.db == old(storage.db) && notified == old(notified)
      ensures definition in old(storage.db).definitions ==> (
        var db := old(storage.db);
        var def := db.definitions[definition];
        var tx := StartTx(def.steps, NewExecutionOf(def, queue, input, timeout, db.now), db.now, db.nextId,
                          db.nextEvent);
        && error == ErrorOf(tx) && (started.Some? <==> tx.Commit?)
        && (forall o :: o in db.executions ==>
              o in storage.db.executions && ViewOf(storage.db, o) == At(ViewOf(db, o), storage.db))
        && (if tx.Commit?
            then started.value !in db.executions && storage.db.executions.Keys == db.executions.Keys + {started.value}
                 && View(started.value) == tx.next && notified == old(notified) + [queue]
            else storage.db.executions == db.executions && notified == old(notified)))
    {
      hide ViewOf, StartTx, Sound, SameOwners;
      if definition !in storage.db.definitions { return None, Some(NotFound); }
      var def := storage.db.definitions[definition];
      var exec := NewExecutionOf(def, queue, input, timeout, storage.db.now);
      var saved := storage.db;
      var e := storage.CreateExecution(definition, exec);
      ghost var mid := storage.db;
      storage.Begin();
      assert View(e).steps == def.steps;
      error := Launch(e, queue);
      if error.Some? {
        RolledBackStart(saved, mid, storage.db, e);
        storage.Rollback(saved);
        return None, error;
      }
      notified := notified + [queue];
      return Some(e), None;
    }

    /** StartWorkflow adds one execution, which looks as the request says, or, if the definition is not
        known, leaves everything as it was. */
    method StartWorkflow(definition: int, queue: string, input: Bytes, timeout: int)
      returns (started: Option<int>, error: Option<Error>)
      requires Valid()
      modifies this, storage
      ensures Valid() && Evolves(old(storage.db), storage.db) && drained == old(drained)
      ensures error.None? <==> definition in old(storage.db).definitions
      ensures definition !in old(storage.db).definitions ==>
                started == None && error == Some(NotFound) && storage.db == old(storage.db) && notified == old(notified)
      ensures definition in old(storage.db).definitions ==> (
        var db := old(storage.db);
        var def := db.definitions[definition];
        && started.Some? && started.value !in db.executions
        && storage.db.executions.Keys == db.executions.Keys + {started.value}
        && View(started.value)
           == Begin(Request(def.steps, def.kind, queue, input, timeout, db.now, db.nextId, db.nextEvent))
        && (forall o :: o in db.executions ==> ViewOf(storage.db, o) == At(ViewOf(db, o), storage.db))
        && notified == old(notified) + [queue])
    {
      hide ViewOf, Inv, SameOwners, WellFormed, StartTx, Evolves;
      ghost var before := storage.db;
      started, error := StartWorkflowInTx(definition, queue, input, timeout);
      if definition in before.definitions {
        ghost var def := before.definitions[definition];
        BeginKeeps(Request(def.steps, def.kind, queue, input, timeout, before.now, before.nextId, before.nextEvent));
        OneStarted(before, storage.db, started.value);
      } else {
        EvolvesNot(before);
      }
    }

    /** CancelWorkflow; an unknown execution is a conflict, like one that is over. */
    method CancelWorkflow(e: int) returns (error: Option<Error>)
      requires Valid()
      modifies this, storage
      ensures Valid() && Evolves(old(storage.db), storage.db) && notified == old(notified)
      ensures e !in old(storage.db).executions ==>
                error == Some(Conflict) && storage.db == old(storage.db) && drained == old(drained)
      ensures e in old(storage.db).executions ==> (
        var tx := CancelTx(ViewOf(old(storage.db), e));
        && Only(old(storage.db), storage.db, e) && e in storage.db.executions
        && View(e) == Settle(ViewOf(old(storage.db), e), tx) && error == ErrorOf(tx)
        && drained == old(drained) + Drained(tx, e)
        && (error == None <==> !IsTerminal(ViewOf(old(storage.db), e).exec.state))
        && (error == None ==>
              View(e).exec == ViewOf(old(storage.db), e).exec.(state := Cancelled) && drained == old(drained) + [e]))
    {
      hide ViewOf, Append, Outputs, Undone, Endings, RolledBack, Ordered, Sound, SameOwners, CancelRows;
      hide Inv, WellFormed, Evolves;
      EvolvesNot(storage.db);
      ghost var before := storage.db;
      if e !in storage.db.executions { return Some(Conflict); }
      storage.Begin();
      var ok := storage.UpdateState(e, Cancelled);
      if !ok {
        // Nothing was written, so there is nothing to roll back.
        OneActs(before, storage.db, e, Cancel);
        return Some(Conflict);
      }
      storage.CancelTasks(e);
      storage.CancelCompensations(e);
      storage.AppendHistory(e, WorkflowCancelled, 0, "", Empty, "");
      OneActs(before, storage.db, e, Cancel);
      drained := drained + [e];
      return None;
    }

    // ------------------------------------------------------------ polls and heartbeats

    /** The UPDATE of a poll or a heartbeat on one task row. */
    method WriteTask(id: int, r: Row, ghost act: Action)
      requires Valid() && id in storage.db.tasks
      requires var i := View(storage.db.tasks[id].executionId); Runs.Next(i, act) == i.(tasks := i.tasks[id := r])
      modifies storage
      ensures Valid() && Evolves(old(storage.db), storage.db)
      ensures var e := old(storage.db).tasks[id].executionId;
              && Only(old(storage.db), storage.db, e) && e in storage.db.executions
              && View(e) == ViewOf(old(storage.db), e).(tasks := ViewOf(old(storage.db), e).tasks[id := r])
              && id in View(e).tasks && View(e).tasks[id] == r
    {
      hide ViewOf, Inv, SameOwners, WellFormed, Evolves, Runs.Next;
      ghost var before := storage.db;
      storage.Begin();
      storage.SetTask(id, r);
      OneActs(before, storage.db, before.tasks[id].executionId, act);
    }

    method WriteCompensation(id: int, r: Row, ghost act: Action)
      requires Valid() && id in storage.db.comps
      requires var i := View(storage.db.comps[id].executionId); Runs.Next(i, act) == i.(comps := i.comps[id := r])
      modifies storage
      ensures Valid() && Evolves(old(storage.db), storage.db)
      ensures var e := old(storage.db).comps[id].executionId;
              && Only(old(storage.db), storage.db, e) && e in storage.db.executions
              && View(e) == ViewOf(old(storage.db), e).(comps := ViewOf(old(storage.db), e).comps[id := r])
              && id in View(e).comps && View(e).comps[id] == r
    {
      hide ViewOf, Inv, SameOwners, WellFormed, Evolves, Runs.Next;
      ghost var before := storage.db;
      storage.Begin();
      storage.SetCompensation(id, r);
      OneActs(before, storage.db, before.comps[id].executionId, act);
    }

    /** PollTask leases the earliest task of the queue that is ready, or the lease of which has run
        out, and returns nothing only if there is none. */
    method PollTask(queue: string) returns (task: Option<int>)
      requires Valid()
      modifies storage
      ensures Valid() && (task.Some? ==> Evolves(old(storage.db), storage.db))
      ensures task.None? ==> storage.db == old(storage.db) && forall id :: !TaskPending(storage.db, id, queue)
      ensures task.Some? ==> (
        var id, db := task.value, old(storage.db);
        && TaskPending(db, id, queue)
        && (forall other :: TaskPending(db, other, queue) ==>
              db.tasks[id].row.scheduledAt <= db.tasks[other].row.scheduledAt)
        && var e := db.tasks[id].executionId;
        && Only(db, storage.db, e) && e in storage.db.executions
        && View(e) == Runs.PollTask(ViewOf(db, e), id))
    {
      assert Sound(storage.db);
      hide ViewOf, Inv, SameOwners, WellFormed, Sound, Only, Evolves;
      task := storage.FirstPending(queue);
      if task.Some? {
        var r := storage.db.tasks[task.value].row;
        ghost var e := storage.db.tasks[task.value].executionId;
        TaskInView(storage.db, task.value);
        WriteTask(task.value, LockRow(r, storage.db.now, r.timeoutSeconds), Poll(task.value));
      }
    }

    method PollCompensationTask(queue: string) returns (task: Option<int>)
      requires Valid()
      modifies storage
      ensures Valid() && (task.Some? ==> Evolves(old(storage.db), storage.db))
      ensures task.None? ==> storage.db == old(storage.db) && forall id :: !CompensationPending(storage.db, id, queue)
      ensures task.Some? ==> (
        var id, db := task.value, old(storage.db);
        && CompensationPending(db, id, queue)
        && (forall other :: CompensationPending(db, other, queue) ==>
              db.comps[id].row.scheduledAt <= db.comps[other].row.scheduledAt)
        && var e := db.comps[id].executionId;
        && Only(db, storage.db, e) && e in storage.db.executions
        && View(e) == Runs.PollCompensationTask(ViewOf(db, e), id))
    {
      assert Sound(storage.db);
      hide ViewOf, Inv, SameOwners, WellFormed, Sound, Only, Evolves;
      task := storage.FirstPendingCompensation(queue);
      if task.Some? {
        var r := storage.db.comps[task.value].row;
        ghost var e := storage.db.comps[task.value].executionId;
        CompensationInView(storage.db, task.value);
        WriteCompensation(task.value, LockRow(r, storage.db.now, CompensationLease(r)), PollCompensation(task.value));
      }
    }

    /** RenewLock; false is ErrNotFound, for a task that is unknown or not RUNNING. */
    method HeartbeatTask(id: int) returns (ok: bool)
      requires Valid()
      modifies storage
      ensures Valid() && (ok ==> Evolves(old(storage.db), storage.db))
      ensures (ok <==> id in old(storage.db).tasks && old(storage.db).tasks[id].row.state == Running)
      ensures !ok ==> storage.db == old(storage.db)
      ensures ok ==> (
        var db := old(storage.db);
        var e := db.tasks[id].executionId;
        && Only(db, storage.db, e) && e in storage.db.executions
        && View(e) == Runs.HeartbeatTask(ViewOf(db, e), id))
    {
      assert Sound(storage.db);
      hide ViewOf, Inv, SameOwners, WellFormed, Sound, Only, Evolves, Runs.Next, Runs.HeartbeatTask, RenewRow;
      ok := id in storage.db.tasks && storage.db.tasks[id].row.state == Running;
      if ok {
        var r := storage.db.tasks[id].row;
        ghost var e := storage.db.tasks[id].executionId;
        TaskInView(storage.db, id);
        HeartbeatRenews(View(e), id);
        WriteTask(id, RenewRow(r, storage.db.now, r.timeoutSeconds), Heartbeat(id));
      }
    }

    method HeartbeatCompensationTask(id: int) returns (ok: bool)
      requires Valid()
      modifies storage
      ensures Valid() && (ok ==> Evolves(old(storage.db), storage.db))
      ensures (ok <==> id in old(storage.db).comps && old(storage.db).comps[id].row.state == Running)
      ensures !ok ==> storage.db == old(storage.db)
      ensures ok ==> (
        var db := old(storage.db);
        var e := db.comps[id].executionId;
        && Only(db, storage.db, e) && e in storage.db.executions
        && View(e) == Runs.HeartbeatCompensationTask(ViewOf(db, e), id))
    {
      assert Sound(storage.db);
      hide ViewOf, Inv, SameOwners, WellFormed, Sound, Only, Evolves, Runs.Next, Runs.HeartbeatCompensationTask,
        RenewRow;
      ok := id in storage.db.comps && storage.db.comps[id].row.state == Running;
      if ok {
        var r := storage.db.comps[id].row;
        ghost var e := storage.db.comps[id].executionId;
        CompensationInView(storage.db, id);
        HeartbeatRenews(View(e), id);
        WriteCompensation(id, RenewRow(r, storage.db.now, 300), HeartbeatCompensation(id));
      }
    }

    // ------------------------------------------------------------ expiry and recovery

    /** The body of the loop of ExpireOverdueWorkflows. */
    method SweepExecution(e: int)
      requires storage.Valid() && e in storage.db.executions && View(e).sweep == Flipped
      modifies this, storage
      ensures Only(old(storage.db), storage.db, e) && View(e) == Swept(old(View(e)))
      ensures drained == old(drained) + [e] && notified == old(notified)
    {
      hide ViewOf, Only, CancelRows, Append, Outputs, Undone, Endings, RolledBack, Ordered, Sound, SameOwners;
      ghost var before := storage.db;
      storage.Begin();
      storage.CancelTasks(e);
      storage.SetSweep(e, TasksCancelled);
      assert View(e) == SweepOn(ViewOf(before, e));
      storage.CancelCompensations(e);
      storage.SetSweep(e, CompensationsCancelled);
      assert View(e) == SweepOn(SweepOn(ViewOf(before, e)));
      storage.AppendHistory(e, WorkflowTimedOut, 0, "", Empty, TIMED_OUT);
      storage.SetSweep(e, TimeoutLogged);
      assert View(e) == SweepOn(SweepOn(SweepOn(ViewOf(before, e))));
      storage.AppendHistory(e, WorkflowFailed, 0, "", Empty, TIMED_OUT);
      storage.SetSweep(e, Idle);
      drained := drained + [e];
    }

    /** ExpireOverdueWorkflows run without interruption: exactly the executions past their deadline
        are closed, and the rest stay as they are. */
    method ExpireOverdueWorkflows() returns (expired: seq<int>)
      requires Valid()
      modifies this, storage
      ensures Valid() && Evolves(old(storage.db), storage.db) && notified == old(notified)
              && drained == old(drained) + expired
      ensures forall e :: e in expired <==> e in old(storage.db).executions && Overdue(ViewOf(old(storage.db), e))
      ensures forall e :: e in old(storage.db).executions ==>
                (e in expired <==> PastDeadline(old(storage.db).executions[e].exec, old(storage.db).now))
      ensures storage.db.executions.Keys == old(storage.db).executions.Keys
      ensures forall e :: e in old(storage.db).executions ==>
                if Overdue(ViewOf(old(storage.db), e))
                then SweptAtSomeTime(Flip(ViewOf(old(storage.db), e)), View(e), storage.db)
                else View(e) == At(ViewOf(old(storage.db), e), storage.db)
    {
      hide ViewOf, Inv, SameOwners, WellFormed, Sound, Only, Flip, Overdue, PastDeadline, Swept, SweptAtSomeTime,
        SweepDone, AllOk, Evolves;
      ghost var before := storage.db;
      assert storage.Valid() by { AllSound(before); }
      expired := storage.ExpireOverdue();
      ghost var flipped := storage.db;
      ExpiredRows(before, flipped);
      AllFlipped(before, flipped);
      SweepBegins(flipped);
      var k := 0;
      while k < |expired|
        invariant 0 <= k <= |expired| && AllOk(storage.db) && Evolves(before, storage.db)
        invariant notified == old(notified) && drained == old(drained) + expired[..k]
        invariant SweepDone(flipped, storage.db, expired[..k])
      {
        var e := expired[k];
        ghost var last := storage.db;
        assert e !in expired[..k];
        FlippedOnly(before, flipped, e, expired);
        NextToSweep(flipped, last, expired[..k], e);
        AllSound(last);
        SweptKeeps(View(e));
        SweepExecution(e);
        SweptOneOk(last, storage.db, e);
        EvolvesTwice(before, last, storage.db);
        SweepGoesOn(flipped, last, storage.db, expired[..k], e);
        assert expired[..k + 1] == expired[..k] + [e];
        k := k + 1;
      }
      assert expired[..k] == expired;
      SweepEnds(before, flipped, storage.db, expired);
    }

    /** The body of the loop of RecoverWorkflows. */
    method RecoverExecution(e: int)
      requires storage.Valid() && e in storage.db.executions
      modifies this, storage
      ensures Only(old(storage.db), storage.db, e) && View(e) == Recover(old(View(e))) && drained == old(drained)
      ensures View(e) == old(View(e)) ==> notified == old(notified)
    {
      hide ViewOf, Only, Instances.HasActiveTasks, StepAt, StepFree, Sound, SameOwners;
      storage.Begin();
      var exec := storage.GetExecution(e);
      if exec.value.state == Running {
        var hasTasks := storage.HasActiveTasks(e);
        if !hasTasks {
          var checkpoint := storage.GetLatest(e, exec.value.currentStep);
          var input := if checkpoint.Some? then checkpoint.value else exec.value.input;
          var nextIndex := exec.value.currentStep + 1;
          var step := storage.GetByDefinitionAndIndex(e, nextIndex);
          if step.None? { return; }
          var row := BuildTask(step.value, input, exec.value.taskQueue, storage.db.now)
                     .(stepIndex := nextIndex, maxAttempts := 3, timeoutSeconds := 0);
          var ok := storage.CreateTask(e, row);
          if !ok { return; }
          notified := notified + [QueueFor(step.value, exec.value.taskQueue)];
        }
      }
    }

    /** RecoverWorkflows at startup finds nothing to recover: each RUNNING execution still has a task. */
    method RecoverWorkflows()
      requires Valid()
      modifies this, storage
      ensures Valid() && Evolves(old(storage.db), storage.db) && notified == old(notified) && drained == old(drained)
      ensures storage.db.executions.Keys == old(storage.db).executions.Keys
      ensures forall e :: e in storage.db.executions ==> View(e) == ViewOf(old(storage.db), e)
    {
      hide ViewOf, Inv, SameOwners, WellFormed, Sound, Recover, Evolves;
      EvolvesNot(storage.db);
      var execs := storage.GetActiveExecutions();
      var k := 0;
      while k < |execs|
        invariant 0 <= k <= |execs| && Valid() && Evolves(old(storage.db), storage.db)
        invariant notified == old(notified) && drained == old(drained)
        invariant storage.db.executions.Keys == old(storage.db).executions.Keys
        invariant forall e :: e in storage.db.executions ==> View(e) == ViewOf(old(storage.db), e)
      {
        ghost var last := storage.db;
        RecoveryFindsNothing(View(execs[k]));
        RecoverExecution(execs[k]);
        OneActs(last, storage.db, execs[k], RecoverAtStartup);
        EvolvesTwice(old(storage.db), last, storage.db);
        assert last.nextId == ViewOf(last, execs[k]).nextId && last.nextEvent == ViewOf(last, execs[k]).nextEvent;
        assert forall o :: o in last.executions && o != execs[k] ==>
                 ViewOf(storage.db, o) == At(ViewOf(last, o), storage.db);
        k := k + 1;
      }
    }

    /** The clock of application and database, which no statement moves. */
    method Elapse(seconds: nat)
      requires Valid()
      modifies storage
      ensures Valid() && Evolves(old(storage.db), storage.db)
              && storage.db.executions.Keys == old(storage.db).executions.Keys
      ensures forall e :: e in storage.db.executions ==>
                View(e) == ViewOf(old(storage.db), e).(now := old(storage.db).now + seconds)
    {
      hide ViewOf, Inv, WellFormed, Sound, Evolves;
      TimePasses(storage.db, seconds);
      storage.Elapse(seconds);
    }
  }
}
