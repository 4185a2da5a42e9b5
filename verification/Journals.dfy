/** Which history events a transaction writes, event by event, and what it makes of the state and the
    error of the execution. */
module Journals {
  import opened StateMachine
  import opened Domain
  import opened Rows
  import opened Definitions
  import opened History
  import opened Instances
  import opened Invariants
  import opened Preservation
  import opened RollbackPreservation

  /** An event without its id. */
  datatype Entry = Entry(kind: EventType, step: int, stepName: string, payload: Payload, error: string)

  /** The entries as rows with consecutive ids. */
  function Stamped(next: int, entries: seq<Entry>): seq<Event> {
    seq(|entries|, k requires 0 <= k < |entries| =>
      Event(next + k, entries[k].kind, entries[k].step, entries[k].stepName, entries[k].payload, entries[k].error))
  }

  /** From i to n exactly these entries were written, in this order, and time stood still. */
  ghost predicate Logs(i: Instance, n: Instance, entries: seq<Entry>) {
    && n.history == i.history + Stamped(i.nextEvent, entries)
    && n.nextEvent == i.nextEvent + |entries|
    && n.now == i.now
  }

  lemma LogsNothing(i: Instance)
    ensures Logs(i, i, [])
  {
  }

  lemma LogsOne(i: Instance, e: Entry)
    ensures var n := Log(i, e.kind, e.step, e.stepName, e.payload, e.error);
            Logs(i, n, [e]) && n == i.(history := n.history, nextEvent := n.nextEvent)
  {
    hide Outputs, Undone, Endings, RolledBack, Ordered;
  }

  lemma LogsTwice(i: Instance, j: Instance, n: Instance, first: seq<Entry>, second: seq<Entry>)
    requires Logs(i, j, first) && Logs(j, n, second)
    ensures Logs(i, n, first + second)
  {
    assert Stamped(i.nextEvent, first) + Stamped(j.nextEvent, second) == Stamped(i.nextEvent, first + second);
  }

  lemma LogsTwo(i: Instance, e: Entry, f: Entry)
    ensures var j := Log(i, e.kind, e.step, e.stepName, e.payload, e.error);
            var n := Log(j, f.kind, f.step, f.stepName, f.payload, f.error);
            Logs(i, n, [e, f]) && n == i.(history := n.history, nextEvent := n.nextEvent)
  {
    var j := Log(i, e.kind, e.step, e.stepName, e.payload, e.error);
    LogsOne(i, e);
    LogsOne(j, f);
    hide Log, Logs;
    LogsTwice(i, j, Log(j, f.kind, f.step, f.stepName, f.payload, f.error), [e], [f]);
    assert [e] + [f] == [e, f];
  }

  // ---------------------------------------------------------------- the branches of CompleteTask

  function Of(row: Row, kind: EventType, payload: Payload, error: string): Entry {
    Entry(kind, row.stepIndex, row.stepName, payload, error)
  }

  function Note(kind: EventType, error: string): Entry {
    Entry(kind, 0, "", Empty, error)
  }

  function Scheduled(step: StepDef): Entry {
    Entry(StepScheduled, step.stepIndex, step.stepName, Empty, "")
  }

  lemma RetryLogs(i: Instance, id: int)
    requires id in i.tasks && RetryTask(i, id).Commit?
    ensures var t, n := i.tasks[id], RetryTask(i, id).next;
            Logs(i, n, [Of(t, StepRetrying, Empty, t.error)]) && n.exec == i.exec
  {
    var t := i.tasks[id];
    LogsOne(i, Of(t, StepRetrying, Empty, t.error));
    hide Log;
  }

  lemma FailExecutionLogs(i: Instance, id: int)
    requires id in i.tasks && FailExecution(i, id).Commit?
    ensures var t, n := i.tasks[id], FailExecution(i, id).next;
            && Logs(i, n, [Of(t, StepFailed, Empty, t.error), Note(WorkflowFailed, t.error)])
            && n.exec == i.exec.(state := Failed, error := t.error)
  {
    var t := i.tasks[id];
    var k := i.(exec := i.exec.(error := t.error, state := Failed), tasks := CancelRows(i.tasks));
    LogsTwo(k, Of(t, StepFailed, Empty, t.error), Note(WorkflowFailed, t.error));
    hide Log, CancelRows;
  }

  lemma FinishLogs(i: Instance, payload: Payload)
    requires Finish(i, payload).Some?
    ensures var n := Finish(i, payload).value;
            && Logs(i, n, [Entry(WorkflowCompleted, 0, "", payload, "")])
            && n.exec.state == Completed && n.exec.error == i.exec.error
  {
    LogsOne(SaveResult(i.(exec := i.exec.(state := Completed)), payload), Entry(WorkflowCompleted, 0, "", payload, ""));
    hide Log;
  }

  /** The last success of an INDEPENDENT execution is told by its counter. */
  lemma CompleteIndependentLogs(i: Instance, id: int)
    requires id in i.tasks && CompleteIndependent(i, id).Commit?
    ensures var t, n := i.tasks[id], CompleteIndependent(i, id).next;
            var done := Of(t, StepCompleted, Raw(t.output), "");
            && n.exec.error == i.exec.error
            && if i.exec.completedSteps + 1 == i.exec.totalSteps
               then n.exec.state == Completed
                    && Logs(i, n, [done, Entry(WorkflowCompleted, 0, "",
                                               Combined(StepOutputs(i.history + Stamped(i.nextEvent, [done]))), "")])
               else n.exec.state == i.exec.state && Logs(i, n, [done])
  {
    var t := i.tasks[id];
    var done := Of(t, StepCompleted, Raw(t.output), "");
    var j := Log(i, StepCompleted, t.stepIndex, t.stepName, Raw(t.output), "");
    LogsOne(i, done);
    hide Log, StepOutputs, Stamped;
    var k := j.(exec := j.exec.(completedSteps := j.exec.completedSteps + 1));
    assert Logs(i, k, [done]);
    if k.exec.completedSteps == k.exec.totalSteps {
      var payload := Combined(StepOutputs(k.history));
      var last := Entry(WorkflowCompleted, 0, "", payload, "");
      FinishLogs(k, payload);
      hide Finish;
      LogsTwice(i, k, Finish(k, payload).value, [done], [last]);
      assert [done] + [last] == [done, last];
    }
  }

  lemma LastStepLogs(i: Instance, id: int)
    requires id in i.tasks && AdvanceChain(i, id).Commit? && i.tasks[id].stepIndex + 1 > i.exec.totalSteps
    ensures var t, n := i.tasks[id], AdvanceChain(i, id).next;
            && n.exec.error == i.exec.error && n.exec.state == Completed
            && Logs(i, n, [Of(t, StepCompleted, Raw(t.output), ""), Entry(WorkflowCompleted, 0, "", Raw(t.output), "")])
  {
    var t := i.tasks[id];
    var done, last := Of(t, StepCompleted, Raw(t.output), ""), Entry(WorkflowCompleted, 0, "", Raw(t.output), "");
    var c := i.(checkpoints := i.checkpoints[t.stepIndex := t.output]);
    var j := Log(c, StepCompleted, t.stepIndex, t.stepName, Raw(t.output), "");
    LogsOne(c, done);
    assert Logs(i, j, [done]);
    FinishLogs(j, Raw(t.output));
    hide Log, StepAt, Finish, Logs;
    var l := Finish(j, Raw(t.output)).value;
    LogsTwice(i, j, l, [done], [last]);
    assert [done] + [last] == [done, last];
    LogsOnlyHistory(i, l, DropTask(l, id), [done, last]);
  }

  /** The state before STEP_SCHEDULED is written. */
  function Advanced(i: Instance, id: int, step: StepDef): Instance
    requires id in i.tasks
  {
    var t := i.tasks[id];
    var j := Log(i.(checkpoints := i.checkpoints[t.stepIndex := t.output]),
                 StepCompleted, t.stepIndex, t.stepName, Raw(t.output), "");
    var row := BuildTask(step, t.output, j.exec.taskQueue, j.now).(stepIndex := t.stepIndex + 1);
    j.(tasks := j.tasks[j.nextId := row], nextId := j.nextId + 1, exec := j.exec.(currentStep := t.stepIndex + 1))
  }

  lemma AdvanceIs(i: Instance, id: int, step: StepDef)
    requires id in i.tasks && AdvanceChain(i, id).Commit? && i.tasks[id].stepIndex + 1 <= i.exec.totalSteps
    requires StepAt(i.steps, i.tasks[id].stepIndex + 1) == Some(step)
    ensures AdvanceChain(i, id).next
            == DropTask(Log(Advanced(i, id, step), StepScheduled, i.tasks[id].stepIndex + 1, step.stepName, Empty, ""),
                        id)
  {
    hide Log, Logs, StepAt, BuildTask, StepFree, Finish;
    var t := i.tasks[id];
    LogsOne(i.(checkpoints := i.checkpoints[t.stepIndex := t.output]), Of(t, StepCompleted, Raw(t.output), ""));
  }

  lemma AdvancedLogs(i: Instance, id: int, step: StepDef)
    requires id in i.tasks
    ensures var t, l := i.tasks[id], Advanced(i, id, step);
            && Logs(i, l, [Of(t, StepCompleted, Raw(t.output), "")])
            && l.exec.error == i.exec.error && l.exec.state == i.exec.state
  {
    var t := i.tasks[id];
    LogsOne(i.(checkpoints := i.checkpoints[t.stepIndex := t.output]), Of(t, StepCompleted, Raw(t.output), ""));
    hide Log, BuildTask, Stamped;
  }

  lemma NextStepLogs(i: Instance, id: int, step: StepDef)
    requires id in i.tasks && AdvanceChain(i, id).Commit? && i.tasks[id].stepIndex + 1 <= i.exec.totalSteps
    requires StepAt(i.steps, i.tasks[id].stepIndex + 1) == Some(step)
    ensures var t, n := i.tasks[id], AdvanceChain(i, id).next;
            && n.exec.error == i.exec.error && n.exec.state == i.exec.state
            && Logs(i, n, [Of(t, StepCompleted, Raw(t.output), ""),
                           Entry(StepScheduled, t.stepIndex + 1, step.stepName, Empty, "")])
  {
    hide AdvanceChain, Advanced, Log, Logs, StepAt;
    var t, l := i.tasks[id], Advanced(i, id, step);
    var done, next := Of(t, StepCompleted, Raw(t.output), ""),
      Entry(StepScheduled, t.stepIndex + 1, step.stepName, Empty, "");
    AdvanceIs(i, id, step);
    AdvancedLogs(i, id, step);
    LogsOne(l, next);
    var m := Log(l, StepScheduled, t.stepIndex + 1, step.stepName, Empty, "");
    LogsTwice(i, l, m, [done], [next]);
    assert [done] + [next] == [done, next];
    LogsOnlyHistory(i, m, DropTask(m, id), [done, next]);
  }

  // ---------------------------------------------------------------- rollbacks

  lemma ScheduleLogs(i: Instance, step: StepDef, input: Bytes)
    requires ScheduleCompensation(i, step, input).Some?
    ensures var n := ScheduleCompensation(i, step, input).value; Logs(i, n, [Scheduled(step)]) && n.exec == i.exec
  {
    hide Log, Stamped, BuildCompensation, StepFree;
    var j := InsertCompensation(i, BuildCompensation(step, input, i.exec.taskQueue, i.now)).value;
    LogsOne(j, Scheduled(step));
  }

  lemma EndLogs(i: Instance, message: string)
    requires EndRollback(i, message).Some?
    ensures var n := EndRollback(i, message).value;
            && Logs(i, n, [Note(SagaRolledBack, ""), Note(WorkflowFailed, message)])
            && n.exec == i.exec.(state := Failed)
  {
    LogsTwo(i.(exec := i.exec.(state := Failed)), Note(SagaRolledBack, ""), Note(WorkflowFailed, message));
    hide Log;
  }

  /** A rollback opens with the steps e to undo. */
  lemma FailSagaLogs(i: Instance, id: int, result: Bytes, err: string, e: seq<StepDef>)
    requires Ordered(i.history, i.nextEvent) && 0 <= i.nextEvent
    requires id in i.tasks && i.exec.state == Running && i.comps == map[]
    requires e == WithOutput(CompensationSteps(i.steps, i.tasks[id].stepIndex - 1), Recorded(i))
    requires e != [] ==> e[0].stepIndex in Recorded(i)
    ensures var t, tx := i.tasks[id], FailSaga(Marked(i, id, result, err), id);
            var failed, started := Of(t, StepFailed, Empty, err), Note(CompensationStarted, "");
            && tx.Commit? && tx.next.exec.error == i.exec.error
            && if e == []
               then tx.next.exec.state == Failed
                    && Logs(i, tx.next,
                            [failed, started, Note(SagaRolledBack, ""), Note(WorkflowFailed, NOTHING_TO_UNDO)])
               else tx.next.exec.state == Compensating && Logs(i, tx.next, [failed, started, Scheduled(e[0])])
  {
    hide Outputs, Undone, Endings, RolledBack, Ordered, Grew, Log, CompensationSteps, WithOutput, SortByStep,
      OutputByStep, EndRollback, ScheduleCompensation;
    var m, t := Marked(i, id, result, err), i.tasks[id];
    var failed, started := Of(t, StepFailed, Empty, err), Note(CompensationStarted, "");
    var l := StartCompensationEffect(i, id, result, err, e);
    OpeningLogs(m, t.stepIndex, t.stepName, err);
    assert Logs(i, l, [failed, started]);
    TerminalByName(Compensating);
    hide Logs;
    if e == [] {
      var rolled, ended := Note(SagaRolledBack, ""), Note(WorkflowFailed, NOTHING_TO_UNDO);
      var n := EndRollbackEffect(l, NOTHING_TO_UNDO);
      EndLogs(l, NOTHING_TO_UNDO);
      LogsTwice(i, l, n, [failed, started], [rolled, ended]);
      assert [failed, started] + [rolled, ended] == [failed, started, rolled, ended];
      LogsOnlyHistory(i, n, DropTask(n, id), [failed, started, rolled, ended]);
    } else {
      var n := ScheduleCompensationEffect(l, e[0], Recorded(i)[e[0].stepIndex]);
      ScheduleLogs(l, e[0], Recorded(i)[e[0].stepIndex]);
      LogsTwice(i, l, n, [failed, started], [Scheduled(e[0])]);
      assert [failed, started] + [Scheduled(e[0])] == [failed, started, Scheduled(e[0])];
      LogsOnlyHistory(i, n, DropTask(n, id), [failed, started, Scheduled(e[0])]);
    }
  }

  lemma LogsOnlyHistory(i: Instance, n: Instance, m: Instance, entries: seq<Entry>)
    requires Logs(i, n, entries) && m.history == n.history && m.nextEvent == n.nextEvent && m.now == n.now
    ensures Logs(i, m, entries)
  {
  }

  lemma OpeningLogs(m: Instance, step: int, stepName: string, err: string)
    ensures var j := Log(m, StepFailed, step, stepName, Empty, err);
            var k := Log(j.(exec := j.exec.(state := Compensating)), CompensationStarted, 0, "", Empty, "");
            Logs(m, k, [Entry(StepFailed, step, stepName, Empty, err), Note(CompensationStarted, "")])
  {
    var j := Log(m, StepFailed, step, stepName, Empty, err);
    var c := j.(exec := j.exec.(state := Compensating));
    LogsOne(m, Entry(StepFailed, step, stepName, Empty, err));
    LogsOne(c, Note(CompensationStarted, ""));
    hide Log, Stamped;
    LogsTwice(m, c, Log(c, CompensationStarted, 0, "", Empty, ""), [Entry(StepFailed, step, stepName, Empty, err)],
              [Note(CompensationStarted, "")]);
    assert [Entry(StepFailed, step, stepName, Empty, err)] + [Note(CompensationStarted, "")]
           == [Entry(StepFailed, step, stepName, Empty, err), Note(CompensationStarted, "")];
  }

  /** A retried compensation leaves no trace in the history. */
  lemma RetryCompensationLogs(i: Instance, id: int)
    requires id in i.comps && RetryCompensation(i, id).Commit?
    ensures var n := RetryCompensation(i, id).next; Logs(i, n, []) && n.exec == i.exec
  {
  }

  lemma FailRollbackLogs(i: Instance, id: int)
    requires id in i.comps && i.exec.state == Compensating
    ensures var t, tx := i.comps[id], FailRollback(i, id);
            var message := RollbackFailure(t.stepName, t.error);
            && tx.Commit? && tx.next.exec == i.exec.(state := Failed, error := message)
            && Logs(i, tx.next, [Of(t, CompensationFailed, Empty, t.error), Note(SagaRollbackFailed, t.error),
                                 Note(WorkflowFailed, message)])
  {
    var t := i.comps[id];
    var message := RollbackFailure(t.stepName, t.error);
    var first, second, third := Of(t, CompensationFailed, Empty, t.error), Note(SagaRollbackFailed, t.error),
      Note(WorkflowFailed, message);
    var j := Log(Log(i, CompensationFailed, t.stepIndex, t.stepName, Empty, t.error),
                 SagaRollbackFailed, 0, "", Empty, t.error);
    LogsTwo(i, first, second);
    LogsOne(j, third);
    hide Log, Stamped;
    LogsTwice(i, j, Log(j, WorkflowFailed, 0, "", Empty, message), [first, second], [third]);
    assert [first, second] + [third] == [first, second, third];
  }

  /** The state after a compensation was counted. */
  function StepUndone(i: Instance, id: int): Instance
    requires id in i.comps
  {
    var t := i.comps[id];
    var j := Log(i, CompensationCompleted, t.stepIndex, t.stepName, Raw(t.output), "");
    DropCompensation(j.(exec := j.exec.(compensationDone := j.exec.compensationDone + 1)), id)
  }

  lemma UndoneLogs(i: Instance, id: int)
    requires id in i.comps
    ensures Logs(i, StepUndone(i, id), [Of(i.comps[id], CompensationCompleted, Raw(i.comps[id].output), "")])
    ensures StepUndone(i, id).exec == i.exec.(compensationDone := i.exec.compensationDone + 1)
    ensures StepUndone(i, id).steps == i.steps
  {
    LogsOne(i, Of(i.comps[id], CompensationCompleted, Raw(i.comps[id].output), ""));
    hide Log, Stamped;
  }

  lemma RollbackIsOver(i: Instance, id: int)
    requires id in i.comps && AdvanceRollback(i, id).Commit?
    requires i.exec.compensationDone + 1 >= i.exec.compensationTotal
    ensures EndRollback(StepUndone(i, id), ALL_UNDONE) == Some(AdvanceRollback(i, id).next)
  {
    hide Append, Outputs, Undone, Endings, RolledBack, Ordered, StepOutputs, CompensationSteps, OutputByStep,
      FirstWithOutput, EndRollback, ScheduleCompensation;
  }

  lemma RollbackGoesOn(i: Instance, id: int, step: StepDef)
    requires id in i.comps && AdvanceRollback(i, id).Commit?
    requires i.exec.compensationDone + 1 < i.exec.compensationTotal
    requires FirstWithOutput(CompensationSteps(i.steps, i.comps[id].stepIndex - 1), Recorded(StepUndone(i, id)))
             == Some(step)
    ensures var outputs := Recorded(StepUndone(i, id));
            var input := if step.stepIndex in outputs then outputs[step.stepIndex] else [];
            ScheduleCompensation(StepUndone(i, id), step, input)
            == Some(AdvanceRollback(i, id).next)
  {
    hide Append, Outputs, Undone, Endings, RolledBack, Ordered, StepOutputs, CompensationSteps, OutputByStep,
      FirstWithOutput, EndRollback, ScheduleCompensation;
  }

  /** The last step is undone, and so the rollback is over. */
  lemma AllUndoneLogs(i: Instance, id: int)
    requires id in i.comps && AdvanceRollback(i, id).Commit?
    requires i.exec.compensationDone + 1 >= i.exec.compensationTotal
    ensures var t, n := i.comps[id], AdvanceRollback(i, id).next;
            && n.exec.error == i.exec.error && n.exec.state == Failed
            && Logs(i, n, [Of(t, CompensationCompleted, Raw(t.output), ""), Note(SagaRolledBack, ""),
                           Note(WorkflowFailed, ALL_UNDONE)])
  {
    hide AdvanceRollback, StepUndone, EndRollback, Logs;
    var t, k := i.comps[id], StepUndone(i, id);
    var undone, rolled, failed := Of(t, CompensationCompleted, Raw(t.output), ""), Note(SagaRolledBack, ""),
      Note(WorkflowFailed, ALL_UNDONE);
    UndoneLogs(i, id);
    RollbackIsOver(i, id);
    EndLogs(k, ALL_UNDONE);
    LogsTwice(i, k, EndRollback(k, ALL_UNDONE).value, [undone], [rolled, failed]);
    assert [undone] + [rolled, failed] == [undone, rolled, failed];
  }

  /** A step is undone, and the next one found is scheduled. */
  lemma OneUndoneLogs(i: Instance, id: int, step: StepDef)
    requires id in i.comps && AdvanceRollback(i, id).Commit?
    requires i.exec.compensationDone + 1 < i.exec.compensationTotal
    requires FirstWithOutput(CompensationSteps(i.steps, i.comps[id].stepIndex - 1), Recorded(StepUndone(i, id)))
             == Some(step)
    ensures var t, n := i.comps[id], AdvanceRollback(i, id).next;
            && n.exec.error == i.exec.error && n.exec.state == i.exec.state
            && Logs(i, n, [Of(t, CompensationCompleted, Raw(t.output), ""), Scheduled(step)])
  {
    hide AdvanceRollback, StepUndone, ScheduleCompensation, Logs, FirstWithOutput, CompensationSteps, Recorded;
    var t, k, outputs := i.comps[id], StepUndone(i, id), Recorded(StepUndone(i, id));
    var done, input := Of(t, CompensationCompleted, Raw(t.output), ""),
      if step.stepIndex in outputs then outputs[step.stepIndex] else [];
    UndoneLogs(i, id);
    RollbackGoesOn(i, id, step);
    ScheduleLogs(k, step, input);
    LogsTwice(i, k, ScheduleCompensation(k, step, input).value, [done], [Scheduled(step)]);
    assert [done] + [Scheduled(step)] == [done, Scheduled(step)];
  }

  // ---------------------------------------------------------------- cancelling and expiry

  lemma CancelLogs(i: Instance)
    requires !IsTerminal(i.exec.state)
    ensures CancelTx(i).Commit? && Logs(i, CancelTx(i).next, [Note(WorkflowCancelled, "")])
    ensures CancelTx(i).next.exec == i.exec.(state := Cancelled)
  {
    var k := i.(exec := i.exec.(state := Cancelled), tasks := CancelRows(i.tasks), comps := CancelRows(i.comps));
    LogsOne(k, Note(WorkflowCancelled, ""));
    hide Log, CancelRows;
  }

  lemma SweepLogs(i: Instance)
    ensures Logs(i, SweepOn(i), match i.sweep
                                case CompensationsCancelled => [Note(WorkflowTimedOut, TIMED_OUT)]
                                case TimeoutLogged => [Note(WorkflowFailed, TIMED_OUT)]
                                case _ => [])
    ensures SweepOn(i).exec == i.exec
  {
    LogsNothing(i);
    LogsOne(i, Note(WorkflowTimedOut, TIMED_OUT));
    LogsOne(i, Note(WorkflowFailed, TIMED_OUT));
    hide Log, CancelRows, Stamped;
  }
}
