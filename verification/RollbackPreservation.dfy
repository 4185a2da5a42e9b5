/** The saga rollback keeps the invariant: its two tests for the end agree. */
module RollbackPreservation {
  import opened StateMachine
  import opened Domain
  import opened Rows
  import opened Definitions
  import opened History
  import opened Instances
  import opened Invariants
  import opened Preservation

  lemma {:induction false} AllHaveOutput(steps: seq<StepDef>, outputs: map<int, Bytes>)
    requires forall s :: s in steps ==> s.stepIndex in outputs
    ensures WithOutput(steps, outputs) == steps
  {
    if steps != [] {
      AllHaveOutput(steps[..|steps| - 1], outputs);
    }
  }

  lemma AllRecorded(steps: seq<StepDef>, outputs: map<int, Bytes>, n: nat)
    requires forall k :: k in outputs <==> 1 <= k <= n
    requires forall j :: 0 <= j < |steps| ==> 1 <= steps[j].stepIndex <= n
    ensures WithOutput(steps, outputs) == steps
  {
    AllHaveOutput(steps, outputs);
  }

  /** The outputs as a rollback looks them up. */
  function Recorded(i: Instance): map<int, Bytes> {
    OutputByStep(StepOutputs(i.history))
  }

  lemma RecordedInStepOrder(i: Instance)
    requires InStepOrder(Outputs(i.history))
    ensures var outs := Outputs(i.history);
            && (forall k :: k in Recorded(i) <==> 1 <= k <= |outs|)
            && (forall k :: 1 <= k <= |outs| ==> Recorded(i)[k] == outs[k - 1].output)
  {
    hide Outputs, SortByStep, OutputByStep;
    SortedAlready(Outputs(i.history));
    assert StepOutputs(i.history) == Outputs(i.history);
    OutputOfEachStep(Outputs(i.history));
  }

  lemma UndoableSteps(i: Instance)
    requires WellFormed(i.steps) && OutputsOk(PlanOf(i), Outputs(i.history))
    requires i.exec.workflowType == Saga
    ensures var e, outs := Undoable(PlanOf(i), |Outputs(i.history)|), Outputs(i.history);
            && InStepOrder(outs)
            && (forall j :: 0 <= j < |e| ==> 1 <= e[j].stepIndex <= |outs| && e[j].maxAttempts > 0)
  {
    hide Outputs, CompensationSteps;
    var e := CompensationSteps(i.steps, |Outputs(i.history)|);
    CompensationStepsSelect(i.steps, |Outputs(i.history)|);
    assert forall j :: 0 <= j < |e| ==> e[j] in e;
  }

  /** Every step to undo has a recorded output, namely its own result. */
  lemma UndoableHaveOutputs(i: Instance)
    requires WellFormed(i.steps) && OutputsOk(PlanOf(i), Outputs(i.history))
    requires i.exec.workflowType == Saga
    ensures var e, outs := Undoable(PlanOf(i), |Outputs(i.history)|), Outputs(i.history);
            && WithOutput(e, Recorded(i)) == e
            && (forall j :: 0 <= j < |e| ==>
                  && 1 <= e[j].stepIndex <= |outs|
                  && e[j].maxAttempts > 0
                  && e[j].stepIndex in Recorded(i)
                  && Recorded(i)[e[j].stepIndex] == outs[e[j].stepIndex - 1].output)
  {
    UndoableSteps(i);
    hide Outputs, Recorded, Undoable, WithOutput, WellFormed, OutputsOk;
    RecordedInStepOrder(i);
    AllRecorded(Undoable(PlanOf(i), |Outputs(i.history)|), Recorded(i), |Outputs(i.history)|);
  }

  // ---------------------------------------------------------------- starting the rollback

  lemma StartCompensationEffect(i: Instance, id: int, result: Bytes, err: string, e: seq<StepDef>) returns (l: Instance)
    requires Ordered(i.history, i.nextEvent) && 0 <= i.nextEvent
    requires id in i.tasks && i.exec.state == Running && i.comps == map[]
    requires e == WithOutput(CompensationSteps(i.steps, i.tasks[id].stepIndex - 1), Recorded(i))
    ensures var t := Marked(i, id, result, err).tasks[id];
            var j := Log(Marked(i, id, result, err), StepFailed, t.stepIndex, t.stepName, Empty, err);
            var k := Log(j.(exec := j.exec.(state := Compensating)), CompensationStarted, 0, "", Empty, "");
            && l == k.(exec := k.exec.(compensationTotal := |e|))
            && j.exec == i.exec && k.steps == i.steps
            && Recorded(k) == Recorded(i)
    ensures l.exec == i.exec.(state := Compensating, compensationTotal := |e|)
    ensures l.tasks == Marked(i, id, result, err).tasks && l.comps == i.comps && l.sweep == i.sweep
            && l.nextId == i.nextId
    ensures l.now == i.now && 0 <= l.nextEvent
    ensures Extends(i, l, Outputs(i.history), Undone(i.history), Endings(i.history))
    ensures RolledBack(l.history) <==> RolledBack(i.history)
  {
    hide Outputs, Undone, Endings, RolledBack, Ordered, Grew, Log, CompensationSteps, WithOutput, SortByStep,
      OutputByStep;
    var m := Marked(i, id, result, err);
    var t := m.tasks[id];
    var j := Logged(m, StepFailed, t.stepIndex, t.stepName, Empty, err);
    var k := Logged(j.(exec := j.exec.(state := Compensating)), CompensationStarted, 0, "", Empty, "");
    GrewOn(i.history, j.history, k.history);
    l := k.(exec := k.exec.(compensationTotal := |e|));
  }

  lemma EndRollbackEffect(i: Instance, message: string) returns (n: Instance)
    requires Ordered(i.history, i.nextEvent) && 0 <= i.nextEvent && !IsTerminal(i.exec.state)
    ensures EndRollback(i, message) == Some(n)
    ensures n.exec == i.exec.(state := Failed)
    ensures n.tasks == i.tasks && n.comps == i.comps && n.sweep == i.sweep && n.nextId == i.nextId && n.steps == i.steps
    ensures Extends(i, n, Outputs(i.history), Undone(i.history), Endings(i.history) + [WorkflowFailed])
    ensures RolledBack(n.history)
    ensures n.history != [] && n.history[|n.history| - 1].kind == WorkflowFailed
  {
    hide Outputs, Undone, Endings, RolledBack, Ordered, Grew, Log;
    var j := Logged(i.(exec := i.exec.(state := Failed)), SagaRolledBack, 0, "", Empty, "");
    n := Logged(j, WorkflowFailed, 0, "", Empty, message);
    GrewOn(i.history, j.history, n.history);
  }

  lemma ScheduleCompensationEffect(i: Instance, step: StepDef, input: Bytes) returns (n: Instance)
    requires Ordered(i.history, i.nextEvent) && 0 <= i.nextEvent && i.comps == map[]
    ensures ScheduleCompensation(i, step, input) == Some(n)
    ensures n.exec == i.exec && n.tasks == i.tasks && n.sweep == i.sweep && n.steps == i.steps
    ensures n.comps == map[i.nextId := BuildCompensation(step, input, i.exec.taskQueue, i.now)]
            && n.nextId == i.nextId + 1
    ensures Extends(i, n, Outputs(i.history), Undone(i.history), Endings(i.history))
    ensures RolledBack(n.history) <==> RolledBack(i.history)
  {
    hide Outputs, Undone, Endings, RolledBack, Ordered, Grew, Log;
    var r := BuildCompensation(step, input, i.exec.taskQueue, i.now);
    assert i.comps[i.nextId := r] == map[i.nextId := r];
    n := Logged(i.(comps := i.comps[i.nextId := r], nextId := i.nextId + 1), StepScheduled, step.stepIndex,
                step.stepName, Empty, "");
  }

  lemma FailSagaEffect(i: Instance, id: int, result: Bytes, err: string, e: seq<StepDef>) returns (n: Instance)
    requires Ordered(i.history, i.nextEvent) && 0 <= i.nextEvent
    requires id in i.tasks && i.exec.state == Running && i.comps == map[]
    requires e == WithOutput(CompensationSteps(i.steps, i.tasks[id].stepIndex - 1), Recorded(i))
    requires e != [] ==> e[0].stepIndex in Recorded(i)
    ensures var q := if e == [] then "" else QueueFor(e[0], i.exec.taskQueue);
            FailSaga(Marked(i, id, result, err), id) == Commit(n, "", q, e == [])
    ensures n.exec == i.exec.(state := if e == [] then Failed else Compensating, compensationTotal := |e|)
    ensures n.tasks == i.tasks - {id} && n.sweep == i.sweep
    ensures e == [] ==> (
      && n.comps == map[] && n.nextId == i.nextId && RolledBack(n.history)
      && n.history != [] && n.history[|n.history| - 1].kind == WorkflowFailed)
    ensures e != [] ==> (
      && n.nextId == i.nextId + 1 && (RolledBack(n.history) <==> RolledBack(i.history))
      && n.comps == map[i.nextId := BuildCompensation(e[0], Recorded(i)[e[0].stepIndex], i.exec.taskQueue, i.now)])
    ensures Extends(i, n, Outputs(i.history), Undone(i.history),
                    if e == [] then Endings(i.history) + [WorkflowFailed] else Endings(i.history))
  {
    hide Outputs, Undone, Endings, RolledBack, Ordered, Grew, Log, CompensationSteps, WithOutput, SortByStep,
      OutputByStep, EndRollback, ScheduleCompensation;
    var l := StartCompensationEffect(i, id, result, err, e);
    DropMarked(i.tasks, id, l.tasks[id]);
    TerminalByName(Compensating);
    if e == [] {
      n := EndRollbackEffect(l, NOTHING_TO_UNDO);
    } else {
      n := ScheduleCompensationEffect(l, e[0], Recorded(i)[e[0].stepIndex]);
    }
    GrewOn(i.history, l.history, n.history);
    n := DropTask(n, id);
  }

  lemma FailSagaParts(i: Instance, id: int, result: Bytes, err: string) returns (n: Instance, e: seq<StepDef>)
    requires Inv(i) && id in i.tasks && i.exec.state == Running && i.exec.workflowType == Saga
    ensures var tx := FailSaga(Marked(i, id, result, err), id); tx.Commit? && tx.next == n
    ensures e == Undoable(PlanOf(i), |Outputs(i.history)|) && |Outputs(i.history)| < |i.steps|
    ensures n.exec == i.exec.(state := if e == [] then Failed else Compensating, compensationTotal := |e|)
    ensures n.tasks == map[] && n.sweep == i.sweep
    ensures e == [] ==> (
      && n.comps == map[] && n.nextId == i.nextId && RolledBack(n.history)
      && n.history != [] && n.history[|n.history| - 1].kind == WorkflowFailed)
    ensures e != [] ==> (
      && n.nextId == i.nextId + 1 && (RolledBack(n.history) <==> RolledBack(i.history))
      && e[0].stepIndex in Recorded(i)
      && n.comps == map[i.nextId := BuildCompensation(e[0], Recorded(i)[e[0].stepIndex], i.exec.taskQueue, i.now)]
      && CompensationOk(PlanOf(i), Outputs(i.history), 0, n.comps[i.nextId]))
    ensures Extends(i, n, Outputs(i.history), Undone(i.history),
                    if e == [] then Endings(i.history) + [WorkflowFailed] else Endings(i.history))
  {
    hide Outputs, Undone, Endings, RolledBack, Ordered, FailSaga, Recorded, WithOutput, CompensationSteps;
    WhileInSequence(i, id);
    OnlyReplaced(i.tasks, id, i.tasks[id], id + 1, i.tasks[id]);
    UndoableHaveOutputs(i);
    e := Undoable(PlanOf(i), |Outputs(i.history)|);
    hide Inv;
    n := FailSagaEffect(i, id, result, err, e);
  }

  lemma FailSagaKeeps(i: Instance, id: int, result: Bytes, err: string) returns (n: Instance)
    requires Inv(i) && id in i.tasks && i.exec.state == Running && i.exec.workflowType == Saga
    ensures var tx := FailSaga(Marked(i, id, result, err), id); tx.Commit? && tx.next == n
    ensures Inv(n) && Follows(i, n)
  {
    hide Outputs, Undone, Endings, RolledBack, Ordered, FailSaga, Recorded, WithOutput, CompensationSteps;
    var e;
    n, e := FailSagaParts(i, id, result, err);
    WhileInSequence(i, id);
    hide Inv, TaskOk, CompensationOk, OutputsOk;
    assert TablesOk(n);
    assert RecordOk(n);
    hide TablesOk, RecordOk;
    if e != [] {
      assert i.nextId in n.comps;
    }
    InvFromParts(n);
  }

  // ---------------------------------------------------------------- reports on compensation tasks

  function MarkedCompensation(i: Instance, id: int, result: Bytes, err: string): Instance
    requires id in i.comps
  {
    i.(comps := i.comps[id := ReportRow(i.comps[id], result, err)])
  }

  /** All compensation rows are for the next step to undo, so there is one at most. */
  lemma OneCompensation(i: Instance, id: int)
    requires Inv(i) && id in i.comps
    ensures Only(i.comps, id) && i.exec.workflowType == Saga
    ensures CompensationOk(PlanOf(i), Outputs(i.history), |Undone(i.history)|, i.comps[id])
  {
    hide Outputs, Undone;
    forall a | a in i.comps ensures a == id {
      assert CompensationOk(PlanOf(i), Outputs(i.history), |Undone(i.history)|, i.comps[a]);
      assert CompensationOk(PlanOf(i), Outputs(i.history), |Undone(i.history)|, i.comps[id]);
    }
  }

  lemma RetryCompensationKeeps(i: Instance, id: int, result: Bytes, err: string) returns (n: Instance)
    requires Inv(i) && id in i.comps && i.exec.state == Compensating
    ensures var r := RetryRow(ReportRow(i.comps[id], result, err), i.now);
            && RetryCompensation(MarkedCompensation(i, id, result, err), id) == Commit(n, r.taskQueue, "", false)
            && n == i.(comps := map[i.nextId := r], nextId := i.nextId + 1)
    ensures Inv(n) && Follows(i, n)
  {
    hide Outputs, Undone, Endings, RolledBack, Ordered;
    OneCompensation(i, id);
    var t := ReportRow(i.comps[id], result, err);
    var r := RetryRow(t, i.now);
    OnlyReplaced(i.comps, id, t, i.nextId, r);
    assert (i.comps - {id})[i.nextId := r] == map[i.nextId := r];
    n := i.(comps := map[i.nextId := r], nextId := i.nextId + 1);
    assert CompensationOk(PlanOf(i), Outputs(i.history), |Undone(i.history)|, r);
    assert i.nextId in n.comps;
  }

  lemma FailureLogged(i: Instance, step: int, stepName: string, error: string, message: string) returns (n: Instance)
    requires Ordered(i.history, i.nextEvent) && 0 <= i.nextEvent
    ensures n == Log(Log(Log(i, CompensationFailed, step, stepName, Empty, error),
                         SagaRollbackFailed, 0, "", Empty, error),
                     WorkflowFailed, 0, "", Empty, message)
    ensures n.exec == i.exec && n.tasks == i.tasks && n.comps == i.comps && n.sweep == i.sweep && n.nextId == i.nextId
    ensures Extends(i, n, Outputs(i.history), Undone(i.history), Endings(i.history) + [WorkflowFailed])
    ensures RolledBack(n.history) <==> RolledBack(i.history)
    ensures n.history != [] && n.history[|n.history| - 1].kind == WorkflowFailed
  {
    hide Outputs, Undone, Endings, RolledBack, Ordered, Grew, Log;
    var j := Logged(i, CompensationFailed, step, stepName, Empty, error);
    var k := Logged(j, SagaRollbackFailed, 0, "", Empty, error);
    n := Logged(k, WorkflowFailed, 0, "", Empty, message);
    GrewOn(i.history, j.history, k.history);
    GrewOn(i.history, k.history, n.history);
  }

  lemma FailRollbackEffect(i: Instance, id: int, result: Bytes, err: string) returns (n: Instance)
    requires Ordered(i.history, i.nextEvent) && 0 <= i.nextEvent
    requires id in i.comps && i.exec.state == Compensating
    ensures FailRollback(MarkedCompensation(i, id, result, err), id) == Commit(n, "", "", true)
    ensures n.exec == i.exec.(state := Failed, error := n.exec.error)
    ensures n.tasks == i.tasks && n.comps == i.comps - {id} && n.sweep == i.sweep && n.nextId == i.nextId
    ensures Extends(i, n, Outputs(i.history), Undone(i.history), Endings(i.history) + [WorkflowFailed])
    ensures RolledBack(n.history) <==> RolledBack(i.history)
    ensures n.history != [] && n.history[|n.history| - 1].kind == WorkflowFailed
  {
    hide Outputs, Undone, Endings, RolledBack, Ordered, Grew, Log;
    var m := MarkedCompensation(i, id, result, err);
    var t := m.comps[id];
    DropMarked(i.comps, id, t);
    var message := RollbackFailure(t.stepName, t.error);
    var l := FailureLogged(m, t.stepIndex, t.stepName, err, message);
    n := DropCompensation(l.(exec := l.exec.(error := message, state := Failed)), id);
  }

  lemma FailRollbackKeeps(i: Instance, id: int, result: Bytes, err: string) returns (n: Instance)
    requires Inv(i) && id in i.comps && i.exec.state == Compensating
    ensures var tx := FailRollback(MarkedCompensation(i, id, result, err), id); tx.Commit? && tx.next == n
    ensures Inv(n) && Follows(i, n)
  {
    hide Outputs, Undone, Endings, RolledBack, Ordered, FailRollback;
    OneCompensation(i, id);
    OnlyReplaced(i.comps, id, i.comps[id], id + 1, i.comps[id]);
    n := FailRollbackEffect(i, id, result, err);
  }

  /** The state that a compensation success records, before the tests for the end. */
  lemma CountedRollbackEffect(i: Instance, id: int, result: Bytes) returns (k: Instance)
    requires Ordered(i.history, i.nextEvent) && 0 <= i.nextEvent && Only(i.comps, id)
    ensures var m := MarkedCompensation(i, id, result, "");
            var j := Log(m, CompensationCompleted, i.comps[id].stepIndex, i.comps[id].stepName, Raw(result), "");
            && k == DropCompensation(j.(exec := j.exec.(compensationDone := j.exec.compensationDone + 1)), id)
            && Recorded(k) == Recorded(i)
    ensures k.exec == i.exec.(compensationDone := i.exec.compensationDone + 1) && 0 <= k.nextEvent
    ensures k.comps == map[] && k.tasks == i.tasks && k.sweep == i.sweep && k.nextId == i.nextId && k.steps == i.steps
    ensures Extends(i, k, Outputs(i.history), Undone(i.history) + [i.comps[id].stepIndex], Endings(i.history))
    ensures RolledBack(k.history) <==> RolledBack(i.history)
  {
    hide Outputs, Undone, Endings, RolledBack, Ordered, Grew, Log, SortByStep, OutputByStep;
    var m := MarkedCompensation(i, id, result, "");
    var t := m.comps[id];
    OnlyReplaced(i.comps, id, t, id + 1, t);
    var j := Logged(m, CompensationCompleted, t.stepIndex, t.stepName, Raw(result), "");
    k := DropCompensation(j.(exec := j.exec.(compensationDone := j.exec.compensationDone + 1)), id);
  }

  lemma AdvanceRollbackEffect(i: Instance, id: int, result: Bytes, next: Option<StepDef>) returns (n: Instance)
    requires Ordered(i.history, i.nextEvent) && 0 <= i.nextEvent
    requires Only(i.comps, id) && i.exec.state == Compensating
    requires next == FirstWithOutput(CompensationSteps(i.steps, i.comps[id].stepIndex - 1), Recorded(i))
    requires i.exec.compensationDone + 1 < i.exec.compensationTotal ==>
             next.Some? && next.value.stepIndex in Recorded(i)
    ensures var last := i.exec.compensationDone + 1 >= i.exec.compensationTotal;
            && AdvanceRollback(MarkedCompensation(i, id, result, ""), id) ==
                 Commit(n, if last then "" else QueueFor(next.value, i.exec.taskQueue), "", last)
            && n.exec == i.exec.(compensationDone := i.exec.compensationDone + 1,
                                 state := if last then Failed else Compensating)
            && n.comps == (if last then map[] else
                 map[i.nextId := BuildCompensation(next.value, Recorded(i)[next.value.stepIndex],
                                                     i.exec.taskQueue, i.now)])
            && n.nextId == (if last then i.nextId else i.nextId + 1)
            && Extends(i, n, Outputs(i.history), Undone(i.history) + [i.comps[id].stepIndex],
                       if last then Endings(i.history) + [WorkflowFailed] else Endings(i.history))
            && (RolledBack(n.history) <==> RolledBack(i.history) || last)
            && (last ==> n.history != [] && n.history[|n.history| - 1].kind == WorkflowFailed)
    ensures n.tasks == i.tasks && n.sweep == i.sweep
  {
    hide Outputs, Undone, Endings, RolledBack, Ordered, Grew, Log, CompensationSteps, SortByStep, OutputByStep,
      FirstWithOutput, EndRollback, ScheduleCompensation, Only, DropCompensation, Recorded;
    var k := CountedRollbackEffect(i, id, result);
    TerminalByName(Compensating);
    if k.exec.compensationDone >= k.exec.compensationTotal {
      n := EndRollbackEffect(k, ALL_UNDONE);
    } else {
      assert Recorded(i) == OutputByStep(StepOutputs(k.history)) by { RecordedIs(k); }
      n := ScheduleCompensationEffect(k, next.value, Recorded(i)[next.value.stepIndex]);
    }
    GrewOn(i.history, k.history, n.history);
  }

  lemma RecordedIs(i: Instance)
    ensures Recorded(i) == OutputByStep(StepOutputs(i.history))
  {
  }

  /** The search for the next step continues the list counted at the start: it finds a step
      exactly while the counter is below the total. */
  lemma NextToUndo(i: Instance, id: int) returns (next: Option<StepDef>)
    requires Inv(i) && id in i.comps && i.exec.state == Compensating
    ensures next == FirstWithOutput(CompensationSteps(i.steps, i.comps[id].stepIndex - 1), Recorded(i))
    ensures var e, done := Undoable(PlanOf(i), |Outputs(i.history)|), |Undone(i.history)|;
            && (next.None? <==> i.exec.compensationDone + 1 >= i.exec.compensationTotal)
            && done < |e| && e[done].stepIndex == i.comps[id].stepIndex
            && (next.Some? ==> done + 1 < |e| && next.value == e[done + 1] && next.value.stepIndex in Recorded(i))
  {
    hide Outputs, Undone, Endings, RolledBack, Ordered, Recorded, CompensationSteps, WithOutput;
    OneCompensation(i, id);
    UndoableHaveOutputs(i);
    var e, done := Undoable(PlanOf(i), |Outputs(i.history)|), |Undone(i.history)|;
    AskingAgainContinues(i.steps, |Outputs(i.history)|, done);
    var rest := CompensationSteps(i.steps, i.comps[id].stepIndex - 1);
    assert rest == e[done + 1..];
    if rest != [] {
      assert rest[0] == e[done + 1];
    }
    next := FirstWithOutput(rest, Recorded(i));
  }

  lemma UndoneExtends(p: Plan, outs: seq<TaskOutput>, undone: seq<int>)
    requires UndoneOk(p, outs, undone) && |undone| < |Undoable(p, |outs|)|
    ensures UndoneOk(p, outs, undone + [Undoable(p, |outs|)[|undone|].stepIndex])
  {
    var all := Indices(Undoable(p, |outs|));
    assert all[|undone|] == Undoable(p, |outs|)[|undone|].stepIndex;
  }

  lemma NextRowOk(i: Instance, id: int, step: StepDef)
    requires Inv(i) && id in i.comps && i.exec.state == Compensating
    requires |Undone(i.history)| + 1 < |Undoable(PlanOf(i), |Outputs(i.history)|)|
    requires step == Undoable(PlanOf(i), |Outputs(i.history)|)[|Undone(i.history)| + 1]
    ensures step.stepIndex in Recorded(i)
    ensures CompensationOk(PlanOf(i), Outputs(i.history), |Undone(i.history)| + 1,
                           BuildCompensation(step, Recorded(i)[step.stepIndex], i.exec.taskQueue, i.now))
  {
    hide Outputs, Undone, Endings, RolledBack, Ordered, Recorded, CompensationSteps, WithOutput;
    OneCompensation(i, id);
    UndoableHaveOutputs(i);
  }

  lemma AdvanceRollbackKeeps(i: Instance, id: int, result: Bytes) returns (n: Instance)
    requires Inv(i) && id in i.comps && i.exec.state == Compensating
    ensures var tx := AdvanceRollback(MarkedCompensation(i, id, result, ""), id); tx.Commit? && tx.next == n
    ensures Inv(n) && Follows(i, n)
  {
    hide Outputs, Undone, Endings, RolledBack, Ordered, AdvanceRollback, Recorded, CompensationSteps, FirstWithOutput,
      UndoneOk, Undoable;
    OneCompensation(i, id);
    var next := NextToUndo(i, id);
    n := AdvanceRollbackEffect(i, id, result, next);
    UndoneExtends(PlanOf(i), Outputs(i.history), Undone(i.history));
    assert RecordOk(n);
    if next.Some? {
      NextRowOk(i, id, next.value);
      assert i.nextId in n.comps;
    }
  }
}
