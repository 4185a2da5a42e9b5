/** What a rollback of a SAGA achieves, in every run. */
module SagaRollback {
  import opened StateMachine
  import opened Domain
  import opened Rows
  import opened Definitions
  import opened History
  import opened Instances
  import opened Invariants
  import opened Preservation
  import opened RollbackPreservation
  import opened Runs
  import opened Starting

  predicate HasHandler(steps: seq<StepDef>, k: int) {
    1 <= k <= |steps| && steps[k - 1].compensationStepName != ""
  }

  lemma UndoneAreCompleted(p: Plan, outs: seq<TaskOutput>, undone: seq<int>)
    requires WellFormed(p.steps) && p.kind == Saga && OutputsOk(p, outs) && UndoneOk(p, outs, undone)
    ensures forall j, k :: 0 <= j < k < |undone| ==> undone[j] > undone[k]
    ensures forall k :: k in undone ==> HasOutput(outs, k) && HasHandler(p.steps, k)
  {
    var e := CompensationSteps(p.steps, |outs|);
    CompensationStepsSelect(p.steps, |outs|);
    hide CompensationSteps;
    assert forall j :: 0 <= j < |undone| ==> undone[j] == e[j].stepIndex by {
      assert forall j :: 0 <= j < |undone| ==> undone[j] == Indices(e)[j];
    }
    forall k | k in undone ensures HasOutput(outs, k) && HasHandler(p.steps, k) {
      var j :| 0 <= j < |undone| && undone[j] == k;
      assert e[j] in e;
      assert outs[k - 1].stepIndex == k;
    }
  }

  lemma AllUndone(p: Plan, outs: seq<TaskOutput>, undone: seq<int>, k: int)
    requires WellFormed(p.steps) && p.kind == Saga && OutputsOk(p, outs) && UndoneOk(p, outs, undone)
    requires |undone| == |Undoable(p, |outs|)|
    requires HasOutput(outs, k) && HasHandler(p.steps, k)
    ensures k in undone
  {
    var e := CompensationSteps(p.steps, |outs|);
    CompensationStepsSelect(p.steps, |outs|);
    hide CompensationSteps;
    assert p.steps[k - 1] in e;
    var j :| 0 <= j < |e| && e[j] == p.steps[k - 1];
    assert undone[j] == Indices(e)[j] == k;
  }

  /** In every run, the steps compensated so far are completed steps with a handler, each once,
      in strictly descending order; when SAGA_ROLLED_BACK is logged they are all of them, and the
      execution is FAILED. */
  lemma RollbackIsExact(r: Request, acts: seq<Action>)
    requires WellFormed(r.steps) && r.kind == Saga
    ensures var i := Run(Begin(r), acts);
            var outs, undone := Outputs(i.history), Undone(i.history);
            && (forall j, k :: 0 <= j < k < |undone| ==> undone[j] > undone[k])
            && (forall k :: k in undone ==> HasOutput(outs, k) && HasHandler(r.steps, k))
            && (RolledBack(i.history) ==>
                  && i.exec.state == Failed
                  && forall k :: k in undone <==> HasOutput(outs, k) && HasHandler(r.steps, k))
  {
    hide Outputs, Undone, RolledBack, Run, Begin, HasOutput, OutputsOk, UndoneOk;
    var i := Run(Begin(r), acts);
    AfterAnyRun(r, acts);
    var p, outs, undone := PlanOf(i), Outputs(i.history), Undone(i.history);
    UndoneAreCompleted(p, outs, undone);
    if RolledBack(i.history) {
      forall k | HasOutput(outs, k) && HasHandler(r.steps, k) ensures k in undone {
        AllUndone(p, outs, undone, k);
      }
    }
  }

  /** The row calls the handler of its own step, on the queue of that step or else of the execution,
      with the attempts and the timeout that the step allows. */
  predicate CallsHandler(r: Request, row: Row) {
    HasHandler(r.steps, row.stepIndex)
    && var step := r.steps[row.stepIndex - 1];
    && row.stepName == step.stepName
    && row.compensationStepName == step.compensationStepName
    && row.taskQueue == (if step.taskQueue == "" then r.queue else step.taskQueue)
    && row.maxAttempts == step.maxAttempts && row.timeoutSeconds == step.timeoutSeconds
  }

  ghost predicate Undoing(i: Instance, row: Row) {
    var s, outs := row.stepIndex, Outputs(i.history);
    && HasHandler(i.steps, s)
    && 1 <= s <= |outs| && outs[s - 1].stepIndex == s && row.input == outs[s - 1].output
    && i.exec.compensationDone + |CompensationSteps(i.steps, s)| == i.exec.compensationTotal
    && (i.exec.compensationDone + 1 >= i.exec.compensationTotal <==>
          FirstWithOutput(CompensationSteps(i.steps, s - 1), Recorded(i)) == None)
  }

  /** While an execution is COMPENSATING it has no task and exactly one compensation task, for the
      next step to undo; the row calls that step's handler with its recorded result; compensation_done
      counts the steps undone, and together with the eligible steps at or below the current one it makes
      up compensation_total. So the counter test and the search for a next step agree, and the
      branch for "no next step" before the counter is full is never taken. */
  lemma CompensatingState(r: Request, acts: seq<Action>)
    requires WellFormed(r.steps)
    ensures var i := Run(Begin(r), acts);
            i.exec.state == Compensating ==>
              && r.kind == Saga && i.tasks == map[]
              && i.exec.compensationDone == |Undone(i.history)|
              && exists id :: Only(i.comps, id) && Active(i.comps[id])
                   && CallsHandler(r, i.comps[id]) && Undoing(i, i.comps[id])
  {
    hide Outputs, Undone, Endings, RolledBack, Ordered, Run, Begin, CompensationSteps, FirstWithOutput, Recorded;
    var i := Run(Begin(r), acts);
    AfterAnyRun(r, acts);
    if i.exec.state == Compensating {
      var id :| id in i.comps;
      OneCompensation(i, id);
      var next := NextToUndo(i, id);
      AskingAgainContinues(r.steps, |Outputs(i.history)|, |Undone(i.history)|);
      HandlerOf(r.steps, |Outputs(i.history)|, |Undone(i.history)|);
    }
  }

  lemma HandlerOf(steps: seq<StepDef>, m: int, j: nat)
    requires Indexed(steps) && j < |CompensationSteps(steps, m)|
    ensures var e := CompensationSteps(steps, m); HasHandler(steps, e[j].stepIndex) && steps[e[j].stepIndex - 1] == e[j]
  {
    CompensationStepsSelect(steps, m);
    hide CompensationSteps;
    assert CompensationSteps(steps, m)[j] in CompensationSteps(steps, m);
  }

  /** Every compensation row, a retry or not, active or not, calls the handler of its own step with the
      one result recorded for that step. */
  lemma CompensationInputs(r: Request, acts: seq<Action>, id: int)
    requires WellFormed(r.steps) && id in Run(Begin(r), acts).comps
    ensures var i := Run(Begin(r), acts);
            var s, outs := i.comps[id].stepIndex, Outputs(i.history);
            && CallsHandler(r, i.comps[id])
            && 1 <= s <= |outs| && outs[s - 1].stepIndex == s && i.comps[id].input == outs[s - 1].output
            && (forall j :: 0 <= j < |outs| && outs[j].stepIndex == s ==> j == s - 1)
  {
    hide Outputs, Undone, Endings, RolledBack, Ordered, Run, Begin, CompensationSteps;
    var i := Run(Begin(r), acts);
    AfterAnyRun(r, acts);
    OneCompensation(i, id);
    HandlerOf(r.steps, |Outputs(i.history)|, |Undone(i.history)|);
  }

  /** Every task row, a retry or not, active or not, is for its own step: its name, its queue or else
      the execution's, and the attempts and the timeout that it allows. */
  lemma TasksAreTheirSteps(r: Request, acts: seq<Action>, id: int)
    requires WellFormed(r.steps) && id in Run(Begin(r), acts).tasks
    ensures var row := Run(Begin(r), acts).tasks[id];
            1 <= row.stepIndex <= |r.steps|
            && var step := r.steps[row.stepIndex - 1];
            && row.stepName == step.stepName && row.compensationStepName == ""
            && row.taskQueue == (if step.taskQueue == "" then r.queue else step.taskQueue)
            && row.maxAttempts == step.maxAttempts && row.timeoutSeconds == step.timeoutSeconds
  {
    hide Outputs, Undone, Endings, RolledBack, Ordered, Run, Begin;
    var i := Run(Begin(r), acts);
    AfterAnyRun(r, acts);
    assert TaskOk(PlanOf(i), Outputs(i.history), i.tasks[id]);
  }
}
