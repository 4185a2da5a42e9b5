/** What every step of a run means for the execution, in the terms of its definition: the outcome, the
    state and the error it leaves, and the events it writes; and what follows for whole runs. */
module Verdicts {
  import opened StateMachine
  import opened Domain
  import opened Rows
  import opened Definitions
  import opened History
  import opened Instances
  import opened Invariants
  import opened Preservation
  import opened RollbackPreservation
  import opened Runs
  import opened RowFates
  import opened Starting
  import opened Journals

  datatype Outcome =
    | NoEffect
    | TaskRetried | TaskFailed | RollbackBegun(first: int) | NothingToUndo | StepDone | ExecutionDone
    | UndoRetried | UndoFailed | UndoneGoOn(next: int) | AllUndone
    | UserCancelled | DeadlinePassed | TimeoutNoted | FailureNoted

  /** The last of the first m steps that has a handler, or 0. */
  function LastHandler(steps: seq<StepDef>, m: nat): (k: nat)
    requires m <= |steps|
    ensures k <= m && (k > 0 ==> steps[k - 1].compensationStepName != "")
    ensures forall j :: k <= j < m ==> steps[j].compensationStepName == ""
  {
    if m == 0 || steps[m - 1].compensationStepName != "" then m else LastHandler(steps, m - 1)
  }

  predicate Live(i: Instance) {
    i.exec.state == Running || i.exec.state == Compensating
  }

  /** What a report on a task amounts to. */
  ghost function TaskOutcome(i: Instance, q: Row, err: string): Outcome {
    var done := |Outputs(i.history)|;
    if err != "" then
      if q.attempt < q.maxAttempts then TaskRetried
      else if i.exec.workflowType != Saga then TaskFailed
      else if done <= |i.steps| && LastHandler(i.steps, done) > 0 then RollbackBegun(LastHandler(i.steps, done))
      else NothingToUndo
    else if done + 1 == |i.steps| then ExecutionDone
    else StepDone
  }

  /** What a report on a compensation task amounts to. */
  function UndoOutcome(i: Instance, q: Row, err: string): Outcome {
    if err != "" then if q.attempt < q.maxAttempts then UndoRetried else UndoFailed
    else if 1 <= q.stepIndex <= |i.steps| && LastHandler(i.steps, q.stepIndex - 1) > 0
    then UndoneGoOn(LastHandler(i.steps, q.stepIndex - 1))
    else AllUndone
  }

  /** deadline is the time by which the execution must be over, if there is one. */
  ghost function OutcomeOf(i: Instance, deadline: Option<int>, a: Action): Outcome {
    match a
    case Report(id, _, err) =>
      if Live(i) && id in i.tasks then TaskOutcome(i, i.tasks[id], err) else NoEffect
    case ReportCompensation(id, _, err) =>
      if Live(i) && id in i.comps then UndoOutcome(i, i.comps[id], err) else NoEffect
    case Cancel => if Live(i) then UserCancelled else NoEffect
    case ExpireOverdue =>
      if Live(i) && deadline.Some? && i.now > deadline.value then DeadlinePassed else NoEffect
    case SweepStep =>
      if i.sweep == CompensationsCancelled then TimeoutNoted
      else if i.sweep == TimeoutLogged then FailureNoted
      else NoEffect
    case _ => NoEffect
  }

  function StateAfter(o: Outcome, before: State): State {
    match o
    case TaskFailed | NothingToUndo | UndoFailed | AllUndone | DeadlinePassed => Failed
    case RollbackBegun(_) => Compensating
    case ExecutionDone => Completed
    case UserCancelled => Cancelled
    case _ => before
  }

  function ErrorAfter(o: Outcome, i: Instance, a: Action): string {
    match o
    case TaskFailed => if a.Report? then a.err else ""
    case UndoFailed =>
      if a.ReportCompensation? && a.id in i.comps then RollbackFailure(i.comps[a.id].stepName, a.err) else ""
    case DeadlinePassed => TIMED_OUT
    case _ => i.exec.error
  }

  /** An event about a step bears the name that the definition gives the step. */
  function About(steps: seq<StepDef>, k: int, kind: EventType, payload: Payload, error: string): Entry {
    Entry(kind, k, if 1 <= k <= |steps| then steps[k - 1].stepName else "", payload, error)
  }

  /** The events of a report on step k with the given result and error. */
  ghost function Events(i: Instance, o: Outcome, k: int, result: Bytes, err: string): seq<Entry> {
    var steps := i.steps;
    match o
    case NoEffect => []
    case TaskRetried => [About(steps, k, StepRetrying, Empty, err)]
    case TaskFailed => [About(steps, k, StepFailed, Empty, err), Note(WorkflowFailed, err)]
    case RollbackBegun(first) =>
      [About(steps, k, StepFailed, Empty, err), Note(CompensationStarted, ""),
       About(steps, first, StepScheduled, Empty, "")]
    case NothingToUndo =>
      [About(steps, k, StepFailed, Empty, err), Note(CompensationStarted, ""),
       Note(SagaRolledBack, ""), Note(WorkflowFailed, NOTHING_TO_UNDO)]
    case StepDone =>
      if i.exec.workflowType == Independent then [About(steps, k, StepCompleted, Raw(result), "")]
      else [About(steps, k, StepCompleted, Raw(result), ""), About(steps, k + 1, StepScheduled, Empty, "")]
    case ExecutionDone =>
      var done := About(steps, k, StepCompleted, Raw(result), "");
      var outs := Outputs(i.history) + [TaskOutput(k, done.stepName, result)];
      [done, Entry(WorkflowCompleted, 0, "", FinalPayload(i.exec.workflowType, outs), "")]
    case UndoRetried => []
    case UndoFailed =>
      [About(steps, k, CompensationFailed, Empty, err), Note(SagaRollbackFailed, err),
       Note(WorkflowFailed, RollbackFailure(About(steps, k, CompensationFailed, Empty, err).stepName, err))]
    case UndoneGoOn(next) =>
      [About(steps, k, CompensationCompleted, Raw(result), ""), About(steps, next, StepScheduled, Empty, "")]
    case AllUndone =>
      [About(steps, k, CompensationCompleted, Raw(result), ""), Note(SagaRolledBack, ""),
       Note(WorkflowFailed, ALL_UNDONE)]
    case UserCancelled => [Note(WorkflowCancelled, "")]
    case DeadlinePassed => []
    case TimeoutNoted => [Note(WorkflowTimedOut, TIMED_OUT)]
    case FailureNoted => [Note(WorkflowFailed, TIMED_OUT)]
  }

  ghost function EventsOf(i: Instance, o: Outcome, a: Action): seq<Entry> {
    match a
    case Report(id, result, err) => if id in i.tasks then Events(i, o, i.tasks[id].stepIndex, result, err) else []
    case ReportCompensation(id, result, err) =>
      if id in i.comps then Events(i, o, i.comps[id].stepIndex, result, err) else []
    case _ => Events(i, o, 0, [], "")
  }

  /** State, error and history after a step; what has an effect takes no time. */
  ghost predicate Told(i: Instance, n: Instance, o: Outcome, error: string, entries: seq<Entry>) {
    && n.exec.state == StateAfter(o, i.exec.state)
    && n.exec.error == error
    && n.history == i.history + Stamped(i.nextEvent, entries)
    && (o != NoEffect ==> n.now == i.now)
  }

  // ---------------------------------------------------------------- handlers

  lemma {:induction false} LastHandlerOfAPrefix(steps: seq<StepDef>, m: nat)
    requires m < |steps|
    ensures LastHandler(steps[..|steps| - 1], m) == LastHandler(steps, m)
  {
    if m > 0 { LastHandlerOfAPrefix(steps, m - 1); }
  }

  /** The query's answer begins with the last step that has a handler. */
  lemma {:induction false} QueryBeginsWithTheLast(steps: seq<StepDef>, m: nat)
    requires Indexed(steps) && m <= |steps|
    ensures var e, k := CompensationSteps(steps, m), LastHandler(steps, m);
            && (e == [] <==> k == 0)
            && (e != [] ==> e[0] == steps[k - 1])
  {
    if steps != [] {
      var front := steps[..|steps| - 1];
      if m < |steps| {
        LastStepIsBeyond(steps, m);
        LastHandlerOfAPrefix(steps, m);
        QueryBeginsWithTheLast(front, m);
        hide CompensationSteps, LastHandler;
      } else if steps[m - 1].compensationStepName == "" {
        BoundBeyondTheLastStep(front, m, m - 1);
        LastHandlerOfAPrefix(steps, m - 1);
        QueryBeginsWithTheLast(front, m - 1);
      }
    }
  }

  // ---------------------------------------------------------------- reports on tasks

  lemma SameEvents(i: Instance, m: Instance, n: Instance, entries: seq<Entry>)
    requires Logs(m, n, entries) && m.history == i.history && m.nextEvent == i.nextEvent
    ensures n.history == i.history + Stamped(i.nextEvent, entries)
  {
  }

  /** A task row bears its step's index and name, and its execution is RUNNING. */
  lemma AboutTheTask(i: Instance, id: int)
    requires Inv(i) && Live(i) && id in i.tasks
    ensures var q := i.tasks[id];
            i.exec.state == Running && 1 <= q.stepIndex <= |i.steps| && q.stepName == i.steps[q.stepIndex - 1].stepName
    ensures i.exec.totalSteps == |i.steps| && WellFormed(i.steps) && i.exec.result == None && i.comps == map[]
    ensures Ordered(i.history, i.nextEvent) && 0 <= i.nextEvent
    ensures i.exec.workflowType != Independent ==> i.tasks[id].stepIndex == |Outputs(i.history)| + 1
    ensures i.exec.workflowType == Independent ==> i.exec.completedSteps == |Outputs(i.history)|
  {
    hide Outputs, Undone, Endings, RolledBack, Ordered;
    assert TaskOk(PlanOf(i), Outputs(i.history), i.tasks[id]);
  }

  lemma RetryTold(i: Instance, id: int, result: Bytes, err: string)
    requires Inv(i) && Live(i) && id in i.tasks && err != ""
    ensures var k, tx := i.tasks[id].stepIndex, RetryTask(Marked(i, id, result, err), id);
            tx.Commit? && Told(i, tx.next, TaskRetried, i.exec.error, Events(i, TaskRetried, k, result, err))
  {
    hide Inv, RetryTask, Stamped;
    AboutTheTask(i, id);
    var n := RetryKeeps(i, id, result, err);
    RetryLogs(Marked(i, id, result, err), id);
  }

  lemma FailExecutionTold(i: Instance, id: int, result: Bytes, err: string)
    requires Inv(i) && Live(i) && id in i.tasks
    ensures var k, tx := i.tasks[id].stepIndex, FailExecution(Marked(i, id, result, err), id);
            tx.Commit? && Told(i, tx.next, TaskFailed, err, Events(i, TaskFailed, k, result, err))
  {
    hide Inv, FailExecution, Stamped;
    AboutTheTask(i, id);
    var n := FailExecutionKeeps(i, id, result, err);
    FailExecutionLogs(Marked(i, id, result, err), id);
  }

  /** Whether a rollback begins, and with which step. */
  lemma RollbackTold(i: Instance, id: int, result: Bytes, err: string)
    requires Inv(i) && Live(i) && id in i.tasks && i.exec.workflowType == Saga && err != ""
    requires i.tasks[id].attempt >= i.tasks[id].maxAttempts
    ensures var k, tx := i.tasks[id].stepIndex, FailSaga(Marked(i, id, result, err), id);
            var o := TaskOutcome(i, i.tasks[id], err);
            && (o.RollbackBegun? || o.NothingToUndo?)
            && tx.Commit? && Told(i, tx.next, o, i.exec.error, Events(i, o, k, result, err))
  {
    hide Outputs, Undone, Endings, RolledBack, Ordered, FailSaga, Stamped, Recorded, CompensationSteps, WithOutput,
      LastHandler, TablesOk, PhaseOk;
    AboutTheTask(i, id);
    var e := CompensationSteps(i.steps, |Outputs(i.history)|);
    UndoableHaveOutputs(i);
    QueryBeginsWithTheLast(i.steps, |Outputs(i.history)|);
    hide Inv, OutputsOk, WellFormed;
    FailSagaLogs(i, id, result, err, e);
  }

  lemma IndependentTold(i: Instance, id: int, result: Bytes)
    requires Inv(i) && Live(i) && id in i.tasks && i.exec.workflowType == Independent
    ensures var k, tx := i.tasks[id].stepIndex, CompleteIndependent(Marked(i, id, result, ""), id);
            var o := TaskOutcome(i, i.tasks[id], "");
            tx.Commit? && Told(i, tx.next, o, i.exec.error, Events(i, o, k, result, ""))
  {
    hide Inv, CompleteIndependent, Stamped, Outputs, SortByStep, Append;
    AboutTheTask(i, id);
    var n := CompleteIndependentKeeps(i, id, result);
    var q, m := i.tasks[id], Marked(i, id, result, "");
    var done := Of(m.tasks[id], StepCompleted, Raw(result), "");
    CompleteIndependentLogs(m, id);
    OneMoreOutput(i.history, i.nextEvent, done);
  }

  lemma AppendedOutput(h: seq<Event>, e: Event)
    requires e.kind == StepCompleted
    ensures Outputs(h + [e]) == Outputs(h) + [OutputOf(e)]
  {
    assert (h + [e])[..|h|] == h;
  }

  lemma OneMoreOutput(h: seq<Event>, next: int, done: Entry)
    requires done.kind == StepCompleted && done.payload.Raw?
    ensures StepOutputs(h + Stamped(next, [done]))
            == SortByStep(Outputs(h) + [TaskOutput(done.step, done.stepName, done.payload.bytes)])
  {
    hide Outputs, SortByStep;
    var e := Event(next, done.kind, done.step, done.stepName, done.payload, done.error);
    assert Stamped(next, [done]) == [e];
    AppendedOutput(h, e);
  }

  lemma ChainTold(i: Instance, id: int, result: Bytes)
    requires Inv(i) && Live(i) && id in i.tasks && i.exec.workflowType != Independent
    ensures var k, tx := i.tasks[id].stepIndex, AdvanceChain(Marked(i, id, result, ""), id);
            var o := TaskOutcome(i, i.tasks[id], "");
            tx.Commit? && Told(i, tx.next, o, i.exec.error, Events(i, o, k, result, ""))
  {
    hide Inv, AdvanceChain, Stamped, Outputs, StepAt;
    AboutTheTask(i, id);
    var n := AdvanceChainKeeps(i, id, result);
    var m, k := Marked(i, id, result, ""), i.tasks[id].stepIndex;
    if k == |i.steps| {
      LastStepLogs(m, id);
    } else {
      StepAtFindsEveryIndex(i.steps, k + 1);
      NextStepLogs(m, id, i.steps[k]);
    }
  }

  lemma LiveIsNotTerminal(i: Instance)
    requires Inv(i)
    ensures Live(i) <==> !IsTerminal(i.exec.state)
  {
    hide Outputs, Undone, TablesOk, RecordOk;
    TerminalByName(i.exec.state);
  }

  lemma ReportTold(i: Instance, id: int, result: Bytes, err: string)
    requires Inv(i) && Live(i) && id in i.tasks
    ensures var o := TaskOutcome(i, i.tasks[id], err);
            Told(i, Next(i, Report(id, result, err)), o, ErrorAfter(o, i, Report(id, result, err)),
                 Events(i, o, i.tasks[id].stepIndex, result, err))
  {
    hide Inv, Told, Events, LastHandler, Outputs, RetryTask, FailSaga, FailExecution, CompleteIndependent,
      AdvanceChain;
    LiveIsNotTerminal(i);
    var q := i.tasks[id];
    if err != "" && q.attempt < q.maxAttempts {
      RetryTold(i, id, result, err);
    } else if err != "" && i.exec.workflowType == Saga {
      RollbackTold(i, id, result, err);
    } else if err != "" {
      FailExecutionTold(i, id, result, err);
    } else if i.exec.workflowType == Independent {
      IndependentTold(i, id, result);
    } else {
      ChainTold(i, id, result);
    }
  }

  // ---------------------------------------------------------------- reports on compensation tasks

  lemma AboutTheUndoing(i: Instance, id: int)
    requires Inv(i) && Live(i) && id in i.comps
    ensures i.exec.state == Compensating && i.exec.workflowType == Saga && WellFormed(i.steps)
    ensures Only(i.comps, id) && Ordered(i.history, i.nextEvent) && 0 <= i.nextEvent
    ensures var q := i.comps[id];
            1 <= q.stepIndex <= |i.steps| && q.stepName == i.steps[q.stepIndex - 1].stepName
  {
    LiveIsNotTerminal(i);
    CompensationMeansCompensating(i, id);
    OneCompensation(i, id);
    CompensationStepsSelect(i.steps, |Outputs(i.history)|);
    hide Outputs, Undone, Endings, RolledBack, Ordered, CompensationSteps, PhaseOk;
  }

  lemma RetryUndoTold(i: Instance, id: int, result: Bytes, err: string)
    requires Inv(i) && Live(i) && id in i.comps && err != ""
    ensures var k, tx := i.comps[id].stepIndex, RetryCompensation(MarkedCompensation(i, id, result, err), id);
            tx.Commit? && Told(i, tx.next, UndoRetried, i.exec.error, Events(i, UndoRetried, k, result, err))
  {
    hide Inv, RetryCompensation;
    AboutTheUndoing(i, id);
    var n := RetryCompensationKeeps(i, id, result, err);
    RetryCompensationLogs(MarkedCompensation(i, id, result, err), id);
  }

  lemma UndoFailedTold(i: Instance, id: int, result: Bytes, err: string)
    requires Inv(i) && Live(i) && id in i.comps
    ensures var q, tx := i.comps[id], FailRollback(MarkedCompensation(i, id, result, err), id);
            tx.Commit? && Told(i, tx.next, UndoFailed, RollbackFailure(q.stepName, err),
                               Events(i, UndoFailed, q.stepIndex, result, err))
  {
    hide Inv, FailRollback, Stamped, RollbackFailure;
    AboutTheUndoing(i, id);
    FailRollbackLogs(MarkedCompensation(i, id, result, err), id);
  }

  /** The list of steps to undo goes on below the present one. */
  lemma RestOfTheList(i: Instance, id: int)
    requires Inv(i) && Live(i) && id in i.comps
    ensures i.exec.state == Compensating && 1 <= i.comps[id].stepIndex <= |i.steps| && Indexed(i.steps)
    ensures var rest := CompensationSteps(i.steps, i.comps[id].stepIndex - 1);
            && (rest == [] <==> i.exec.compensationDone + 1 >= i.exec.compensationTotal)
            && (rest != [] ==> FirstWithOutput(rest, Recorded(i)) == Some(rest[0]))
  {
    hide Outputs, Undone, Endings, RolledBack, Ordered, Recorded, CompensationSteps, FirstWithOutput, Only, TablesOk;
    AboutTheUndoing(i, id);
    assert i.exec.compensationDone == |Undone(i.history)|
           && i.exec.compensationTotal == |CompensationSteps(i.steps, |Outputs(i.history)|)|;
    var e := CompensationSteps(i.steps, |Outputs(i.history)|);
    var next := NextToUndo(i, id);
    AskingAgainContinues(i.steps, |Outputs(i.history)|, |Undone(i.history)|);
    hide Inv;
    assert CompensationSteps(i.steps, i.comps[id].stepIndex - 1) == e[|Undone(i.history)| + 1..];
    NoStepNoneFound(Recorded(i));
  }

  lemma NoStepNoneFound(outputs: map<int, Bytes>)
    ensures FirstWithOutput([], outputs) == None
  {
  }

  /** Where the search for the next step to undo leads. */
  lemma NextHandler(i: Instance, id: int)
    requires Inv(i) && Live(i) && id in i.comps
    ensures i.exec.state == Compensating && 1 <= i.comps[id].stepIndex <= |i.steps|
    ensures var k := LastHandler(i.steps, i.comps[id].stepIndex - 1);
            && (k == 0 <==> i.exec.compensationDone + 1 >= i.exec.compensationTotal)
            && (k > 0 ==> FirstWithOutput(CompensationSteps(i.steps, i.comps[id].stepIndex - 1), Recorded(i))
                          == Some(i.steps[k - 1]))
  {
    hide Inv, Recorded, CompensationSteps, FirstWithOutput, LastHandler, Indexed;
    RestOfTheList(i, id);
    QueryBeginsWithTheLast(i.steps, i.comps[id].stepIndex - 1);
  }

  lemma UndoneTold(i: Instance, id: int, result: Bytes)
    requires Inv(i) && Live(i) && id in i.comps
    ensures var q, tx := i.comps[id], AdvanceRollback(MarkedCompensation(i, id, result, ""), id);
            var o := UndoOutcome(i, q, "");
            tx.Commit? && Told(i, tx.next, o, i.exec.error, Events(i, o, q.stepIndex, result, ""))
  {
    hide Inv, AdvanceRollback, Stamped, Recorded, CompensationSteps, FirstWithOutput, LastHandler, Outputs,
      StepUndone;
    AboutTheUndoing(i, id);
    NextHandler(i, id);
    var n := AdvanceRollbackKeeps(i, id, result);
    var m, k := MarkedCompensation(i, id, result, ""), LastHandler(i.steps, i.comps[id].stepIndex - 1);
    if k == 0 {
      AllUndoneLogs(m, id);
    } else {
      SameRecord(i, id, result);
      OneUndoneLogs(m, id, i.steps[k - 1]);
    }
  }

  lemma SameRecord(i: Instance, id: int, result: Bytes)
    requires Ordered(i.history, i.nextEvent) && 0 <= i.nextEvent && Only(i.comps, id)
    ensures Recorded(StepUndone(MarkedCompensation(i, id, result, ""), id)) == Recorded(i)
  {
    hide Recorded, Log;
    var k := CountedRollbackEffect(i, id, result);
  }

  lemma ReportCompensationTold(i: Instance, id: int, result: Bytes, err: string)
    requires Inv(i) && Live(i) && id in i.comps
    ensures var o := UndoOutcome(i, i.comps[id], err);
            Told(i, Next(i, ReportCompensation(id, result, err)), o,
                 ErrorAfter(o, i, ReportCompensation(id, result, err)),
                 Events(i, o, i.comps[id].stepIndex, result, err))
  {
    hide Inv, Told, Events, LastHandler, RetryCompensation, FailRollback, AdvanceRollback;
    LiveIsNotTerminal(i);
    var q := i.comps[id];
    if err != "" && q.attempt < q.maxAttempts {
      RetryUndoTold(i, id, result, err);
    } else if err != "" {
      UndoFailedTold(i, id, result, err);
    } else {
      UndoneTold(i, id, result);
    }
  }

  // ---------------------------------------------------------------- every step

  lemma SameTold(i: Instance, n: Instance)
    requires n.exec == i.exec && n.history == i.history
    ensures Told(i, n, NoEffect, i.exec.error, [])
  {
  }

  lemma LateReportTold(i: Instance, a: Action)
    requires (a.Report? && (IsTerminal(i.exec.state) || a.id !in i.tasks))
             || (a.ReportCompensation? && (IsTerminal(i.exec.state) || a.id !in i.comps))
    ensures Next(i, a).exec == i.exec && Next(i, a).history == i.history
  {
  }

  lemma QuietStepTold(i: Instance, a: Action)
    requires a.Poll? || a.PollCompensation? || a.Heartbeat? || a.HeartbeatCompensation? || a.LostReport? || a.Elsewhere?
    ensures Next(i, a).exec == i.exec && Next(i, a).history == i.history
  {
  }

  lemma CancelTold(i: Instance)
    requires Inv(i)
    ensures var o := OutcomeOf(i, None, Cancel); Told(i, Next(i, Cancel), o, i.exec.error, Events(i, o, 0, [], ""))
  {
    hide Inv, Stamped, CancelRows, Log;
    LiveIsNotTerminal(i);
    if Live(i) { CancelLogs(i); } else { SameTold(i, i); }
  }

  lemma ExpiryTold(i: Instance)
    requires Inv(i)
    ensures var o := OutcomeOf(i, PlanOf(i).deadline, ExpireOverdue);
            Told(i, Next(i, ExpireOverdue), o, ErrorAfter(o, i, ExpireOverdue), Events(i, o, 0, [], ""))
  {
    hide Inv;
    LiveIsNotTerminal(i);
  }

  lemma SweepTold(i: Instance)
    ensures var o := OutcomeOf(i, None, SweepStep);
            Told(i, Next(i, SweepStep), o, i.exec.error, Events(i, o, 0, [], ""))
  {
    hide Stamped, Log, CancelRows;
    SweepLogs(i);
  }

  /** The verdict on one step: its outcome, read off the definition, the results recorded so far and the
      clock, determines the state and the error that it leaves and the events that it writes. */
  lemma EveryStepIsTold(i: Instance, a: Action)
    requires Inv(i)
    ensures var o := OutcomeOf(i, PlanOf(i).deadline, a); Told(i, Next(i, a), o, ErrorAfter(o, i, a), EventsOf(i, o, a))
  {
    hide Inv, Told, Next, LastHandler, TaskOutcome, UndoOutcome;
    LiveIsNotTerminal(i);
    match a
    case Report(id, result, err) =>
      if Live(i) && id in i.tasks { ReportTold(i, id, result, err); } else { NoReport(i, a); }
    case ReportCompensation(id, result, err) =>
      if Live(i) && id in i.comps { ReportCompensationTold(i, id, result, err); } else { NoReport(i, a); }
    case Cancel => CancelTold(i);
    case ExpireOverdue => ExpiryTold(i);
    case SweepStep => SweepTold(i);
    case RecoverAtStartup =>
      RecoveryIsNothing(i);
      SameTold(i, i);
    case _ =>
      QuietStepTold(i, a);
      SameTold(i, Next(i, a));
  }

  lemma RecoveryIsNothing(i: Instance)
    requires Inv(i)
    ensures Next(i, RecoverAtStartup) == i
  {
    hide Inv, Recover;
    RecoveryFindsNothing(i);
  }

  lemma NoReport(i: Instance, a: Action)
    requires (a.Report? && (IsTerminal(i.exec.state) || a.id !in i.tasks))
             || (a.ReportCompensation? && (IsTerminal(i.exec.state) || a.id !in i.comps))
    ensures Told(i, Next(i, a), NoEffect, i.exec.error, [])
    ensures forall k, result, err :: Events(i, NoEffect, k, result, err) == []
  {
    hide Next;
    LateReportTold(i, a);
    SameTold(i, Next(i, a));
  }
}
