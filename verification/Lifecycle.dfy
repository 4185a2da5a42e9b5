/** How executions end, in every run. */
module Lifecycle {
  import opened StateMachine
  import opened Domain
  import opened Rows
  import opened Definitions
  import opened History
  import opened Instances
  import opened Invariants
  import opened Preservation
  import opened RollbackPreservation
  import opened Runs
  import opened RowFates
  import opened Starting

  /** The states an execution goes through in a run, repetitions left out. */
  function StatePath(i: Instance, acts: seq<Action>): seq<State> {
    if acts == [] then [i.exec.state]
    else
      var path, s := StatePath(i, acts[..|acts| - 1]), Run(i, acts).exec.state;
      if path != [] && path[|path| - 1] == s then path else path + [s]
  }

  lemma {:induction false} StatePathFollowsTheTable(i: Instance, acts: seq<Action>)
    requires Inv(i)
    ensures var path := StatePath(i, acts);
            path != [] && path[0] == i.exec.state && path[|path| - 1] == Run(i, acts).exec.state && IsPath(path)
  {
    hide Inv, Next;
    if acts != [] {
      var front := acts[..|acts| - 1];
      StatePathFollowsTheTable(i, front);
      RunKeeps(i, front);
      NextKeeps(Run(i, front), acts[|acts| - 1]);
    }
  }

  /** Every committed change of state is an edge of the transition table, although cancelling,
      expiry and the saga endings never consult it: an execution starts RUNNING, is never seen
      CREATED, changes state at most twice, and is COMPENSATING only if it is a SAGA. */
  lemma StatesFollowTheTable(r: Request, acts: seq<Action>)
    requires WellFormed(r.steps)
    ensures var path := StatePath(Begin(r), acts);
            && path != [] && path[0] == Running && path[|path| - 1] == Run(Begin(r), acts).exec.state
            && IsPath(path) && |path| <= 3 && Created !in path
    ensures Run(Begin(r), acts).exec.state == Compensating ==> r.kind == Saga
  {
    hide Begin, Run, StatePath;
    BeginKeeps(r);
    AfterAnyRun(r, acts);
    StatePathFollowsTheTable(Begin(r), acts);
    PathsAreShort(StatePath(Begin(r), acts));
    NeverBackToCreated(StatePath(Begin(r), acts));
  }

  lemma NeverBackToCreated(path: seq<State>)
    requires IsPath(path) && path != [] && path[0] != Created
    ensures Created !in path
  {
    forall k | 0 <= k < |path| ensures path[k] != Created {
      if k > 0 {
        assert CanMove(path[k - 1], path[k]);
      }
    }
  }

  // ---------------------------------------------------------------- quiescence

  /** A terminal execution that no expiry sweep is still working on. */
  ghost predicate Closed(i: Instance) {
    IsTerminal(i.exec.state) && i.sweep == Idle
  }

  /** The only step that still writes to a closed execution is a report, and it writes to the
      reported row alone. */
  lemma ClosedStep(i: Instance, a: Action)
    requires Inv(i) && Closed(i)
    ensures var n := Next(i, a);
            && n.exec == i.exec && n.history == i.history && n.sweep == Idle && n.checkpoints == i.checkpoints
            && n.tasks == (if a.Report? && a.id in i.tasks
                           then i.tasks[a.id := ReportRow(i.tasks[a.id], a.result, a.err)] else i.tasks)
            && n.comps == (if a.ReportCompensation? && a.id in i.comps
                           then i.comps[a.id := ReportRow(i.comps[a.id], a.result, a.err)] else i.comps)
  {
    hide Outputs, Undone, Endings, RolledBack, Ordered, RetryTask, FailSaga, FailExecution, CompleteIndependent,
      AdvanceChain, RetryCompensation, FailRollback, AdvanceRollback, TasksOk, CompensationsOk, RecordOk;
    TerminalByName(i.exec.state);
    assert ClosedOk(i);
  }

  /** What a report that comes too late still writes: the state, the result and the error of its own
      row, and nothing else. */
  lemma LateReportMarks(i: Instance, id: int, result: Bytes, err: string)
    requires IsTerminal(i.exec.state)
    ensures id in i.tasks ==>
              Next(i, Report(id, result, err)) == i.(tasks := i.tasks[id :=
                i.tasks[id].(state := if err == "" then Completed else Failed, output := result, error := err)])
    ensures id in i.comps ==>
              Next(i, ReportCompensation(id, result, err)) == i.(comps := i.comps[id :=
                i.comps[id].(state := if err == "" then Completed else Failed, output := result, error := err)])
    ensures id !in i.tasks ==> Next(i, Report(id, result, err)) == i
    ensures id !in i.comps ==> Next(i, ReportCompensation(id, result, err)) == i
  {
  }

  /** Terminal executions are quiescent: state, result, counters and history never change again,
      and no task of either table is or becomes active. */
  lemma {:induction false} ClosedForever(i: Instance, acts: seq<Action>)
    requires Inv(i) && Closed(i)
    ensures var n := Run(i, acts);
            n.exec == i.exec && n.history == i.history && n.sweep == Idle && NoneActive(n.tasks) && NoneActive(n.comps)
  {
    hide Inv, Next;
    RunKeeps(i, acts);
    if acts == [] {
      assert NoneActive(i.tasks) && NoneActive(i.comps) by { ClosedHasNoActive(i); }
    } else {
      var front := acts[..|acts| - 1];
      ClosedForever(i, front);
      RunKeeps(i, front);
      ClosedStep(Run(i, front), acts[|acts| - 1]);
      ClosedHasNoActive(Run(i, acts));
    }
  }

  lemma ClosedHasNoActive(i: Instance)
    requires Inv(i) && Closed(i)
    ensures NoneActive(i.tasks) && NoneActive(i.comps)
  {
    hide Outputs, Undone, Endings, RolledBack, Ordered;
    TerminalByName(i.exec.state);
  }

  /** The history has an ending event exactly when the execution is closed; then it has one, it is
      the last event, and it is the one for the execution's state. Between the expiry's change of
      state and the end of its sweep there is none yet. The result column is never written. */
  lemma OneEndingAtTheEnd(r: Request, acts: seq<Action>)
    requires WellFormed(r.steps)
    ensures var i := Run(Begin(r), acts);
            && Endings(i.history) == (if Closed(i) then [EndingOf(i.exec.state)] else [])
            && (Closed(i) ==> i.history != [] && i.history[|i.history| - 1].kind == EndingOf(i.exec.state))
            && (i.sweep != Idle ==> i.exec.state == Failed)
            && i.exec.result == None
  {
    hide Outputs, Undone, Endings, RolledBack, Ordered, Begin, Run;
    AfterAnyRun(r, acts);
    TerminalByName(Run(Begin(r), acts).exec.state);
  }

  // ---------------------------------------------------------------- effectively-once settlement

  /** An id that was issued and is no longer in the task table. */
  predicate Gone(i: Instance, id: int) {
    id !in i.tasks && id < i.nextId
  }

  lemma {:induction false} GoneForever(i: Instance, id: int, acts: seq<Action>)
    requires Inv(i) && Gone(i, id)
    ensures Gone(Run(i, acts), id)
  {
    hide Inv, Next;
    if acts != [] {
      GoneForever(i, id, acts[..|acts| - 1]);
      RunKeeps(i, acts[..|acts| - 1]);
      NextKeeps(Run(i, acts[..|acts| - 1]), acts[|acts| - 1]);
    }
  }

  /** Every accepted report removes its row. */
  lemma AcceptedIsGone(i: Instance, id: int, result: Bytes, err: string)
    requires Inv(i) && id in i.tasks && !IsTerminal(i.exec.state)
    ensures Gone(Next(i, Report(id, result, err)), id)
  {
    RowsAreDistinct(i);
    Fates(i, Report(id, result, err), id);
    NextKeeps(i, Report(id, result, err));
    hide Inv, Next, CompensationFate;
  }

  /** Delivery is at least once, settlement effectively once: after a report on a task id, any
      later report on the same id, whatever happened in between, either fails without effect or
      finds the execution terminal and touches only its own row. */
  lemma SecondReportIsHarmless(i: Instance, id: int, first: (Bytes, string), acts: seq<Action>, second: (Bytes, string))
    requires Inv(i) && id in i.tasks
    ensures var before := Run(Next(i, Report(id, first.0, first.1)), acts);
            var after := Next(before, Report(id, second.0, second.1));
            || (!IsTerminal(i.exec.state) && after == before)
            || (IsTerminal(before.exec.state) && id in before.tasks
                && after == before.(tasks := before.tasks[id := ReportRow(before.tasks[id], second.0, second.1)]))
  {
    hide Inv, Run;
    var s := Next(i, Report(id, first.0, first.1));
    NextKeeps(i, Report(id, first.0, first.1));
    if IsTerminal(i.exec.state) {
      TerminalStays(s, acts);
      RunKeepsKeys(s, acts, id);
    } else {
      AcceptedIsGone(i, id, first.0, first.1);
      GoneForever(s, id, acts);
    }
  }

  lemma {:induction false} TerminalStays(i: Instance, acts: seq<Action>)
    requires Inv(i) && IsTerminal(i.exec.state)
    ensures IsTerminal(Run(i, acts).exec.state)
  {
    hide Inv, Next;
    if acts != [] {
      TerminalStays(i, acts[..|acts| - 1]);
      RunKeeps(i, acts[..|acts| - 1]);
      NextKeeps(Run(i, acts[..|acts| - 1]), acts[|acts| - 1]);
    }
  }

  /** No step removes a row of a terminal execution. */
  lemma TerminalKeepsRows(i: Instance, a: Action, id: int)
    requires Inv(i) && IsTerminal(i.exec.state) && id in i.tasks
    ensures id in Next(i, a).tasks
  {
    hide Inv, Append, RetryTask, FailSaga, FailExecution, CompleteIndependent, AdvanceChain, RetryCompensation,
      FailRollback, AdvanceRollback;
    RecoveryFindsNothing(i);
  }

  lemma {:induction false} RunKeepsKeys(i: Instance, acts: seq<Action>, id: int)
    requires Inv(i) && IsTerminal(i.exec.state) && id in i.tasks
    ensures id in Run(i, acts).tasks
  {
    hide Inv, Next;
    if acts != [] {
      RunKeepsKeys(i, acts[..|acts| - 1], id);
      RunKeeps(i, acts[..|acts| - 1]);
      TerminalStays(i, acts[..|acts| - 1]);
      TerminalKeepsRows(Run(i, acts[..|acts| - 1]), acts[|acts| - 1], id);
    }
  }

  // ---------------------------------------------------------------- the same for compensation tasks

  predicate GoneCompensation(i: Instance, id: int) {
    id !in i.comps && id < i.nextId
  }

  lemma {:induction false} GoneCompensationForever(i: Instance, id: int, acts: seq<Action>)
    requires Inv(i) && GoneCompensation(i, id)
    ensures GoneCompensation(Run(i, acts), id)
  {
    hide Inv, Next;
    if acts != [] {
      GoneCompensationForever(i, id, acts[..|acts| - 1]);
      RunKeeps(i, acts[..|acts| - 1]);
      NextKeeps(Run(i, acts[..|acts| - 1]), acts[|acts| - 1]);
    }
  }

  lemma AcceptedCompensationIsGone(i: Instance, id: int, result: Bytes, err: string)
    requires Inv(i) && id in i.comps && !IsTerminal(i.exec.state)
    ensures GoneCompensation(Next(i, ReportCompensation(id, result, err)), id)
  {
    RowsAreDistinct(i);
    Fates(i, ReportCompensation(id, result, err), id);
    NextKeeps(i, ReportCompensation(id, result, err));
    hide Inv, Next, TaskFate;
  }

  lemma TerminalKeepsCompensations(i: Instance, a: Action, id: int)
    requires Inv(i) && IsTerminal(i.exec.state) && id in i.comps
    ensures id in Next(i, a).comps
  {
    hide Inv, Append, RetryTask, FailSaga, FailExecution, CompleteIndependent, AdvanceChain, RetryCompensation,
      FailRollback, AdvanceRollback;
    RecoveryFindsNothing(i);
  }

  lemma {:induction false} RunKeepsCompensationKeys(i: Instance, acts: seq<Action>, id: int)
    requires Inv(i) && IsTerminal(i.exec.state) && id in i.comps
    ensures id in Run(i, acts).comps
  {
    hide Inv, Next;
    if acts != [] {
      RunKeepsCompensationKeys(i, acts[..|acts| - 1], id);
      RunKeeps(i, acts[..|acts| - 1]);
      TerminalStays(i, acts[..|acts| - 1]);
      TerminalKeepsCompensations(Run(i, acts[..|acts| - 1]), acts[|acts| - 1], id);
    }
  }

  /** After a report on a compensation task, any later report on the same id fails without effect or
      touches only its own row of a terminal execution. */
  lemma SecondCompensationReportIsHarmless(i: Instance, id: int, first: (Bytes, string), acts: seq<Action>,
                                           second: (Bytes, string))
    requires Inv(i) && id in i.comps
    ensures var before := Run(Next(i, ReportCompensation(id, first.0, first.1)), acts);
            var after := Next(before, ReportCompensation(id, second.0, second.1));
            || (!IsTerminal(i.exec.state) && after == before)
            || (IsTerminal(before.exec.state) && id in before.comps
                && after == before.(comps := before.comps[id := ReportRow(before.comps[id], second.0, second.1)]))
  {
    hide Inv, Run;
    var s := Next(i, ReportCompensation(id, first.0, first.1));
    NextKeeps(i, ReportCompensation(id, first.0, first.1));
    if IsTerminal(i.exec.state) {
      TerminalStays(s, acts);
      RunKeepsCompensationKeys(s, acts, id);
    } else {
      AcceptedCompensationIsGone(i, id, first.0, first.1);
      GoneCompensationForever(s, id, acts);
    }
  }

  /** At most one result is recorded per step, in every run. */
  lemma OneResultPerStep(r: Request, acts: seq<Action>)
    requires WellFormed(r.steps)
    ensures DistinctSteps(Outputs(Run(Begin(r), acts).history))
  {
    hide Outputs, Undone, Endings, RolledBack, Ordered, Begin, Run;
    AfterAnyRun(r, acts);
  }
}
