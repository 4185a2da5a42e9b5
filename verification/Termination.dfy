/** Executions end: each report that a live execution takes uses up some of a budget fixed by the
    step definitions. */
module Termination {
  import opened StateMachine
  import opened Domain
  import opened Rows
  import opened Definitions
  import opened History
  import opened Instances
  import opened Invariants
  import opened Preservation
  import opened RollbackPreservation
  import opened Runs
  import opened Starting

  /** How many reports a task may still take: its remaining retries and the final report. */
  function Weight(r: Row): nat {
    if r.attempt < r.maxAttempts then r.maxAttempts - r.attempt + 1 else 1
  }

  function Cost(s: StepDef): nat {
    if s.maxAttempts > 0 then s.maxAttempts + 1 else 1
  }

  /** The sum of MaxAttempts + 1 over a list of steps. */
  function Budget(steps: seq<StepDef>): nat {
    if steps == [] then 0 else Cost(steps[0]) + Budget(steps[1..])
  }

  ghost function WeightAt(rows: map<int, Row>, k: int): nat {
    if HasRow(rows, k) then var id :| id in rows && rows[id].stepIndex == k; Weight(rows[id]) else 0
  }

  ghost function TotalWeight(rows: map<int, Row>, n: nat): nat {
    if n == 0 then 0 else TotalWeight(rows, n - 1) + WeightAt(rows, n)
  }

  lemma WeightOfRow(rows: map<int, Row>, id: int)
    requires DistinctRows(rows) && id in rows
    ensures WeightAt(rows, rows[id].stepIndex) == Weight(rows[id])
  {
    assert HasRow(rows, rows[id].stepIndex);
  }

  /** Away from step s the rows of b are those of a, as far as steps and weights go. */
  ghost predicate SameBut(a: map<int, Row>, b: map<int, Row>, s: int) {
    && (forall x :: x in a && a[x].stepIndex != s ==>
          x in b && b[x].stepIndex == a[x].stepIndex && Weight(b[x]) == Weight(a[x]))
    && (forall x :: x in b && b[x].stepIndex != s ==> x in a && a[x].stepIndex == b[x].stepIndex)
  }

  lemma SameWeightAt(a: map<int, Row>, b: map<int, Row>, s: int, k: int)
    requires DistinctRows(a) && DistinctRows(b) && SameBut(a, b, s) && k != s
    ensures WeightAt(a, k) == WeightAt(b, k)
  {
    if HasRow(a, k) {
      var x :| x in a && a[x].stepIndex == k;
      WeightOfRow(a, x);
      WeightOfRow(b, x);
    }
  }

  lemma {:induction false} Reweighed(a: map<int, Row>, b: map<int, Row>, s: int, n: nat)
    requires DistinctRows(a) && DistinctRows(b) && SameBut(a, b, s)
    ensures 1 <= s <= n ==> TotalWeight(b, n) + WeightAt(a, s) == TotalWeight(a, n) + WeightAt(b, s)
    ensures !(1 <= s <= n) ==> TotalWeight(b, n) == TotalWeight(a, n)
  {
    if n > 0 {
      Reweighed(a, b, s, n - 1);
      if n != s {
        SameWeightAt(a, b, s, n);
      }
    }
  }

  lemma {:induction false} NoRowsWeighNothing(rows: map<int, Row>, n: nat)
    requires NoRows(rows)
    ensures TotalWeight(rows, n) == 0
  {
    if n > 0 {
      NoRowsWeighNothing(rows, n - 1);
    }
  }

  lemma OnlyRowWeighs(rows: map<int, Row>, id: int, n: nat)
    requires Only(rows, id) && 1 <= rows[id].stepIndex <= n
    ensures TotalWeight(rows, n) == Weight(rows[id])
  {
    var none: map<int, Row> := map[];
    NoRowsWeighNothing(none, n);
    assert !HasRow(none, rows[id].stepIndex);
    Reweighed(none, rows, rows[id].stepIndex, n);
    WeightOfRow(rows, id);
  }

  lemma {:induction false} WeighsAtLeast(rows: map<int, Row>, id: int, n: nat)
    requires DistinctRows(rows) && id in rows && 1 <= rows[id].stepIndex <= n
    ensures TotalWeight(rows, n) >= Weight(rows[id])
  {
    if rows[id].stepIndex == n {
      WeightOfRow(rows, id);
    } else {
      WeighsAtLeast(rows, id, n - 1);
    }
  }

  function From<T>(s: seq<T>, m: nat): seq<T> {
    if m <= |s| then s[m..] else []
  }

  /** An upper bound on the reports an execution can still take. */
  ghost function Potential(i: Instance): nat {
    match i.exec.state
    case Running =>
      TotalWeight(i.tasks, |i.steps|)
      + (if i.exec.workflowType == Independent then 0 else Budget(From(i.steps, |Outputs(i.history)| + 1)))
      + (if i.exec.workflowType == Saga then Budget(i.steps) else 0)
    case Compensating =>
      TotalWeight(i.comps, |i.steps|)
      + Budget(From(Undoable(PlanOf(i), |Outputs(i.history)|), |Undone(i.history)| + 1))
    case _ => 0
  }

  lemma {:induction false} BudgetOfAll(steps: seq<StepDef>, more: seq<StepDef>)
    ensures Budget(steps + more) == Budget(steps) + Budget(more)
  {
    if steps == [] {
      assert steps + more == more;
    } else {
      BudgetOfAll(steps[1..], more);
      assert (steps + more)[1..] == steps[1..] + more;
    }
  }

  lemma BudgetFrom(steps: seq<StepDef>, m: nat)
    requires m < |steps|
    ensures Budget(From(steps, m)) == Cost(steps[m]) + Budget(From(steps, m + 1))
  {
    assert steps[m..][1..] == steps[m + 1..];
  }

  lemma {:induction false} UndoingCostsLess(steps: seq<StepDef>, upTo: int)
    ensures Budget(CompensationSteps(steps, upTo)) <= Budget(steps)
  {
    if steps != [] {
      var front, last := steps[..|steps| - 1], steps[|steps| - 1];
      UndoingCostsLess(front, upTo);
      BudgetOfAll(front, [last]);
      assert steps == front + [last];
      BudgetOfAll([last], CompensationSteps(front, upTo));
    }
  }

  // ---------------------------------------------------------------- reports on tasks

  /** A report that reaches a task of an execution that is not over. */
  predicate Live(i: Instance, a: Action) {
    && !IsTerminal(i.exec.state)
    && ((a.Report? && a.id in i.tasks) || (a.ReportCompensation? && a.id in i.comps))
  }

  lemma RetryUses(i: Instance, id: int, result: Bytes, err: string)
    requires Inv(i) && id in i.tasks && i.exec.state == Running && i.tasks[id].attempt < i.tasks[id].maxAttempts
    ensures Potential(RetryTask(Marked(i, id, result, err), id).next) < Potential(i)
    ensures RetryTask(Marked(i, id, result, err), id).Commit?
  {
    hide Outputs, Undone, Endings, RolledBack, Ordered, RetryTask, CompensationsOk, RecordOk, Budget, TotalWeight,
      WeightAt;
    assert TaskOk(PlanOf(i), Outputs(i.history), i.tasks[id]);
    var r := RetryRow(ReportRow(i.tasks[id], result, err), i.now);
    assert Ordered(i.history, i.nextEvent) && 0 <= i.nextEvent by { RecordOrdered(i); }
    var n := RetryTaskEffect(i, id, result, err);
    SwapReweighs(i.tasks, id, i.nextId, r, |i.steps|);
  }

  lemma RecordOrdered(i: Instance)
    requires RecordOk(i)
    ensures Ordered(i.history, i.nextEvent) && 0 <= i.nextEvent
  {
  }

  lemma SwapReweighs(rows: map<int, Row>, id: int, newId: int, r: Row, n: nat)
    requires DistinctRows(rows) && id in rows && newId !in rows && r.stepIndex == rows[id].stepIndex
    requires 1 <= r.stepIndex <= n
    ensures TotalWeight(Swapped(rows, id, newId, r), n) + Weight(rows[id]) == TotalWeight(rows, n) + Weight(r)
  {
    var after := Swapped(rows, id, newId, r);
    SwapKeepsSteps(rows, id, newId, r);
    hide TotalWeight, WeightAt, Weight;
    Reweighed(rows, after, r.stepIndex, n);
    WeightOfRow(rows, id);
    assert newId in after;
    WeightOfRow(after, newId);
  }

  lemma DropReweighs(rows: map<int, Row>, id: int, n: nat)
    requires DistinctRows(rows) && id in rows && 1 <= rows[id].stepIndex <= n
    ensures TotalWeight(rows - {id}, n) + Weight(rows[id]) == TotalWeight(rows, n)
  {
    var after := rows - {id};
    assert !HasRow(after, rows[id].stepIndex);
    Reweighed(rows, after, rows[id].stepIndex, n);
    WeightOfRow(rows, id);
  }

  lemma ActiveExecutionHasPotential(i: Instance)
    requires Inv(i) && !IsTerminal(i.exec.state)
    ensures Potential(i) > 0
  {
    hide Outputs, Undone, Endings, RolledBack, Ordered, Budget, TotalWeight, RecordOk, Undoable;
    TerminalByName(i.exec.state);
    if i.exec.state == Running {
      var id :| id in i.tasks;
      assert TaskOk(PlanOf(i), Outputs(i.history), i.tasks[id]);
      WeighsAtLeast(i.tasks, id, |i.steps|);
    } else {
      var id :| id in i.comps;
      CompensationInRange(i, id);
      WeighsAtLeast(i.comps, id, |i.steps|);
    }
  }

  lemma CompensationInRange(i: Instance, id: int)
    requires Inv(i) && id in i.comps
    ensures 1 <= i.comps[id].stepIndex <= |i.steps|
  {
    hide Outputs, Undone, CompensationSteps;
    OneCompensation(i, id);
    CompensationStepsSelect(i.steps, |Outputs(i.history)|);
  }

  lemma FailSagaUses(i: Instance, id: int, result: Bytes, err: string)
    requires Inv(i) && id in i.tasks && i.exec.state == Running && i.exec.workflowType == Saga
    ensures var tx := FailSaga(Marked(i, id, result, err), id);
            tx.Commit? && Potential(tx.next) < Potential(i)
  {
    hide Inv, Outputs, Undone, Endings, RolledBack, Ordered, FailSaga, Recorded, WithOutput, CompensationSteps,
      Budget, TotalWeight, CompensationOk, DistinctRows, WellFormed;
    WhileInSequence(i, id);
    var n, e := FailSagaParts(i, id, result, err);
    WhileRunning(i);
    WeighsAtLeast(i.tasks, id, |i.steps|);
    UndoingCostsLess(i.steps, |Outputs(i.history)|);
    if e != [] {
      UndoableInRange(i, 0);
      assert Only(n.comps, i.nextId);
      OnlyRowWeighs(n.comps, i.nextId, |i.steps|);
      BudgetFrom(e, 0);
    }
  }

  lemma CompleteIndependentUses(i: Instance, id: int, result: Bytes)
    requires Inv(i) && id in i.tasks && i.exec.state == Running && i.exec.workflowType == Independent
    ensures var tx := CompleteIndependent(Marked(i, id, result, ""), id);
            tx.Commit? && Potential(tx.next) < Potential(i)
  {
    hide Outputs, Undone, Endings, RolledBack, Ordered, CompleteIndependent, TotalWeight, SortByStep;
    assert TaskOk(PlanOf(i), Outputs(i.history), i.tasks[id]);
    var n := CompleteIndependentEffect(i, id, result);
    DropReweighs(i.tasks, id, |i.steps|);
  }

  lemma AdvanceChainUses(i: Instance, id: int, result: Bytes)
    requires Inv(i) && id in i.tasks && i.exec.state == Running && i.exec.workflowType != Independent
    ensures var tx := AdvanceChain(Marked(i, id, result, ""), id);
            tx.Commit? && Potential(tx.next) < Potential(i)
  {
    hide Outputs, Undone, Endings, RolledBack, Ordered, AdvanceChain, TotalWeight, Budget, CompensationsOk, UndoneOk;
    var k := i.tasks[id].stepIndex;
    OneTask(i, id);
    assert TaskOk(PlanOf(i), Outputs(i.history), i.tasks[id]);
    OnlyRowWeighs(i.tasks, id, |i.steps|);
    if k == |i.steps| {
      var n := FinishChainEffect(i, id, result);
    } else {
      var n := NextStepEffect(i, id, result);
      assert Only(n.tasks, i.nextId);
      OnlyRowWeighs(n.tasks, i.nextId, |i.steps|);
      BudgetFrom(i.steps, k);
    }
  }

  lemma FailExecutionUses(i: Instance, id: int, result: Bytes, err: string)
    requires Inv(i) && id in i.tasks && i.exec.state == Running
    ensures var tx := FailExecution(Marked(i, id, result, err), id);
            tx.Commit? && Potential(tx.next) < Potential(i)
  {
    hide Outputs, Undone, Endings, RolledBack, Ordered, FailExecution, TotalWeight, Budget;
    TerminalByName(Running);
    ActiveExecutionHasPotential(i);
    var n := FailExecutionEffect(i, id, result, err);
  }

  lemma ReportUses(i: Instance, a: Action)
    requires Inv(i) && a.Report? && Live(i, a)
    ensures Potential(Next(i, a)) < Potential(i)
  {
    hide Potential, Outputs, Undone, RetryTask, FailSaga, FailExecution, CompleteIndependent, AdvanceChain, TablesOk,
      RecordOk;
    var id, result, err := a.id, a.result, a.err;
    var j := Marked(i, id, result, err);
    TerminalByName(i.exec.state);
    if err != "" && j.tasks[id].attempt < j.tasks[id].maxAttempts {
      RetryUses(i, id, result, err);
    } else if err != "" && i.exec.workflowType == Saga {
      FailSagaUses(i, id, result, err);
    } else if err != "" {
      FailExecutionUses(i, id, result, err);
    } else if i.exec.workflowType == Independent {
      CompleteIndependentUses(i, id, result);
    } else {
      AdvanceChainUses(i, id, result);
    }
  }

  // ---------------------------------------------------------------- reports on compensation tasks

  lemma RetryCompensationUses(i: Instance, id: int, result: Bytes, err: string)
    requires Inv(i) && id in i.comps && i.exec.state == Compensating && i.comps[id].attempt < i.comps[id].maxAttempts
    ensures var tx := RetryCompensation(MarkedCompensation(i, id, result, err), id);
            tx.Commit? && Potential(tx.next) < Potential(i)
  {
    hide Outputs, Undone, Endings, RolledBack, Ordered, RetryCompensation, Budget, TotalWeight, Undoable;
    OneCompensation(i, id);
    CompensationInRange(i, id);
    var n := RetryCompensationKeeps(i, id, result, err);
    OnlyRowWeighs(i.comps, id, |i.steps|);
    assert Only(n.comps, i.nextId);
    OnlyRowWeighs(n.comps, i.nextId, |i.steps|);
  }

  lemma AdvanceRollbackUses(i: Instance, id: int, result: Bytes)
    requires Inv(i) && id in i.comps && i.exec.state == Compensating
    ensures var tx := AdvanceRollback(MarkedCompensation(i, id, result, ""), id);
            tx.Commit? && Potential(tx.next) < Potential(i)
  {
    hide Outputs, Undone, Endings, RolledBack, Ordered, AdvanceRollback, FirstWithOutput, CompensationSteps, Recorded,
      Budget, TotalWeight, Undoable;
    OneCompensation(i, id);
    CompensationInRange(i, id);
    OnlyRowWeighs(i.comps, id, |i.steps|);
    var next := NextToUndo(i, id);
    var n := AdvanceRollbackEffect(i, id, result, next);
    if next.Some? {
      var e, done := Undoable(PlanOf(i), |Outputs(i.history)|), |Undone(i.history)|;
      BudgetFrom(e, done + 1);
      assert Only(n.comps, i.nextId);
      UndoableInRange(i, done + 1);
      OnlyRowWeighs(n.comps, i.nextId, |i.steps|);
    }
  }

  lemma UndoableInRange(i: Instance, j: nat)
    requires Inv(i) && j < |Undoable(PlanOf(i), |Outputs(i.history)|)|
    ensures var s := Undoable(PlanOf(i), |Outputs(i.history)|)[j];
            1 <= s.stepIndex <= |i.steps| && s.maxAttempts > 0
  {
    hide Outputs, Undone, CompensationSteps;
    CompensationStepsSelect(i.steps, |Outputs(i.history)|);
  }

  lemma ReportCompensationUses(i: Instance, a: Action)
    requires Inv(i) && a.ReportCompensation? && Live(i, a)
    ensures Potential(Next(i, a)) < Potential(i)
  {
    hide Potential, Outputs, Undone, RetryCompensation, FailRollback, AdvanceRollback, TablesOk, RecordOk;
    var id, result, err := a.id, a.result, a.err;
    var j := MarkedCompensation(i, id, result, err);
    TerminalByName(i.exec.state);
    ActiveExecutionHasPotential(i);
    if err != "" && j.comps[id].attempt < j.comps[id].maxAttempts {
      RetryCompensationUses(i, id, result, err);
    } else if err != "" {
      FailRollbackUses(i, id, result, err);
    } else {
      AdvanceRollbackUses(i, id, result);
    }
  }

  lemma FailRollbackUses(i: Instance, id: int, result: Bytes, err: string)
    requires Inv(i) && id in i.comps && i.exec.state == Compensating
    ensures var tx := FailRollback(MarkedCompensation(i, id, result, err), id);
            tx.Commit? && Potential(tx.next) < Potential(i)
  {
    hide Outputs, Undone, Endings, RolledBack, Ordered, FailRollback, TotalWeight, Budget;
    TerminalByName(Compensating);
    ActiveExecutionHasPotential(i);
    var n := FailRollbackEffect(i, id, result, err);
  }

  // ---------------------------------------------------------------- all other steps

  lemma RewriteReweighs(rows: map<int, Row>, id: int, r: Row, n: nat)
    requires DistinctRows(rows) && id in rows && r.stepIndex == rows[id].stepIndex && Weight(r) <= Weight(rows[id])
    ensures TotalWeight(rows[id := r], n) <= TotalWeight(rows, n)
  {
    var after := rows[id := r];
    Reweighed(rows, after, r.stepIndex, n);
    WeightOfRow(rows, id);
    assert id in after;
    WeightOfRow(after, id);
  }

  /** Polls and heartbeats never add to the budget; nor does anything else but a report, and that
      uses some up. */
  lemma PotentialNeverGrows(i: Instance, a: Action)
    requires Inv(i)
    ensures Potential(Next(i, a)) <= Potential(i) - (if Live(i, a) then 1 else 0)
  {
    if Live(i, a) {
      hide Potential, Inv, Next;
      if a.Report? { ReportUses(i, a); } else { ReportCompensationUses(i, a); }
    } else if IsTerminal(i.exec.state) {
      hide Inv, Next, Follows;
      TerminalByName(i.exec.state);
      NextKeeps(i, a);
      TerminalByName(Next(i, a).exec.state);
      StaysTerminal(i, Next(i, a));
    } else {
      hide Potential, Inv, Next;
      QuietStepsDoNotAdd(i, a);
    }
  }

  lemma StaysTerminal(i: Instance, n: Instance)
    requires Follows(i, n) && IsTerminal(i.exec.state)
    ensures n.exec.state == i.exec.state
  {
  }

  lemma PollDoesNotAdd(i: Instance, id: int)
    requires Inv(i)
    ensures Potential(PollTask(i, id)) <= Potential(i) && Potential(HeartbeatTask(i, id)) <= Potential(i)
  {
    hide Outputs, Undone, Endings, RolledBack, Ordered, Budget, TotalWeight, RecordOk;
    if id in i.tasks {
      var r := i.tasks[id];
      RewriteReweighs(i.tasks, id, LockRow(r, i.now, r.timeoutSeconds), |i.steps|);
      RewriteReweighs(i.tasks, id, RenewRow(r, i.now, r.timeoutSeconds), |i.steps|);
    }
  }

  lemma PollCompensationDoesNotAdd(i: Instance, id: int)
    requires Inv(i)
    ensures Potential(PollCompensationTask(i, id)) <= Potential(i)
    ensures Potential(HeartbeatCompensationTask(i, id)) <= Potential(i)
  {
    hide Outputs, Undone, Endings, RolledBack, Ordered, Budget, TotalWeight, RecordOk, Undoable;
    if id in i.comps {
      var r := i.comps[id];
      RewriteReweighs(i.comps, id, LockRow(r, i.now, CompensationLease(r)), |i.steps|);
      RewriteReweighs(i.comps, id, RenewRow(r, i.now, 300), |i.steps|);
    }
  }

  lemma QuietStepsDoNotAdd(i: Instance, a: Action)
    requires Inv(i) && !IsTerminal(i.exec.state) && !Live(i, a)
    ensures Potential(Next(i, a)) <= Potential(i)
  {
    TerminalByName(i.exec.state);
    hide Inv, Recover, Append, Budget, TotalWeight, Undoable, PollTask, PollCompensationTask, HeartbeatTask,
      HeartbeatCompensationTask, Outputs, Undone;
    match a
    case Poll(id) => PollDoesNotAdd(i, id);
    case PollCompensation(id) => PollCompensationDoesNotAdd(i, id);
    case Heartbeat(id) => PollDoesNotAdd(i, id);
    case HeartbeatCompensation(id) => PollCompensationDoesNotAdd(i, id);
    case SweepStep => assert i.sweep == Idle by { SweepingIsTerminal(i); }
    case RecoverAtStartup => RecoveryFindsNothing(i);
    case _ =>
  }

  lemma SweepingIsTerminal(i: Instance)
    requires Inv(i) && !IsTerminal(i.exec.state)
    ensures i.sweep == Idle
  {
    TerminalByName(i.exec.state);
  }

  // ---------------------------------------------------------------- the bound

  function LiveReports(i: Instance, acts: seq<Action>): nat {
    if acts == [] then 0
    else LiveReports(i, acts[..|acts| - 1]) + if Live(Run(i, acts[..|acts| - 1]), acts[|acts| - 1]) then 1 else 0
  }

  lemma {:induction false} ReportsUsePotential(i: Instance, acts: seq<Action>)
    requires Inv(i)
    ensures LiveReports(i, acts) + Potential(Run(i, acts)) <= Potential(i)
  {
    hide Inv, Next, Potential, Live;
    if acts != [] {
      var front := acts[..|acts| - 1];
      ReportsUsePotential(i, front);
      RunKeeps(i, front);
      PotentialNeverGrows(Run(i, front), acts[|acts| - 1]);
    }
  }

  lemma AddedRowWeighs(a: map<int, Row>, id: int, row: Row, n: nat)
    requires DistinctRows(a) && id !in a && !HasRow(a, n) && row.stepIndex == n > 0
    ensures DistinctRows(a[id := row])
    ensures TotalWeight(a[id := row], n) == TotalWeight(a, n - 1) + Weight(row)
  {
    var b := a[id := row];
    assert id in b;
    assert TotalWeight(b, n) == TotalWeight(b, n - 1) + WeightAt(b, n);
    hide TotalWeight, Weight;
    Reweighed(a, b, n, n - 1);
    WeightOfRow(b, id);
  }

  lemma BudgetOfOneMore(steps: seq<StepDef>, n: nat)
    requires 1 <= n <= |steps|
    ensures Budget(steps[..n]) == Budget(steps[..n - 1]) + Cost(steps[n - 1])
  {
    BudgetOfAll(steps[..n - 1], [steps[n - 1]]);
    assert steps[..n] == steps[..n - 1] + [steps[n - 1]];
    assert [steps[n - 1]][1..] == [];
  }

  lemma FirstRowCosts(r: Request, n: nat)
    requires WellFormed(r.steps) && 1 <= n <= |r.steps|
    ensures FirstRow(r, n).stepIndex == n && Weight(FirstRow(r, n)) == Cost(r.steps[n - 1])
  {
  }

  lemma NoFirstRowYet(r: Request, n: nat)
    requires WellFormed(r.steps) && 1 <= n <= |r.steps|
    ensures !HasRow(FirstRows(r, n - 1), n) && r.nextId + n - 1 !in FirstRows(r, n - 1)
  {
    FirstRowsHold(r, n - 1);
    hide FirstRows;
  }

  lemma FirstRowsGrow(r: Request, n: nat)
    requires WellFormed(r.steps) && n <= |r.steps|
    ensures n == 0 ==>
              && DistinctRows(FirstRows(r, n)) && TotalWeight(FirstRows(r, n), n) == 0 && Budget(r.steps[..n]) == 0
    ensures n > 0 ==> FirstRows(r, n) == FirstRows(r, n - 1)[r.nextId + n - 1 := FirstRow(r, n)]
  {
  }

  lemma {:induction false} FirstRowsWeigh(r: Request, n: nat)
    requires WellFormed(r.steps) && n <= |r.steps|
    ensures DistinctRows(FirstRows(r, n))
    ensures TotalWeight(FirstRows(r, n), n) == Budget(r.steps[..n])
  {
    hide FirstRows, FirstRow, TotalWeight, Weight, Budget, Cost, DistinctRows, HasRow;
    FirstRowsGrow(r, n);
    if n > 0 {
      FirstRowsWeigh(r, n - 1);
      NoFirstRowYet(r, n);
      FirstRowCosts(r, n);
      AddedRowWeighs(FirstRows(r, n - 1), r.nextId + n - 1, FirstRow(r, n), n);
      BudgetOfOneMore(r.steps, n);
    }
  }

  lemma FirstPotential(r: Request, i: Instance)
    requires WellFormed(r.steps) && i.exec.state == Running && i.steps == r.steps && i.exec.workflowType == r.kind
    requires |Outputs(i.history)| == 0
    requires i.tasks == if r.kind == Independent then FirstRows(r, |r.steps|) else map[r.nextId := FirstRow(r, 1)]
    ensures Potential(i) <= 2 * Budget(r.steps)
  {
    hide Outputs, TotalWeight, FirstRows, Budget, DistinctRows;
    if r.kind == Independent {
      FirstRowsWeigh(r, |r.steps|);
      assert r.steps[..|r.steps|] == r.steps;
    } else {
      assert Only(i.tasks, r.nextId);
      OnlyRowWeighs(i.tasks, r.nextId, |r.steps|);
      BudgetFrom(r.steps, 0);
      assert From(r.steps, 0) == r.steps;
    }
  }

  lemma BeginPotential(r: Request)
    requires WellFormed(r.steps)
    ensures Potential(Begin(r)) <= 2 * Budget(r.steps)
  {
    hide Inv, Outputs, Begin, FirstRows, FirstRow, WellFormed, Potential, Budget;
    BeginKeeps(r);
    FirstPotential(r, Begin(r));
  }

  /** Termination with a bound: in every run, fewer than 2 * sum(MaxAttempts + 1) reports reach a
      task of the execution before it is terminal, and as long as it is not terminal it has an
      active task that a worker can report on. */
  lemma ReportBound(r: Request, acts: seq<Action>)
    requires WellFormed(r.steps)
    ensures LiveReports(Begin(r), acts) <= 2 * Budget(r.steps)
    ensures var i := Run(Begin(r), acts);
            !IsTerminal(i.exec.state) ==>
              && LiveReports(Begin(r), acts) < 2 * Budget(r.steps)
              && ((exists id :: id in i.tasks && Active(i.tasks[id]))
                  || (exists id :: id in i.comps && Active(i.comps[id])))
  {
    hide Begin, Run, Potential, LiveReports, Budget, Outputs, Undone, TablesOk, RecordOk;
    BeginKeeps(r);
    BeginPotential(r);
    ReportsUsePotential(Begin(r), acts);
    AfterAnyRun(r, acts);
    var i := Run(Begin(r), acts);
    TerminalByName(i.exec.state);
    if !IsTerminal(i.exec.state) {
      ActiveExecutionHasPotential(i);
      if i.exec.state == Running {
        var id :| id in i.tasks;
        assert Active(i.tasks[id]);
      } else {
        var id :| id in i.comps;
        assert Active(i.comps[id]);
      }
    }
  }
}
