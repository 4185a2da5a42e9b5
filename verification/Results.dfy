/** Which results an execution records, and what becomes of them: a CHAIN computes the composition
    of its steps, an INDEPENDENT execution lists every step once. */
module Results {
  import opened StateMachine
  import opened Domain
  import opened Rows
  import opened Definitions
  import opened History
  import opened Instances
  import opened Invariants
  import opened Preservation
  import opened RollbackPreservation
  import opened Runs
  import opened Starting

  /** A report that a running execution accepts as the success of a step. */
  predicate Accepts(i: Instance, a: Action) {
    a.Report? && a.err == "" && a.id in i.tasks && !IsTerminal(i.exec.state)
  }

  function AcceptedOutput(i: Instance, a: Action): TaskOutput
    requires Accepts(i, a)
  {
    TaskOutput(i.tasks[a.id].stepIndex, i.tasks[a.id].stepName, a.result)
  }

  lemma ReportRecords(i: Instance, a: Action)
    requires Inv(i) && a.Report?
    ensures Outputs(Next(i, a).history) ==
            if Accepts(i, a) then Outputs(i.history) + [AcceptedOutput(i, a)] else Outputs(i.history)
  {
    hide Outputs, Undone, Endings, RolledBack, Ordered, RetryTask, FailSaga, FailExecution, CompleteIndependent,
      AdvanceChain, OutputsOk, UndoneOk, CompensationsOk;
    if a.id in i.tasks && !IsTerminal(i.exec.state) {
      var id, result, err := a.id, a.result, a.err;
      var j := Marked(i, id, result, err);
      TerminalByName(i.exec.state);
      assert TaskOk(PlanOf(i), Outputs(i.history), i.tasks[id]);
      if err != "" && j.tasks[id].attempt < j.tasks[id].maxAttempts {
        var n := RetryTaskEffect(i, id, result, err);
      } else if err != "" && i.exec.workflowType == Saga {
        FailSagaRecordsNothing(i, id, result, err);
      } else if err != "" {
        var n := FailExecutionEffect(i, id, result, err);
      } else if i.exec.workflowType == Independent {
        var n := CompleteIndependentEffect(i, id, result);
      } else {
        OneTask(i, id);
        if i.tasks[id].stepIndex == |i.steps| {
          var n := FinishChainEffect(i, id, result);
        } else {
          var n := NextStepEffect(i, id, result);
        }
      }
    }
  }

  lemma FailSagaRecordsNothing(i: Instance, id: int, result: Bytes, err: string)
    requires Inv(i) && id in i.tasks && i.exec.state == Running && i.exec.workflowType == Saga
    ensures var tx := FailSaga(Marked(i, id, result, err), id);
            tx.Commit? && Outputs(tx.next.history) == Outputs(i.history)
  {
    hide Outputs, Undone, Endings, RolledBack, Ordered, FailSaga, Recorded, WithOutput, CompensationSteps;
    UndoableHaveOutputs(i);
    assert TaskOk(PlanOf(i), Outputs(i.history), i.tasks[id]);
    var n := FailSagaEffect(i, id, result, err, Undoable(PlanOf(i), |Outputs(i.history)|));
  }

  lemma ReportCompensationRecords(i: Instance, a: Action)
    requires Inv(i) && a.ReportCompensation?
    ensures Outputs(Next(i, a).history) == Outputs(i.history)
  {
    hide Outputs, Undone, Endings, RolledBack, Ordered, RetryCompensation, FailRollback, AdvanceRollback, OutputsOk,
      UndoneOk, CompensationSteps, FirstWithOutput, Recorded;
    if a.id in i.comps && !IsTerminal(i.exec.state) {
      var id, result, err := a.id, a.result, a.err;
      var j := MarkedCompensation(i, id, result, err);
      TerminalByName(i.exec.state);
      OneCompensation(i, id);
      if err != "" && j.comps[id].attempt < j.comps[id].maxAttempts {
        var n := RetryCompensationKeeps(i, id, result, err);
      } else if err != "" {
        var n := FailRollbackEffect(i, id, result, err);
      } else {
        var next := NextToUndo(i, id);
        var n := AdvanceRollbackEffect(i, id, result, next);
      }
    }
  }

  /** A step adds a result exactly when it is an accepted success report, and that result is the
      reported one under the reported task's step. */
  lemma StepRecords(i: Instance, a: Action)
    requires Inv(i)
    ensures Outputs(Next(i, a).history) ==
            if Accepts(i, a) then Outputs(i.history) + [AcceptedOutput(i, a)] else Outputs(i.history)
  {
    hide Inv, Next, Outputs;
    if a.Report? {
      ReportRecords(i, a);
    } else if a.ReportCompensation? {
      ReportCompensationRecords(i, a);
    } else {
      QuietStepsRecordNothing(i, a);
    }
  }

  lemma QuietStepsRecordNothing(i: Instance, a: Action)
    requires Inv(i) && !a.Report? && !a.ReportCompensation?
    ensures Outputs(Next(i, a).history) == Outputs(i.history)
  {
    hide Inv, CompleteTaskTx, CompleteCompensationTx, Recover, CancelTx, SweepOn, Outputs;
    match a
    case Cancel => CancelRecordsNothing(i);
    case SweepStep => SweepRecordsNothing(i);
    case RecoverAtStartup => RecoveryFindsNothing(i);
    case _ =>
  }

  lemma CancelRecordsNothing(i: Instance)
    ensures Outputs(Settle(i, CancelTx(i)).history) == Outputs(i.history)
  {
    hide Outputs, Append;
  }

  lemma SweepRecordsNothing(i: Instance)
    ensures Outputs(SweepOn(i).history) == Outputs(i.history)
  {
    hide Outputs, Append;
  }

  // ---------------------------------------------------------------- CHAIN: sequential composition

  /** The value that reaches step n+1 when the steps compute the functions f. */
  function Through(f: seq<Bytes -> Bytes>, x: Bytes, n: nat): Bytes
    requires n <= |f|
  {
    if n == 0 then x else f[n - 1](Through(f, x, n - 1))
  }

  /** In the run, every accepted report of step k returns what f computes from the task's input. */
  ghost predicate Computes(i: Instance, acts: seq<Action>, f: seq<Bytes -> Bytes>) {
    acts == [] ||
    (var before, a := Run(i, acts[..|acts| - 1]), acts[|acts| - 1];
     && Computes(i, acts[..|acts| - 1], f)
     && (Accepts(before, a) ==>
           && 1 <= before.tasks[a.id].stepIndex <= |f|
           && a.result == f[before.tasks[a.id].stepIndex - 1](before.tasks[a.id].input)))
  }

  /** The results recorded so far are those of the composed functions. */
  ghost predicate Composed(f: seq<Bytes -> Bytes>, x: Bytes, outs: seq<TaskOutput>) {
    |outs| <= |f| && forall k :: 0 <= k < |outs| ==> outs[k].output == Through(f, x, k + 1)
  }

  lemma ComposedOneMore(f: seq<Bytes -> Bytes>, x: Bytes, outs: seq<TaskOutput>, o: TaskOutput)
    requires Composed(f, x, outs) && |outs| < |f|
    requires o.output == f[|outs|](if outs == [] then x else outs[|outs| - 1].output)
    ensures Composed(f, x, outs + [o])
  {
  }

  lemma InputOfTheNextStep(i: Instance, id: int)
    requires Inv(i) && i.exec.workflowType != Independent && id in i.tasks
    ensures var outs := Outputs(i.history);
            && i.tasks[id].stepIndex == |outs| + 1 <= |i.steps|
            && i.tasks[id].input == if outs == [] then i.exec.input else outs[|outs| - 1].output
  {
    hide Outputs;
    assert TaskOk(PlanOf(i), Outputs(i.history), i.tasks[id]);
  }

  lemma {:induction false} ResultsFollowTheFunctions(r: Request, acts: seq<Action>, f: seq<Bytes -> Bytes>)
    requires WellFormed(r.steps) && r.kind != Independent && |f| == |r.steps|
    requires Computes(Begin(r), acts, f)
    ensures Composed(f, r.input, Outputs(Run(Begin(r), acts).history))
  {
    hide Inv, Outputs, Next, Begin, Composed, WellFormed;
    if acts == [] {
      BeginKeeps(r);
      assert Composed(f, r.input, []) by { ComposedNothing(f, r.input); }
    } else {
      var front, a := acts[..|acts| - 1], acts[|acts| - 1];
      var i := Run(Begin(r), front);
      AfterAnyRun(r, front);
      ResultsFollowTheFunctions(r, front, f);
      StepRecords(i, a);
      if Accepts(i, a) {
        InputOfTheNextStep(i, a.id);
        ComposedOneMore(f, r.input, Outputs(i.history), AcceptedOutput(i, a));
      }
    }
  }

  lemma ComposedNothing(f: seq<Bytes -> Bytes>, x: Bytes)
    ensures Composed(f, x, [])
  {
  }

  /** A CHAIN (or a SAGA that succeeds) refines sequential composition: whatever retries, lost
      reports, duplicate reports and restarts occur, every task for step k carries the input that
      the first k-1 functions produce, and the payload of WORKFLOW_COMPLETED is the composition of
      all of them applied to the execution's input. */
  lemma ChainComposes(r: Request, acts: seq<Action>, f: seq<Bytes -> Bytes>)
    requires WellFormed(r.steps) && r.kind != Independent && |f| == |r.steps|
    requires Computes(Begin(r), acts, f)
    ensures var i := Run(Begin(r), acts);
            && (forall id :: id in i.tasks ==>
                  && 1 <= i.tasks[id].stepIndex <= |f|
                  && i.tasks[id].input == Through(f, r.input, i.tasks[id].stepIndex - 1))
            && (i.exec.state == Completed ==>
                  && i.history != []
                  && i.history[|i.history| - 1].kind == WorkflowCompleted
                  && i.history[|i.history| - 1].payload == Raw(Through(f, r.input, |f|)))
  {
    hide Outputs, Undone, Endings, RolledBack, Ordered, Run, Begin, Computes;
    var i := Run(Begin(r), acts);
    AfterAnyRun(r, acts);
    ResultsFollowTheFunctions(r, acts, f);
    forall id | id in i.tasks
      ensures 1 <= i.tasks[id].stepIndex <= |f| && i.tasks[id].input == Through(f, r.input, i.tasks[id].stepIndex - 1)
    {
      assert TaskOk(PlanOf(i), Outputs(i.history), i.tasks[id]);
    }
  }

  // ---------------------------------------------------------------- INDEPENDENT: fan-out and fan-in

  /** While an INDEPENDENT execution runs, its results and its tasks divide the steps between them
      and the counter counts the results; it is COMPLETED exactly on the last success, and its
      payload then has the result of step k at place k. */
  lemma IndependentFansIn(r: Request, acts: seq<Action>)
    requires WellFormed(r.steps) && r.kind == Independent
    ensures var i := Run(Begin(r), acts);
            var outs := Outputs(i.history);
            && (i.exec.state == Running ==>
                  && i.exec.completedSteps == |outs| < |r.steps|
                  && forall k :: 1 <= k <= |r.steps| ==> (HasOutput(outs, k) <==> !HasRow(i.tasks, k)))
            && (i.exec.state == Completed ==>
                  && OnePerStep(outs, |r.steps|)
                  && i.history != []
                  && i.history[|i.history| - 1].payload == Combined(SortByStep(outs))
                  && |SortByStep(outs)| == |r.steps|
                  && forall k :: 0 <= k < |r.steps| ==>
                       && SortByStep(outs)[k].stepIndex == k + 1
                       && SortByStep(outs)[k].stepName == r.steps[k].stepName
                       && SortByStep(outs)[k] in outs)
  {
    hide Outputs, Undone, Endings, RolledBack, Ordered, Run, Begin, SortByStep;
    var i := Run(Begin(r), acts);
    AfterAnyRun(r, acts);
    var outs := Outputs(i.history);
    if i.exec.state == Running {
      RunningIsNotFull(PlanOf(i), outs, i.tasks, i.nextId);
    }
    if i.exec.state == Completed {
      assert OnePerStep(outs, |r.steps|);
      SortedByPlace(outs, |r.steps|);
    }
  }

  lemma FullMeansNoRows(p: Plan, outs: seq<TaskOutput>, rows: map<int, Row>, nextId: int)
    requires OutputsOk(p, outs) && p.kind == Independent && |outs| == |p.steps|
    requires TasksOk(p, outs, rows, nextId) && Partition(|p.steps|, outs, rows)
    ensures NoRows(rows)
  {
    OutputsFillUp(outs, |p.steps|);
    NoneLeft(outs, rows, |p.steps|);
  }

  lemma RunningIsNotFull(p: Plan, outs: seq<TaskOutput>, rows: map<int, Row>, nextId: int)
    requires OutputsOk(p, outs) && p.kind == Independent
    requires TasksOk(p, outs, rows, nextId) && Partition(|p.steps|, outs, rows) && !NoRows(rows)
    ensures |outs| < |p.steps|
    ensures forall k :: 1 <= k <= |p.steps| ==> (HasOutput(outs, k) <==> !HasRow(rows, k))
  {
    AtMostOnePerStep(outs, |p.steps|);
    if |outs| == |p.steps| {
      FullMeansNoRows(p, outs, rows, nextId);
    }
  }

  /** Two runs of the same INDEPENDENT workflow that accept the same result for each step end with
      the same payload, whatever the order in which the steps completed. */
  lemma CompletionOrderDoesNotMatter(r: Request, s: Request, a: seq<Action>, b: seq<Action>)
    requires WellFormed(r.steps) && WellFormed(s.steps) && |r.steps| == |s.steps|
    requires r.kind == s.kind == Independent
    requires Run(Begin(r), a).exec.state == Completed && Run(Begin(s), b).exec.state == Completed
    requires forall o, p ::
               (o in Outputs(Run(Begin(r), a).history) && p in Outputs(Run(Begin(s), b).history)
                && o.stepIndex == p.stepIndex) ==> o == p
    ensures var i, j := Run(Begin(r), a), Run(Begin(s), b);
            && i.history != [] && j.history != []
            && i.history[|i.history| - 1].payload == j.history[|j.history| - 1].payload
  {
    hide Run, Begin, Outputs, SortByStep;
    IndependentFansIn(r, a);
    IndependentFansIn(s, b);
    OrderOfCompletionIsInvisible(Outputs(Run(Begin(r), a).history), Outputs(Run(Begin(s), b).history), |r.steps|);
  }
}
