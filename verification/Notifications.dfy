/** What a transaction tells the broker and the signal store when it commits. */
module Notifications {
  import opened StateMachine
  import opened Domain
  import opened Rows
  import opened Definitions
  import opened History
  import opened Instances
  import opened Invariants
  import opened Runs
  import opened Starting

  /** Each task or compensation task that the transaction adds is announced on its own queue; a task
      only after the commit, a compensation task possibly before it. */
  ghost predicate Announces(i: Instance, tx: Tx) {
    tx.Commit? ==>
      && (forall t :: t in tx.next.tasks && t !in i.tasks ==> tx.notify == tx.next.tasks[t].taskQueue)
      && (forall c :: c in tx.next.comps && c !in i.comps ==>
            tx.notify == tx.next.comps[c].taskQueue || tx.early == tx.next.comps[c].taskQueue)
  }

  /** The signals of the execution are dropped exactly when the transaction ends it. */
  predicate DrainsAtTheEnd(i: Instance, tx: Tx) {
    tx.Commit? ==> (tx.drained <==> !IsTerminal(i.exec.state) && IsTerminal(tx.next.exec.state))
  }

  lemma RetryTells(i: Instance, id: int)
    requires id in i.tasks && !IsTerminal(i.exec.state)
    ensures Announces(i, RetryTask(i, id)) && DrainsAtTheEnd(i, RetryTask(i, id))
  {
    hide Append, Outputs, Undone, Endings, RolledBack, Ordered;
  }

  lemma FailExecutionTells(i: Instance, id: int)
    requires id in i.tasks && !IsTerminal(i.exec.state)
    ensures Announces(i, FailExecution(i, id)) && DrainsAtTheEnd(i, FailExecution(i, id))
  {
    hide Append, Outputs, Undone, Endings, RolledBack, Ordered;
  }

  lemma CompleteIndependentTells(i: Instance, id: int)
    requires id in i.tasks && !IsTerminal(i.exec.state)
    ensures Announces(i, CompleteIndependent(i, id)) && DrainsAtTheEnd(i, CompleteIndependent(i, id))
  {
    hide Append, Outputs, Undone, Endings, RolledBack, Ordered, StepOutputs;
  }

  lemma AdvanceChainTells(i: Instance, id: int)
    requires id in i.tasks && !IsTerminal(i.exec.state)
    ensures Announces(i, AdvanceChain(i, id)) && DrainsAtTheEnd(i, AdvanceChain(i, id))
  {
    hide Append, Outputs, Undone, Endings, RolledBack, Ordered, StepAt;
  }

  lemma ScheduleTells(i: Instance, step: StepDef, input: Bytes)
    ensures match ScheduleCompensation(i, step, input)
            case None => true
            case Some(n) =>
              && n.tasks == i.tasks && n.exec == i.exec
              && (forall c :: c in n.comps && c !in i.comps ==>
                    n.comps[c].taskQueue == QueueFor(step, i.exec.taskQueue))
  {
    hide Append, Outputs, Undone, Endings, RolledBack, Ordered;
  }

  lemma EndTells(i: Instance, message: string)
    requires !IsTerminal(i.exec.state)
    ensures match EndRollback(i, message)
            case None => false
            case Some(n) => n.tasks == i.tasks && n.comps == i.comps && n.exec == i.exec.(state := Failed)
  {
    hide Append, Outputs, Undone, Endings, RolledBack, Ordered;
  }

  lemma StartCompensationTells(i: Instance, failedAt: int)
    requires !IsTerminal(i.exec.state)
    ensures match StartCompensation(i, failedAt)
            case Started(n, early, dry) =>
              && n.tasks == i.tasks && (dry <==> IsTerminal(n.exec.state)) && (dry ==> early == "")
              && n.exec.state == (if dry then Failed else Compensating) && i.exec.state == Running
              && (forall c :: c in n.comps && c !in i.comps ==> early == n.comps[c].taskQueue)
            case Refused(n) => n.tasks == i.tasks && n.comps == i.comps && !IsTerminal(n.exec.state)
            case Broken(n) => true
  {
    hide Append, Outputs, Undone, Endings, RolledBack, Ordered, StepOutputs, OutputByStep, WithOutput,
      CompensationSteps;
    hide ScheduleCompensation, EndRollback;
    if CanMove(i.exec.state, Compensating) {
      var k := Log(i.(exec := i.exec.(state := Compensating)), CompensationStarted, 0, "", Empty, "");
      var outputs := OutputByStep(StepOutputs(k.history));
      var active := WithOutput(CompensationSteps(k.steps, failedAt - 1), outputs);
      var l := k.(exec := k.exec.(compensationTotal := |active|));
      EndTells(l, NOTHING_TO_UNDO);
      if active != [] {
        ScheduleTells(l, active[0], if active[0].stepIndex in outputs then outputs[active[0].stepIndex] else []);
      }
    }
  }

  lemma FailSagaTells(i: Instance, id: int)
    requires id in i.tasks && !IsTerminal(i.exec.state)
    ensures Announces(i, FailSaga(i, id)) && DrainsAtTheEnd(i, FailSaga(i, id))
    ensures FailSaga(i, id).Commit? && FailSaga(i, id).early != "" ==>
              i.exec.state == Running && FailSaga(i, id).next.exec.state == Compensating
  {
    hide Append, Outputs, Undone, Endings, RolledBack, Ordered, StartCompensation;
    StartCompensationTells(Log(i, StepFailed, i.tasks[id].stepIndex, i.tasks[id].stepName, Empty, i.tasks[id].error),
                           i.tasks[id].stepIndex);
  }

  /** A report on a task announces what it schedules and drains the signals exactly if it ends the
      execution. */
  lemma ReportTells(i: Instance, id: int, result: Bytes, err: string)
    ensures Announces(i, CompleteTaskTx(i, id, result, err))
    ensures DrainsAtTheEnd(i, CompleteTaskTx(i, id, result, err))
  {
    hide RetryTask, FailSaga, FailExecution, CompleteIndependent, AdvanceChain;
    if id in i.tasks && !IsTerminal(i.exec.state) {
      var j := i.(tasks := i.tasks[id := ReportRow(i.tasks[id], result, err)]);
      assert forall t :: t in j.tasks <==> t in i.tasks;
      RetryTells(j, id);
      FailSagaTells(j, id);
      FailExecutionTells(j, id);
      CompleteIndependentTells(j, id);
      AdvanceChainTells(j, id);
    }
  }

  lemma RetryCompensationTells(i: Instance, id: int)
    requires id in i.comps && !IsTerminal(i.exec.state)
    ensures Announces(i, RetryCompensation(i, id)) && DrainsAtTheEnd(i, RetryCompensation(i, id))
  {
  }

  lemma FailRollbackTells(i: Instance, id: int)
    requires id in i.comps && !IsTerminal(i.exec.state)
    ensures Announces(i, FailRollback(i, id)) && DrainsAtTheEnd(i, FailRollback(i, id))
  {
    hide Append, Outputs, Undone, Endings, RolledBack, Ordered;
  }

  lemma AdvanceRollbackTells(i: Instance, id: int)
    requires id in i.comps && !IsTerminal(i.exec.state)
    ensures Announces(i, AdvanceRollback(i, id)) && DrainsAtTheEnd(i, AdvanceRollback(i, id))
    ensures AdvanceRollback(i, id).Commit? ==> AdvanceRollback(i, id).early == ""
  {
    hide Append, Outputs, Undone, Endings, RolledBack, Ordered, StepOutputs, OutputByStep, FirstWithOutput,
      CompensationSteps;
  }

  /** The same for a report on a compensation task, which never announces before the commit. */
  lemma ReportCompensationTells(i: Instance, id: int, result: Bytes, err: string)
    ensures Announces(i, CompleteCompensationTx(i, id, result, err))
    ensures DrainsAtTheEnd(i, CompleteCompensationTx(i, id, result, err))
    ensures CompleteCompensationTx(i, id, result, err).Commit? ==>
              CompleteCompensationTx(i, id, result, err).early == ""
  {
    hide RetryCompensation, FailRollback, AdvanceRollback;
    if id in i.comps && !IsTerminal(i.exec.state) {
      var j := i.(comps := i.comps[id := ReportRow(i.comps[id], result, err)]);
      assert forall c :: c in j.comps <==> c in i.comps;
      RetryCompensationTells(j, id);
      FailRollbackTells(j, id);
      AdvanceRollbackTells(j, id);
      EarlyOnlyAtTheStart(j, id);
    }
  }

  lemma EarlyOnlyAtTheStart(i: Instance, id: int)
    requires id in i.comps
    ensures RetryCompensation(i, id).Commit? ==> RetryCompensation(i, id).early == ""
    ensures FailRollback(i, id).Commit? ==> FailRollback(i, id).early == ""
  {
    hide Log, InsertCompensation;
  }

  /** A report notifies before the commit only when it starts a rollback. */
  lemma EarlyOnlyForARollback(i: Instance, id: int, result: Bytes, err: string)
    ensures var tx := CompleteTaskTx(i, id, result, err);
            tx.Commit? && tx.early != "" ==>
              i.exec.workflowType == Saga && i.exec.state == Running && tx.next.exec.state == Compensating
  {
    hide RetryTask, FailSaga, FailExecution, CompleteIndependent, AdvanceChain;
    if id in i.tasks && !IsTerminal(i.exec.state) {
      var j := i.(tasks := i.tasks[id := ReportRow(i.tasks[id], result, err)]);
      NoneEarly(j, id);
      FailSagaTells(j, id);
    }
  }

  lemma NoneEarly(i: Instance, id: int)
    requires id in i.tasks
    ensures RetryTask(i, id).Commit? ==> RetryTask(i, id).early == ""
    ensures FailExecution(i, id).Commit? ==> FailExecution(i, id).early == ""
    ensures CompleteIndependent(i, id).Commit? ==> CompleteIndependent(i, id).early == ""
    ensures AdvanceChain(i, id).Commit? ==> AdvanceChain(i, id).early == ""
  {
    hide Log, InsertTask, DropTask, StepAt, Finish, StepOutputs, CancelRows;
  }

  /** Drain and the early notification take effect although the commit may still fail. Then, and only
      then, the signals of an execution are dropped while it lives on: when its last report is lost. */
  lemma DrainedThoughAlive(i: Instance, id: int, result: Bytes, err: string)
    requires Inv(i) && id in i.tasks
    ensures var tx := CompleteTaskTx(i, id, result, err);
            tx.Commit? && (tx.drained && !IsTerminal(SettleFailed(i, tx).exec.state)
                           <==> !IsTerminal(i.exec.state) && IsTerminal(tx.next.exec.state))
  {
    hide Inv, CompleteTaskTx;
    ReportKeeps(i, id, result, err);
    ReportTells(i, id, result, err);
  }

  lemma DrainedThoughCompensating(i: Instance, id: int, result: Bytes, err: string)
    requires Inv(i) && id in i.comps
    ensures var tx := CompleteCompensationTx(i, id, result, err);
            tx.Commit? && (tx.drained && !IsTerminal(SettleFailed(i, tx).exec.state)
                           <==> !IsTerminal(i.exec.state) && IsTerminal(tx.next.exec.state))
  {
    hide Inv, CompleteCompensationTx;
    ReportCompensationKeeps(i, id, result, err);
    ReportCompensationTells(i, id, result, err);
  }

  lemma CancelTells(i: Instance)
    ensures Announces(i, CancelTx(i)) && DrainsAtTheEnd(i, CancelTx(i))
  {
    hide Append, Outputs, Undone, Endings, RolledBack, Ordered;
  }

  lemma QueuesOfFirstRows(r: Request, rows: map<int, Row>, n: nat)
    requires n <= |r.steps|
    requires forall t :: t in rows <==> r.nextId <= t < r.nextId + n
    requires forall t :: t in rows ==> rows[t] == FirstRow(r, t - r.nextId + 1)
    ensures (forall t :: t in rows ==> rows[t].taskQueue == r.queue)
            <==> (forall k :: 0 <= k < n ==> r.steps[k].taskQueue == "" || r.steps[k].taskQueue == r.queue)
  {
    if forall t :: t in rows ==> rows[t].taskQueue == r.queue {
      forall k | 0 <= k < n ensures r.steps[k].taskQueue == "" || r.steps[k].taskQueue == r.queue {
        assert r.nextId + k in rows;
      }
    }
  }

  /** None of the steps that a start schedules names another queue of its own. */
  predicate OneQueue(r: Request)
    requires r.steps != []
  {
    var scheduled := if r.kind == Independent then |r.steps| else 1;
    forall k :: 0 <= k < scheduled ==> r.steps[k].taskQueue == "" || r.steps[k].taskQueue == r.queue
  }

  /** StartWorkflow notifies one queue. That announces all its tasks if and only if none of the steps
      it schedules names another queue of its own. */
  lemma StartTells(r: Request)
    requires WellFormed(r.steps)
    ensures StartTxOf(r).Commit? && StartTxOf(r).notify == r.queue && !StartTxOf(r).drained
    ensures (forall t :: t in Begin(r).tasks ==> Begin(r).tasks[t].taskQueue == r.queue) <==> OneQueue(r)
  {
    hide Begin, StartTxOf, FirstRows, FirstRow, Inv, PlanOf, Outputs;
    BeginKeeps(r);
    FirstRowsHold(r, |r.steps|);
    StartCommits(r);
    QueuesOfFirstRows(r, Begin(r).tasks, if r.kind == Independent then |r.steps| else 1);
  }

  lemma StartCommits(r: Request)
    ensures StartTxOf(r).Commit? ==> StartTxOf(r).notify == r.queue && !StartTxOf(r).drained
  {
    hide Append, Outputs, Undone, Endings, RolledBack, Ordered, FanOut;
  }
}
