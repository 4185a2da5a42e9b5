/** When the tasks that a transaction creates may be leased, in every run. */
module Schedules {
  import opened StateMachine
  import opened Domain
  import opened Rows
  import opened Definitions
  import opened History
  import opened Instances
  import opened Invariants
  import opened Preservation
  import opened RollbackPreservation
  import opened Runs
  import opened RowFates
  import opened Starting
  import opened Verdicts
  import L = Leases
  import C = CompensationLeases

  // ---------------------------------------------------------------- retries

  /** A retry is the failed row again, one attempt further, without result, error or lease, five
      seconds times the square of the attempt later. */
  ghost predicate Retries(q: Row, n: Row, now: int) {
    n == q.(state := Created, output := [], error := "", lockedUntil := None, attempt := q.attempt + 1,
            scheduledAt := now + 5 * (q.attempt + 1) * (q.attempt + 1))
  }

  lemma RetriedRow(q: Row, result: Bytes, err: string, now: int)
    ensures Retries(q, RetryRow(ReportRow(q, result, err), now), now)
  {
  }

  lemma RetryReplaces(i: Instance, id: int, result: Bytes, err: string)
    requires Inv(i) && id in i.tasks && i.exec.state == Running && err != ""
    requires i.tasks[id].attempt < i.tasks[id].maxAttempts
    ensures var n := Next(i, Report(id, result, err));
            && id !in n.tasks && i.nextId in n.tasks && n.now == i.now
            && Retries(i.tasks[id], n.tasks[i.nextId], i.now)
            && (forall o :: o in i.tasks && o != id ==> o in n.tasks && n.tasks[o] == i.tasks[o])
            && (forall o :: o in n.tasks ==> o in i.tasks || o == i.nextId)
  {
    hide Outputs, Undone, Endings, RolledBack, Ordered, RetryTask, OutputsOk, UndoneOk, CompensationsOk, Partition;
    assert TaskOk(PlanOf(i), Outputs(i.history), i.tasks[id]);
    assert DistinctRows(i.tasks) && Ordered(i.history, i.nextEvent) && 0 <= i.nextEvent && id < i.nextId;
    assert i.nextId !in i.tasks;
    hide Inv, TaskOk, DistinctRows, RetryRow, ReportRow;
    var n := RetryTaskEffect(i, id, result, err);
    RetriedRow(i.tasks[id], result, err, i.now);
    SameAttempts(i.tasks[id], result, err);
  }

  lemma SameAttempts(q: Row, result: Bytes, err: string)
    ensures var n := ReportRow(q, result, err); n.attempt == q.attempt && n.maxAttempts == q.maxAttempts
  {
  }

  lemma CompensationRetryReplaces(i: Instance, id: int, result: Bytes, err: string)
    requires Inv(i) && id in i.comps && i.exec.state == Compensating && err != ""
    requires i.comps[id].attempt < i.comps[id].maxAttempts
    ensures var n := Next(i, ReportCompensation(id, result, err));
            && id < i.nextId && n.comps.Keys == {i.nextId} && n.now == i.now
            && Retries(i.comps[id], n.comps[i.nextId], i.now)
  {
    RowsAreDistinct(i);
    hide Inv, RetryRow, ReportRow, RetryCompensation;
    var n := RetryCompensationKeeps(i, id, result, err);
    RetriedRow(i.comps[id], result, err, i.now);
    SameAttempts(i.comps[id], result, err);
  }

  /** In every run, a retried failure replaces its task by another attempt at the same step with the
      same input, which nobody gets before 5(a + 1)(a + 1) seconds have passed after attempt a, and
      which the first to poll for it gets from then on, as long as the execution goes on. */
  lemma RetryWaits(r: Request, acts: seq<Action>, id: int, result: Bytes, err: string, later: seq<Action>)
    requires WellFormed(r.steps) && err != ""
    requires var i := Run(Begin(r), acts);
             id in i.tasks && !IsTerminal(i.exec.state) && i.tasks[id].attempt < i.tasks[id].maxAttempts
    ensures var i := Run(Begin(r), acts);
            var n, retry, a := Next(i, Report(id, result, err)), i.nextId, i.tasks[id].attempt;
            && id !in n.tasks && retry in n.tasks && Retries(i.tasks[id], n.tasks[retry], i.now)
            && var m := Run(n, later);
            L.NobodyTouches(later, retry) && retry in m.tasks && Active(m.tasks[retry]) ==>
              (Next(m, Poll(retry)) != m <==> m.now >= i.now + 5 * (a + 1) * (a + 1))
  {
    hide Run, Begin, Next, Inv, WellFormed, IsTerminal;
    var i := Run(Begin(r), acts);
    AfterAnyRun(r, acts);
    TaskMeansRunning(i, id);
    RetryReplaces(i, id, result, err);
    NextKeeps(i, Report(id, result, err));
    if L.NobodyTouches(later, i.nextId) {
      L.GrantedExactlyWhen(Next(i, Report(id, result, err)), later, i.nextId);
    }
  }

  /** The same for compensation tasks. */
  lemma CompensationRetryWaits(r: Request, acts: seq<Action>, id: int, result: Bytes, err: string, later: seq<Action>)
    requires WellFormed(r.steps) && err != ""
    requires var i := Run(Begin(r), acts);
             id in i.comps && !IsTerminal(i.exec.state) && i.comps[id].attempt < i.comps[id].maxAttempts
    ensures var i := Run(Begin(r), acts);
            var n, retry, a := Next(i, ReportCompensation(id, result, err)), i.nextId, i.comps[id].attempt;
            && n.comps.Keys == {retry} && id < retry && Retries(i.comps[id], n.comps[retry], i.now)
            && var m := Run(n, later);
            C.NobodyTouches(later, retry) && retry in m.comps && Active(m.comps[retry]) ==>
              (Next(m, PollCompensation(retry)) != m <==> m.now >= i.now + 5 * (a + 1) * (a + 1))
  {
    hide Run, Begin, Next, Inv, WellFormed, IsTerminal;
    var i := Run(Begin(r), acts);
    AfterAnyRun(r, acts);
    CompensationMeansCompensating(i, id);
    CompensationRetryReplaces(i, id, result, err);
    NextKeeps(i, ReportCompensation(id, result, err));
    if C.NobodyTouches(later, i.nextId) {
      C.GrantedExactlyWhen(Next(i, ReportCompensation(id, result, err)), later, i.nextId);
    }
  }

  // ---------------------------------------------------------------- all other tasks

  /** The first tasks of an execution may be leased at once. */
  lemma FirstTasksAreDue(r: Request, id: int)
    requires WellFormed(r.steps) && id in Begin(r).tasks
    ensures Begin(r).tasks[id].attempt == 0 && Next(Begin(r), Poll(id)) != Begin(r)
  {
    hide Begin, WellFormed;
    TasksAtFirst(r);
    BeginsNow(r);
  }

  lemma FreshTaskIsDue(n: Instance, id: int)
    requires id in n.tasks && First(n.tasks[id], n.now)
    ensures Next(n, Poll(id)) != n
  {
  }

  lemma FreshCompensationIsDue(n: Instance, id: int)
    requires id in n.comps && First(n.comps[id], n.now)
    ensures Next(n, PollCompensation(id)) != n
  {
  }

  lemma ReportsTakeNoTime(i: Instance, a: Action, id: int)
    requires Inv(i) && (a.Report? || a.ReportCompensation?)
    requires (id in Next(i, a).tasks && id !in i.tasks) || (id in Next(i, a).comps && id !in i.comps)
    ensures Next(i, a).now == i.now
  {
    hide Inv, Next, Outputs, LastHandler, First;
    Fates(i, a, id);
    LiveIsNotTerminal(i);
    EveryStepIsTold(i, a);
  }

  /** So may every task that follows a success, and every compensation task but a retry. */
  lemma SuccessorsAreDue(r: Request, acts: seq<Action>, a: Action, id: int)
    requires WellFormed(r.steps)
    requires a.Report? || (a.ReportCompensation? && a.err == "")
    ensures var i := Run(Begin(r), acts);
            var n := Next(i, a);
            && (id in n.tasks && id !in i.tasks && (a.Report? ==> a.err == "") ==>
                  n.tasks[id].attempt == 0 && Next(n, Poll(id)) != n)
            && (id in n.comps && id !in i.comps ==>
                  n.comps[id].attempt == 0 && Next(n, PollCompensation(id)) != n)
  {
    hide Run, Begin, Next, Inv, WellFormed;
    var i := Run(Begin(r), acts);
    var n := Next(i, a);
    AfterAnyRun(r, acts);
    Fates(i, a, id);
    if id in n.tasks && id !in i.tasks && (a.Report? ==> a.err == "") {
      ReportsTakeNoTime(i, a, id);
      FreshTaskIsDue(n, id);
    }
    if id in n.comps && id !in i.comps {
      ReportsTakeNoTime(i, a, id);
      FreshCompensationIsDue(n, id);
    }
  }
}
