/** How often a step is attempted, and when, in the runs of an execution. Both tables count attempts
    in the same way, so the claims are made for either: compensation says which table is meant. */
module Attempts {
  import opened StateMachine
  import opened Domain
  import opened Rows
  import opened Definitions
  import opened History
  import opened Instances
  import opened Invariants
  import opened Preservation
  import opened RollbackPreservation
  import opened Runs
  import opened RowFates
  import opened Starting

  function Table(i: Instance, compensation: bool): map<int, Row> {
    if compensation then i.comps else i.tasks
  }

  /** The action leases a row of step k to a worker. */
  predicate Grants(i: Instance, a: Action, compensation: bool, k: int) {
    match a
    case Poll(id) => !compensation && id in i.tasks && Eligible(i.tasks[id], i.now) && i.tasks[id].stepIndex == k
    case PollCompensation(id) =>
      compensation && id in i.comps && Eligible(i.comps[id], i.now) && i.comps[id].stepIndex == k
    case _ => false
  }

  /** The action reports a failure of step k that is retried. */
  predicate Retries(i: Instance, a: Action, compensation: bool, k: int) {
    match a
    case Report(id, _, err) =>
      !compensation && Reports(i, a, id) && err != ""
      && i.tasks[id].attempt < i.tasks[id].maxAttempts && i.tasks[id].stepIndex == k
    case ReportCompensation(id, _, err) =>
      compensation && ReportsCompensation(i, a, id) && err != ""
      && i.comps[id].attempt < i.comps[id].maxAttempts && i.comps[id].stepIndex == k
    case _ => false
  }

  /** Leases granted and retries made so far, and the time of the first lease. */
  datatype Tally = Tally(polls: nat, retries: nat, first: Option<int>)

  const NOTHING := Tally(0, 0, None)

  function Counted(t: Tally, i: Instance, a: Action, compensation: bool, k: int): Tally {
    if Grants(i, a, compensation, k) then Tally(t.polls + 1, t.retries, if t.first.None? then Some(i.now) else t.first)
    else if Retries(i, a, compensation, k) then t.(retries := t.retries + 1)
    else t
  }

  function TallyOf(i: Instance, acts: seq<Action>, compensation: bool, k: int): Tally {
    if acts == [] then NOTHING
    else
      var front := acts[..|acts| - 1];
      Counted(TallyOf(i, front, compensation, k), Run(i, front), acts[|acts| - 1], compensation, k)
  }

  /** A report that is taken is about a task that a poll has leased: workers learn ids from polls. */
  predicate HitsLeased(i: Instance, a: Action) {
    match a
    case Report(id, _, _) => Reports(i, a, id) ==> i.tasks[id].state == Running
    case ReportCompensation(id, _, _) => ReportsCompensation(i, a, id) ==> i.comps[id].state == Running
    case _ => true
  }

  ghost predicate ReportsFollowPolls(i: Instance, acts: seq<Action>) {
    acts == [] ||
    (ReportsFollowPolls(i, acts[..|acts| - 1]) && HitsLeased(Run(i, acts[..|acts| - 1]), acts[|acts| - 1]))
  }

  // ---------------------------------------------------------------- one row

  /** What the tally of its step says about an active row: always how often it was attempted, and the
      rest if reports follow polls. */
  predicate Accounted(r: Row, t: Tally, now: int, follows: bool) {
    r.attempt == t.polls + t.retries && (follows ==> Paced(r, t, now))
  }

  predicate Paced(r: Row, t: Tally, now: int) {
    && r.attempt == t.polls + t.retries
    && t.polls >= t.retries + (if r.state == Running then 1 else 0)
    && (t.retries > 0 ==> 2 * t.retries <= r.maxAttempts)
    && (t.first.Some? <==> t.polls > 0)
    && (r.state == Running ==> now >= t.first.value + BackoffSum(t.retries))
    && (r.state == Created && t.retries == 0 ==> t.polls == 0)
    && (r.state == Created && t.retries > 0 ==> r.scheduledAt >= t.first.value + BackoffSum(t.retries))
  }

  lemma GrantedIsAccounted(r: Row, n: Row, t: Tally, now: int, follows: bool)
    requires Accounted(r, t, now, follows) && Eligible(r, now)
    requires n.state == Running && n.attempt == r.attempt + 1 && n.maxAttempts == r.maxAttempts
    ensures Accounted(n, Tally(t.polls + 1, t.retries, if t.first.None? then Some(now) else t.first), now, follows)
  {
  }

  lemma RetriedIsAccounted(r: Row, n: Row, t: Tally, now: int, follows: bool)
    requires Accounted(r, t, now, follows) && (follows ==> r.state == Running) && r.attempt < r.maxAttempts
    requires n.state == Created && n.attempt == r.attempt + 1 && n.maxAttempts == r.maxAttempts
    requires n.scheduledAt == now + Backoff(r.attempt)
    ensures Accounted(n, t.(retries := t.retries + 1), now, follows)
  {
    if follows { BackoffGrows(r.attempt, t.retries); }
    hide BackoffSum, Backoff;
  }

  lemma LaterIsAccounted(r: Row, n: Row, t: Tally, now: int, later: int, follows: bool)
    requires Accounted(r, t, now, follows) && Active(r) && now <= later
    requires n.state == r.state && n.attempt == r.attempt && n.maxAttempts == r.maxAttempts
             && n.scheduledAt == r.scheduledAt
    ensures Accounted(n, t, later, follows)
  {
    hide BackoffSum;
  }

  lemma FirstIsAccounted(n: Row, now: int, follows: bool)
    requires First(n, now)
    ensures Accounted(n, NOTHING, now, follows)
  {
  }

  // ---------------------------------------------------------------- all rows

  /** No row of step k has been there, but one may still come. */
  ghost predicate Untouched(i: Instance, compensation: bool, k: int) {
    if compensation
    then i.exec.state == Running
         || (i.exec.state == Compensating && forall id :: id in i.comps ==> k < i.comps[id].stepIndex)
    else i.exec.state == Running && i.exec.workflowType != Independent
         && forall id :: id in i.tasks ==> k > i.tasks[id].stepIndex
  }

  ghost predicate AllAccounted(i: Instance, acts: seq<Action>, compensation: bool) {
    var j := Run(i, acts);
    && (forall id :: id in Table(j, compensation) && Active(Table(j, compensation)[id]) ==>
          Accounted(Table(j, compensation)[id], TallyOf(i, acts, compensation, Table(j, compensation)[id].stepIndex),
                    j.now, ReportsFollowPolls(i, acts)))
    && (forall k :: Untouched(j, compensation, k) ==> TallyOf(i, acts, compensation, k) == NOTHING)
  }

  /** An active row after a step, in terms of the rows before it. */
  ghost predicate Comes(i: Instance, a: Action, n: Instance, compensation: bool, id: int)
    requires id in Table(n, compensation)
  {
    var before, row := Table(i, compensation), Table(n, compensation)[id];
    if id in before then
      && Active(before[id]) && row.stepIndex == before[id].stepIndex && row.maxAttempts == before[id].maxAttempts
      && !Retries(i, a, compensation, row.stepIndex)
      && (if Grants(i, a, compensation, row.stepIndex)
          then Eligible(before[id], i.now) && row.state == Running && row.attempt == before[id].attempt + 1
          else row.state == before[id].state && row.attempt == before[id].attempt
               && row.scheduledAt == before[id].scheduledAt)
    else
      || (First(row, i.now) && Untouched(i, compensation, row.stepIndex))
      || (Retries(i, a, compensation, row.stepIndex)
          && exists q ::
               && q in before && Active(before[q]) && before[q].stepIndex == row.stepIndex
               && before[q].attempt < before[q].maxAttempts
               && (HitsLeased(i, a) ==> before[q].state == Running)
               && row.state == Created && row.attempt == before[q].attempt + 1
               && row.maxAttempts == before[q].maxAttempts
               && row.scheduledAt == i.now + Backoff(before[q].attempt))
  }

  lemma OldTaskComes(i: Instance, a: Action, n: Instance, id: int)
    requires DistinctRows(i.tasks) && id in i.tasks && id in n.tasks && Active(n.tasks[id])
    requires OldTask(i, a, id, i.tasks[id], n.tasks[id])
    ensures Comes(i, a, n, false, id)
  {
    hide IsTerminal;
  }

  lemma NewTaskComes(i: Instance, a: Action, n: Instance, id: int)
    requires id !in i.tasks && id in n.tasks && NewTask(i, a, n.tasks[id])
    requires i.exec.state == Running && AllActive(i.tasks)
    requires i.exec.workflowType != Independent ==> Only(i.tasks, a.id)
    ensures Comes(i, a, n, false, id)
  {
    hide Backoff;
  }

  lemma TaskComes(i: Instance, a: Action, id: int)
    requires Inv(i)
    requires var n := Next(i, a); id in n.tasks && Active(n.tasks[id])
    ensures Comes(i, a, Next(i, a), false, id)
  {
    Fates(i, a, id);
    RowsAreDistinct(i);
    RowsWhileLive(i);
    if id in i.tasks {
      hide Inv, Next, CompensationFate, Comes, OldTask;
      OldTaskComes(i, a, Next(i, a), id);
    } else {
      TaskMeansRunning(i, a.id);
      if i.exec.workflowType != Independent { OneTask(i, a.id); }
      hide Inv, Next, CompensationFate, Comes;
      NewTaskComes(i, a, Next(i, a), id);
    }
  }

  lemma OldCompensationComes(i: Instance, a: Action, n: Instance, id: int)
    requires DistinctRows(i.comps) && id in i.comps && id in n.comps && Active(n.comps[id])
    requires OldCompensation(i, a, id, i.comps[id], n.comps[id])
    ensures Comes(i, a, n, true, id)
  {
    hide IsTerminal;
  }

  lemma NewCompensationComes(i: Instance, a: Action, n: Instance, id: int)
    requires id !in i.comps && id in n.comps && NewCompensation(i, a, n.exec.state, n.comps[id])
    requires AllActive(i.comps) && (i.exec.state == Running ==> i.comps == map[])
    requires a.ReportCompensation? && a.id in i.comps ==> Only(i.comps, a.id)
    requires i.exec.state == Running || i.exec.state == Compensating
    ensures Comes(i, a, n, true, id)
  {
    hide Backoff;
  }

  lemma CompensationComes(i: Instance, a: Action, id: int)
    requires Inv(i)
    requires var n := Next(i, a); id in n.comps && Active(n.comps[id])
    ensures Comes(i, a, Next(i, a), true, id)
  {
    Fates(i, a, id);
    RowsAreDistinct(i);
    RowsWhileLive(i);
    if id in i.comps {
      hide Inv, Next, TaskFate, Comes, OldCompensation;
      OldCompensationComes(i, a, Next(i, a), id);
    } else {
      if a.ReportCompensation? && a.id in i.comps { OneCompensation(i, a.id); }
      hide Inv, Next, TaskFate, Comes, CompensationOk;
      NewCompensationComes(i, a, Next(i, a), id);
    }
  }

  /** Where a row may still come, none was before, and the step that leads there touched none. */
  lemma UntouchedBefore(i: Instance, a: Action, compensation: bool, k: int)
    requires Inv(i) && Untouched(Next(i, a), compensation, k)
    ensures Untouched(i, compensation, k)
    ensures !Grants(i, a, compensation, k) && !Retries(i, a, compensation, k)
  {
    var n := Next(i, a);
    NextKeeps(i, a);
    RowsWhileLive(i);
    RowsWhileLive(n);
    hide Inv, Next;
    if !compensation {
      var id :| id in n.tasks;
      Fates(i, a, id);
      hide TaskFate, CompensationFate;
      StillUntouchedTasks(i, a, n, id, k);
    } else if n.exec.state == Compensating && i.exec.state == Compensating {
      var id :| id in n.comps;
      Fates(i, a, id);
      hide TaskFate, CompensationFate;
      StillUntouchedCompensations(i, a, n, id, k);
    }
    UntouchedIsNotTouched(i, a, compensation, k);
  }

  lemma UntouchedIsNotTouched(i: Instance, a: Action, compensation: bool, k: int)
    requires Untouched(i, compensation, k) && (i.exec.state == Running ==> i.comps == map[])
    ensures !Grants(i, a, compensation, k) && !Retries(i, a, compensation, k)
  {
    hide IsTerminal, Eligible;
  }

  lemma StillUntouchedTasks(i: Instance, a: Action, n: Instance, id: int, k: int)
    requires Inv(i) && id in n.tasks && Active(n.tasks[id]) && TaskFate(i, a, n, id) && k > n.tasks[id].stepIndex
    requires i.exec.state == Running && i.exec.workflowType != Independent
    ensures forall before :: before in i.tasks ==> k > i.tasks[before].stepIndex
  {
    if id in i.tasks { OneTask(i, id); } else { OneTask(i, a.id); }
    hide Inv;
  }

  lemma StillUntouchedCompensations(i: Instance, a: Action, n: Instance, id: int, k: int)
    requires Inv(i) && id in n.comps && Active(n.comps[id]) && CompensationFate(i, a, n, id)
             && k < n.comps[id].stepIndex
    requires i.exec.state == Compensating
    ensures forall before :: before in i.comps ==> k < i.comps[before].stepIndex
  {
    if id in i.comps { OneCompensation(i, id); } else { OneCompensation(i, a.id); }
    hide Inv, CompensationOk;
  }

  // ---------------------------------------------------------------- runs

  lemma RowStaysAccounted(i: Instance, a: Action, n: Instance, compensation: bool, id: int, t: Tally, follows: bool)
    requires id in Table(n, compensation) && Active(Table(n, compensation)[id]) && Comes(i, a, n, compensation, id)
    requires (follows ==> HitsLeased(i, a)) && i.now <= n.now && (i.exec.state == Running ==> i.comps == map[])
    requires var k := Table(n, compensation)[id].stepIndex;
             && (Untouched(i, compensation, k) ==> t == NOTHING)
             && (forall q :: q in Table(i, compensation) && Active(Table(i, compensation)[q])
                             && Table(i, compensation)[q].stepIndex == k ==>
                   Accounted(Table(i, compensation)[q], t, i.now, follows))
    ensures var row := Table(n, compensation)[id];
            Accounted(row, Counted(t, i, a, compensation, row.stepIndex), n.now, follows)
  {
    var before, row := Table(i, compensation), Table(n, compensation)[id];
    var k := row.stepIndex;
    if Untouched(i, compensation, k) { UntouchedIsNotTouched(i, a, compensation, k); }
    hide Untouched, Accounted, First, HitsLeased;
    if id in before {
      if Grants(i, a, compensation, k) {
        GrantedIsAccounted(before[id], row, t, i.now, follows);
      } else {
        LaterIsAccounted(before[id], row, t, i.now, i.now, follows);
      }
    } else if First(row, i.now) && Untouched(i, compensation, k) {
      FirstIsAccounted(row, i.now, follows);
    } else {
      assert !Grants(i, a, compensation, k);
      var q :| q in before && Active(before[q]) && before[q].stepIndex == k && before[q].attempt < before[q].maxAttempts
               && (HitsLeased(i, a) ==> before[q].state == Running)
               && row.state == Created && row.attempt == before[q].attempt + 1
               && row.maxAttempts == before[q].maxAttempts
               && row.scheduledAt == i.now + Backoff(before[q].attempt);
      RetriedIsAccounted(before[q], row, t, i.now, follows);
    }
    LaterIsAccounted(row, row, Counted(t, i, a, compensation, k), i.now, n.now, follows);
  }

  lemma RowComes(i: Instance, a: Action, compensation: bool, id: int)
    requires Inv(i)
    requires var rows := Table(Next(i, a), compensation); id in rows && Active(rows[id])
    ensures Comes(i, a, Next(i, a), compensation, id)
  {
    hide Inv, Next, Comes;
    if compensation { CompensationComes(i, a, id); } else { TaskComes(i, a, id); }
  }

  lemma AllAccountedNext(i: Instance, acts: seq<Action>, a: Action, compensation: bool)
    requires Inv(Run(i, acts)) && AllAccounted(i, acts, compensation)
    requires Run(i, acts + [a]) == Next(Run(i, acts), a)
    requires forall k :: TallyOf(i, acts + [a], compensation, k)
                         == Counted(TallyOf(i, acts, compensation, k), Run(i, acts), a, compensation, k)
    ensures AllAccounted(i, acts + [a], compensation)
  {
    var j := Run(i, acts);
    var n := Next(j, a);
    NextKeeps(j, a);
    RowsWhileLive(j);
    FollowingBefore(i, acts, a);
    var follows := ReportsFollowPolls(i, acts + [a]);
    hide Inv, Next, Run, TallyOf, Counted, Paced, Untouched, Comes, HitsLeased, ReportsFollowPolls;
    var rows := Table(n, compensation);
    forall id | id in rows && Active(rows[id])
      ensures Accounted(rows[id], TallyOf(i, acts + [a], compensation, rows[id].stepIndex), n.now, follows)
    {
      RowComes(j, a, compensation, id);
      RowStaysAccounted(j, a, n, compensation, id, TallyOf(i, acts, compensation, rows[id].stepIndex), follows);
    }
    forall k | Untouched(n, compensation, k) ensures TallyOf(i, acts + [a], compensation, k) == NOTHING {
      UntouchedBefore(j, a, compensation, k);
      CountsNothing(TallyOf(i, acts, compensation, k), j, a, compensation, k);
    }
  }

  lemma FollowingBefore(i: Instance, acts: seq<Action>, a: Action)
    ensures ReportsFollowPolls(i, acts + [a]) ==> ReportsFollowPolls(i, acts) && HitsLeased(Run(i, acts), a)
  {
    assert (acts + [a])[..|acts|] == acts;
  }

  lemma CountsNothing(t: Tally, i: Instance, a: Action, compensation: bool, k: int)
    requires !Grants(i, a, compensation, k) && !Retries(i, a, compensation, k)
    ensures Counted(t, i, a, compensation, k) == t
  {
  }

  lemma FirstRowIsAccounted(r: Request, k: nat)
    requires WellFormed(r.steps) && 1 <= k <= |r.steps|
    ensures Accounted(FirstRow(r, k), NOTHING, r.now, true)
  {
  }

  lemma FirstRowsAreAccounted(r: Request, rows: map<int, Row>)
    requires WellFormed(r.steps)
    requires forall id :: id in rows ==>
               1 <= id - r.nextId + 1 <= |r.steps| && rows[id] == FirstRow(r, id - r.nextId + 1)
    ensures forall id :: id in rows ==> Accounted(rows[id], NOTHING, r.now, true)
  {
    hide WellFormed, Accounted, FirstRow;
    forall id | id in rows ensures Accounted(rows[id], NOTHING, r.now, true) {
      FirstRowIsAccounted(r, id - r.nextId + 1);
    }
  }

  lemma AccountedAtFirst(r: Request, compensation: bool)
    requires WellFormed(r.steps)
    ensures AllAccounted(Begin(r), [], compensation)
  {
    hide Begin, FirstRow, Untouched, Accounted, WellFormed, Run, TallyOf;
    TasksAtFirst(r);
    BeginsNow(r);
    FirstRowsAreAccounted(r, Begin(r).tasks);
    NothingYet(Begin(r), compensation);
  }

  lemma NothingYet(i: Instance, compensation: bool)
    ensures Run(i, []) == i && forall k :: TallyOf(i, [], compensation, k) == NOTHING
  {
  }

  lemma {:induction false} AccountedInRuns(r: Request, acts: seq<Action>, compensation: bool)
    requires WellFormed(r.steps)
    ensures AllAccounted(Begin(r), acts, compensation)
  {
    hide Inv, Next, Begin, AllAccounted, HitsLeased, Counted, Accounted, Paced, ReportsFollowPolls, Untouched;
    if acts == [] {
      AccountedAtFirst(r, compensation);
    } else {
      var front, a := acts[..|acts| - 1], acts[|acts| - 1];
      AccountedInRuns(r, front, compensation);
      AfterAnyRun(r, front);
      assert front + [a] == acts;
      AllAccountedNext(Begin(r), front, a, compensation);
    }
  }

  /** In every run attempts are counted twice, once for each lease and once for each retry; heartbeats
      and everything else leave the count alone. If reports follow polls, there are at least as many
      leases as retries, and one more while the row is leased. */
  lemma AttemptsCountLeasesAndRetries(r: Request, acts: seq<Action>, compensation: bool, id: int)
    requires WellFormed(r.steps)
    requires var rows := Table(Run(Begin(r), acts), compensation); id in rows && Active(rows[id])
    ensures var row := Table(Run(Begin(r), acts), compensation)[id];
            var t := TallyOf(Begin(r), acts, compensation, row.stepIndex);
            && row.attempt == t.polls + t.retries
            && (ReportsFollowPolls(Begin(r), acts) ==>
                  && t.polls >= t.retries + (if row.state == Running then 1 else 0)
                  && (t.retries > 0 ==> 2 * t.retries <= row.maxAttempts))
  {
    hide Run, Begin, TallyOf, ReportsFollowPolls;
    AccountedInRuns(r, acts, compensation);
  }

  // ---------------------------------------------------------------- the last attempt

  /** A failure report on a task ends the forward run of the execution exactly when the attempts are
      used up. */
  lemma FailureIsFinal(i: Instance, id: int, result: Bytes, err: string)
    requires Inv(i) && id in i.tasks && !IsTerminal(i.exec.state) && err != ""
    ensures Next(i, Report(id, result, err)).exec.state != Running <==> i.tasks[id].attempt >= i.tasks[id].maxAttempts
    ensures i.tasks[id].maxAttempts > 0
  {
    hide Outputs, Undone, Endings, RolledBack, Ordered, RetryTask, FailSaga, FailExecution, OutputsOk, UndoneOk,
      CompensationsOk;
    hide WithOutput, CompensationSteps, Recorded, Partition;
    TaskMeansRunning(i, id);
    assert TaskOk(PlanOf(i), Outputs(i.history), i.tasks[id]);
    if i.tasks[id].attempt < i.tasks[id].maxAttempts {
      var n := RetryTaskEffect(i, id, result, err);
    } else if i.exec.workflowType == Saga {
      UndoableHaveOutputs(i);
      var n := FailSagaEffect(i, id, result, err, Undoable(PlanOf(i), |Outputs(i.history)|));
    } else {
      var n := FailExecutionEffect(i, id, result, err);
    }
  }

  /** The same for a compensation task and the rollback. */
  lemma CompensationFailureIsFinal(i: Instance, id: int, result: Bytes, err: string)
    requires Inv(i) && id in i.comps && !IsTerminal(i.exec.state) && err != ""
    ensures Next(i, ReportCompensation(id, result, err)).exec.state != Compensating
            <==> i.comps[id].attempt >= i.comps[id].maxAttempts
    ensures i.comps[id].maxAttempts > 0
  {
    hide Outputs, Undone, Endings, RolledBack, Ordered, RetryCompensation, FailRollback, CompensationSteps, PhaseOk;
    CompensationMeansCompensating(i, id);
    OneCompensation(i, id);
    UndoableDescend(i);
    assert Ordered(i.history, i.nextEvent) && 0 <= i.nextEvent && i.comps[id].maxAttempts > 0;
    hide RecordOk, TablesOk, CompensationOk, Undoable;
    if i.comps[id].attempt < i.comps[id].maxAttempts {
      var n := RetryCompensationKeeps(i, id, result, err);
    } else {
      var n := FailRollbackEffect(i, id, result, err);
    }
  }

  lemma LiveRowsAreActive(i: Instance, id: int)
    requires Inv(i) && !IsTerminal(i.exec.state)
    ensures id in i.tasks ==> Active(i.tasks[id])
    ensures id in i.comps ==> Active(i.comps[id])
  {
    LiveStates(i);
    RowsWhileLive(i);
    hide Inv;
  }

  /** Numbers of attempts: a failure report number n on a row with M allowed attempts. */
  lemma LastAttempt(row: Row, t: Tally, now: int)
    requires Paced(row, t, now) && row.state == Running && row.maxAttempts > 0
    ensures var report := t.retries + 1;
            && report <= row.maxAttempts / 2 + 1 <= row.maxAttempts
            && (report == row.maxAttempts / 2 + 1 ==> row.attempt >= row.maxAttempts)
            && (t.polls == report ==> (row.attempt >= row.maxAttempts <==> report == row.maxAttempts / 2 + 1))
    ensures row.maxAttempts / 2 + 1 == row.maxAttempts <==> row.maxAttempts <= 2
  {
    hide BackoffSum;
  }

  /** In every run, the failure report number n on a step allowed M attempts ends the forward run
      exactly if leases granted and n together exceed M. So, if reports follow polls, it does so if n is
      M/2 + 1, rounded down, and n never gets beyond that; if no lease of the step ever expired, it does
      so exactly then. M/2 + 1 is M only for M of at most 2. */
  lemma EffectiveAttempts(r: Request, acts: seq<Action>, id: int, result: Bytes, err: string)
    requires WellFormed(r.steps) && err != ""
    requires var i := Run(Begin(r), acts); id in i.tasks && !IsTerminal(i.exec.state)
    ensures var i := Run(Begin(r), acts);
            var t := TallyOf(Begin(r), acts, false, i.tasks[id].stepIndex);
            var report, m := t.retries + 1, i.tasks[id].maxAttempts;
            var last := Next(i, Report(id, result, err)).exec.state != Running;
            && (last <==> t.polls + report > m)
            && (ReportsFollowPolls(Begin(r), acts + [Report(id, result, err)]) ==>
                  && report <= m / 2 + 1 <= m && (m / 2 + 1 == m <==> m <= 2)
                  && (report == m / 2 + 1 ==> last)
                  && (t.polls == report ==> (last <==> report == m / 2 + 1)))
  {
    var i := Run(Begin(r), acts);
    AfterAnyRun(r, acts);
    FailureIsFinal(i, id, result, err);
    LiveRowsAreActive(i, id);
    AttemptsCountLeasesAndRetries(r, acts, false, id);
    AccountedInRuns(r, acts, false);
    FollowingBefore(Begin(r), acts, Report(id, result, err));
    hide Inv, Next, Run, Begin, TallyOf, Paced, ReportsFollowPolls;
    if ReportsFollowPolls(Begin(r), acts + [Report(id, result, err)]) {
      LastAttempt(i.tasks[id], TallyOf(Begin(r), acts, false, i.tasks[id].stepIndex), i.now);
    }
  }

  /** The same for compensation tasks: the report that gives up the rollback. */
  lemma EffectiveCompensationAttempts(r: Request, acts: seq<Action>, id: int, result: Bytes, err: string)
    requires WellFormed(r.steps) && err != ""
    requires var i := Run(Begin(r), acts); id in i.comps && !IsTerminal(i.exec.state)
    ensures var i := Run(Begin(r), acts);
            var t := TallyOf(Begin(r), acts, true, i.comps[id].stepIndex);
            var report, m := t.retries + 1, i.comps[id].maxAttempts;
            var last := Next(i, ReportCompensation(id, result, err)).exec.state != Compensating;
            && (last <==> t.polls + report > m)
            && (ReportsFollowPolls(Begin(r), acts + [ReportCompensation(id, result, err)]) ==>
                  && report <= m / 2 + 1 <= m && (m / 2 + 1 == m <==> m <= 2)
                  && (report == m / 2 + 1 ==> last)
                  && (t.polls == report ==> (last <==> report == m / 2 + 1)))
  {
    var i := Run(Begin(r), acts);
    AfterAnyRun(r, acts);
    CompensationFailureIsFinal(i, id, result, err);
    LiveRowsAreActive(i, id);
    AttemptsCountLeasesAndRetries(r, acts, true, id);
    AccountedInRuns(r, acts, true);
    FollowingBefore(Begin(r), acts, ReportCompensation(id, result, err));
    hide Inv, Next, Run, Begin, TallyOf, Paced, ReportsFollowPolls;
    if ReportsFollowPolls(Begin(r), acts + [ReportCompensation(id, result, err)]) {
      LastAttempt(i.comps[id], TallyOf(Begin(r), acts, true, i.comps[id].stepIndex), i.now);
    }
  }

  // ---------------------------------------------------------------- backoff

  lemma BackedOff(row: Row, t: Tally, now: int)
    requires Paced(row, t, now) && Eligible(row, now)
    ensures t.retries > 0 ==> t.first.Some?
    ensures t.first.Some? ==> 3 * (now - t.first.value) >= 3 * BackoffSum(t.retries)
  {
  }

  /** In every run in which reports follow polls, a row that has been retried n times is not granted
      sooner than 10n(n+1)(2n+1)/3 seconds after the first lease of its step. */
  lemma RetriesBackOff(r: Request, acts: seq<Action>, compensation: bool, id: int)
    requires WellFormed(r.steps) && ReportsFollowPolls(Begin(r), acts)
    requires var i := Run(Begin(r), acts);
             id in Table(i, compensation) && Eligible(Table(i, compensation)[id], i.now)
    ensures var i := Run(Begin(r), acts);
            var t := TallyOf(Begin(r), acts, compensation, Table(i, compensation)[id].stepIndex);
            var n := t.retries;
            && (n > 0 ==> t.first.Some?)
            && (t.first.Some? ==> 3 * (i.now - t.first.value) >= 10 * n * (n + 1) * (2 * n + 1))
  {
    hide Run, Begin, TallyOf, Paced, BackoffSum, Eligible, ReportsFollowPolls;
    var i := Run(Begin(r), acts);
    AccountedInRuns(r, acts, compensation);
    var row := Table(i, compensation)[id];
    var t := TallyOf(Begin(r), acts, compensation, row.stepIndex);
    assert Active(row) by { EligibleIsActive(row, i.now); }
    BackedOff(row, t, i.now);
    BackoffSumClosedForm(t.retries);
  }

  lemma EligibleIsActive(r: Row, now: int)
    requires Eligible(r, now)
    ensures Active(r)
  {
  }
}
