/** StartWorkflow establishes the invariant (usecase/execution.go). */
module Starting {
  import opened StateMachine
  import opened Domain
  import opened Rows
  import opened Definitions
  import opened History
  import opened Instances
  import opened Invariants
  import opened Preservation
  import opened Runs

  /** The arguments of StartWorkflow and the shared counters at that time. */
  datatype Request = Request(
    steps: seq<StepDef>,
    kind: WorkflowType,
    queue: string,
    input: Bytes,
    timeout: int,
    now: int,
    nextId: int,
    nextEvent: nat)

  /** What the request fixes for the whole execution. */
  function PlanFor(r: Request): Plan {
    Plan(r.steps, r.kind, r.input, r.queue, if r.timeout > 0 then Some(r.now + r.timeout) else None)
  }

  function StartTxOf(r: Request): Tx {
    StartTx(r.steps, NewExecution(r.kind, |r.steps|, r.queue, r.input, r.timeout, r.now), r.now, r.nextId, r.nextEvent)
  }

  /** An execution as StartWorkflow leaves it. */
  function Begin(r: Request): Instance {
    match StartTxOf(r)
    case Commit(n, _, _, _) => n
    case Rollback(dirty, _) => dirty
  }

  function FirstRow(r: Request, k: nat): Row
    requires 1 <= k <= |r.steps|
  {
    BuildTask(r.steps[k - 1], r.input, r.queue, r.now)
  }

  /** The task rows of the first n steps. */
  function FirstRows(r: Request, n: nat): map<int, Row>
    requires n <= |r.steps|
  {
    if n == 0 then map[] else FirstRows(r, n - 1)[r.nextId + n - 1 := FirstRow(r, n)]
  }

  lemma {:induction false} FirstRowsHold(r: Request, n: nat)
    requires n <= |r.steps|
    ensures forall id :: id in FirstRows(r, n) <==> r.nextId <= id < r.nextId + n
    ensures forall id :: id in FirstRows(r, n) ==> FirstRows(r, n)[id] == FirstRow(r, id - r.nextId + 1)
  {
    if n > 0 {
      FirstRowsHold(r, n - 1);
    }
  }

  lemma FirstRowsStep(r: Request, k: nat)
    requires WellFormed(r.steps) && 1 <= k <= |r.steps|
    ensures FirstRow(r, k).stepIndex == k && FirstRow(r, k).maxAttempts > 0 && FirstRow(r, k).attempt == 0
  {
  }

  lemma StepIsFree(r: Request, n: nat)
    requires WellFormed(r.steps) && 0 < n <= |r.steps|
    ensures StepFree(FirstRows(r, n - 1), FirstRow(r, n).stepIndex)
    ensures FirstRow(r, n).maxAttempts > 0 && FirstRow(r, n).attempt == 0
  {
    hide FirstRows, FirstRow, WellFormed;
    FirstRowsHold(r, n - 1);
    FirstRowsStep(r, n);
    var rows := FirstRows(r, n - 1);
    forall id | id in rows ensures rows[id].stepIndex != n {
      FirstRowsStep(r, id - r.nextId + 1);
    }
  }

  lemma {:induction false} FanOutCreatesEveryStep(r: Request, i: Instance, n: nat)
    requires WellFormed(r.steps) && n <= |r.steps| && i.tasks == map[]
    requires i.steps == r.steps && i.exec.input == r.input && i.exec.taskQueue == r.queue && i.now == r.now
             && i.nextId == r.nextId
    ensures FanOut(i, n) == Some(i.(tasks := FirstRows(r, n), nextId := i.nextId + n))
  {
    hide StepFree, BuildTask, WellFormed;
    if n > 0 {
      FanOutCreatesEveryStep(r, i, n - 1);
      StepIsFree(r, n);
    }
  }

  lemma FirstRowOk(r: Request, k: nat)
    requires WellFormed(r.steps) && r.kind == Independent && 1 <= k <= |r.steps|
    ensures TaskOk(PlanFor(r), [], FirstRow(r, k))
    ensures FirstRow(r, k).stepIndex == k && Active(FirstRow(r, k))
  {
  }

  lemma FirstRowsOk(r: Request)
    requires WellFormed(r.steps) && r.kind == Independent
    ensures TasksOk(PlanFor(r), [], FirstRows(r, |r.steps|), r.nextId + |r.steps|)
    ensures AllActive(FirstRows(r, |r.steps|))
  {
    var rows := FirstRows(r, |r.steps|);
    FirstRowsHold(r, |r.steps|);
    hide FirstRows, FirstRow, TaskOk, WellFormed, Active;
    forall id | id in rows
      ensures TaskOk(PlanFor(r), [], rows[id])
      ensures rows[id].stepIndex == id - r.nextId + 1 && Active(rows[id])
    {
      FirstRowOk(r, id - r.nextId + 1);
    }
  }

  lemma FirstRowsCover(r: Request)
    requires WellFormed(r.steps)
    ensures Partition(|r.steps|, [], FirstRows(r, |r.steps|)) && !NoRows(FirstRows(r, |r.steps|))
  {
    var rows := FirstRows(r, |r.steps|);
    FirstRowsHold(r, |r.steps|);
    hide FirstRows;
    assert r.nextId in rows;
    forall k | 1 <= k <= |r.steps| ensures HasRow(rows, k) {
      assert r.nextId + k - 1 in rows;
    }
  }

  /** The state before the first tasks are created. */
  function Bare(r: Request): Instance {
    var exec := NewExecution(r.kind, |r.steps|, r.queue, r.input, r.timeout, r.now);
    var i := Instance(r.steps, exec, map[], map[], [], map[], Idle, r.now, r.nextId, r.nextEvent);
    Log(i, WorkflowStarted, 0, "", Raw(r.input), "").(exec := exec.(state := Running))
  }

  lemma BareIsFresh(r: Request)
    ensures var k := Bare(r);
            && PlanOf(k) == PlanFor(r) && k.exec.state == Running && k.tasks == map[] && k.comps == map[]
            && Outputs(k.history) == [] && Undone(k.history) == [] && Endings(k.history) == [] && !RolledBack(k.history)
            && Ordered(k.history, k.nextEvent) && 0 <= k.nextEvent && k.now == r.now && k.nextId == r.nextId
            && k.sweep == Idle && k.exec.result == None && k.exec.totalSteps == |r.steps| && k.exec.currentStep == 0
            && k.exec.completedSteps == 0 && k.exec.compensationDone == 0 && k.exec.compensationTotal == 0
  {
    hide Outputs, Undone, Endings, RolledBack, Ordered, Log;
    var exec := NewExecution(r.kind, |r.steps|, r.queue, r.input, r.timeout, r.now);
    var i := Instance(r.steps, exec, map[], map[], [], map[], Idle, r.now, r.nextId, r.nextEvent);
    EmptyHistory(r.nextEvent);
    var j := Logged(i, WorkflowStarted, 0, "", Raw(r.input), "");
  }

  function FirstTasks(r: Request): map<int, Row>
    requires r.steps != []
  {
    if r.kind == Independent then FirstRows(r, |r.steps|) else map[r.nextId := FirstRow(r, 1)]
  }

  lemma BeginIs(r: Request)
    requires WellFormed(r.steps)
    ensures StartTxOf(r).Commit?
    ensures Begin(r) == Bare(r).(tasks := FirstTasks(r),
                                 nextId := r.nextId + if r.kind == Independent then |r.steps| else 1)
  {
    BareIsFresh(r);
    var k := Bare(r);
    assert PlanOf(k).steps == r.steps && PlanOf(k).input == r.input && PlanOf(k).queue == r.queue;
    if r.kind == Independent {
      hide Append, FanOut, FirstRows;
      FanOutCreatesEveryStep(r, k, |r.steps|);
    } else {
      hide Append, FanOut;
      assert map[][r.nextId := FirstRow(r, 1)] == map[r.nextId := FirstRow(r, 1)];
    }
  }

  lemma FirstTasksOk(r: Request)
    requires WellFormed(r.steps)
    ensures var rows, p := FirstTasks(r), PlanFor(r);
            && TasksOk(p, [], rows, r.nextId + if r.kind == Independent then |r.steps| else 1)
            && AllActive(rows) && !NoRows(rows)
            && (r.kind == Independent ==> Partition(|r.steps|, [], rows))
  {
    if r.kind == Independent {
      FirstRowsOk(r);
      FirstRowsCover(r);
      hide FirstRows, Partition, TaskOk;
    } else {
      assert r.nextId in FirstTasks(r);
    }
  }

  /** A workflow with a well-formed definition always starts, and starts well. */
  lemma BeginKeeps(r: Request)
    requires WellFormed(r.steps)
    ensures StartTxOf(r).Commit? && Inv(Begin(r))
    ensures PlanOf(Begin(r)) == PlanFor(r)
    ensures Begin(r).exec.state == Running && Outputs(Begin(r).history) == []
    ensures Begin(r).tasks == if r.kind == Independent then FirstRows(r, |r.steps|) else map[r.nextId := FirstRow(r, 1)]
  {
    hide Outputs, Undone, Endings, RolledBack, Ordered, Begin, StartTxOf, Bare, FirstRows, FirstRow, TasksOk,
      AllActive, NoRows, Partition, WellFormed;
    BareIsFresh(r);
    FirstTasksOk(r);
    BeginIs(r);
    var n := Begin(r);
    assert TablesOk(n);
    assert RecordOk(n);
    assert RunningOk(n);
    InvFromParts(n);
  }

  lemma EmptyHistory(next: nat)
    ensures Outputs([]) == [] && Undone([]) == [] && Endings([]) == [] && !RolledBack([]) && Ordered([], next)
  {
  }

  lemma BeginsNow(r: Request)
    ensures Begin(r).now == r.now
  {
    hide Append, Outputs, Undone, Endings, RolledBack, Ordered, FanOut;
    if StartTxOf(r).Commit? && r.kind == Independent { FanOutKeepsTime(r); }
  }

  lemma FanOutKeepsTime(r: Request)
    ensures forall i: Instance, n: nat :: n <= |i.steps| && FanOut(i, n).Some? ==> FanOut(i, n).value.now == i.now
  {
    forall i: Instance, n: nat | n <= |i.steps| && FanOut(i, n).Some? ensures FanOut(i, n).value.now == i.now {
      FanOutNow(i, n);
    }
  }

  lemma {:induction false} FanOutNow(i: Instance, n: nat)
    requires n <= |i.steps| && FanOut(i, n).Some?
    ensures FanOut(i, n).value.now == i.now
  {
    if n > 0 { FanOutNow(i, n - 1); }
  }

  lemma RowsAtFirst(r: Request, rows: map<int, Row>)
    requires |r.steps| > 0
    requires rows == if r.kind == Independent then FirstRows(r, |r.steps|) else map[r.nextId := FirstRow(r, 1)]
    ensures forall id :: id in rows ==>
              1 <= id - r.nextId + 1 <= |r.steps| && rows[id] == FirstRow(r, id - r.nextId + 1)
  {
    FirstRowsHold(r, |r.steps|);
    hide FirstRows, FirstRow;
  }

  lemma TasksAtFirst(r: Request)
    requires WellFormed(r.steps)
    ensures var rows := Begin(r).tasks;
            forall id :: id in rows ==>
              1 <= id - r.nextId + 1 <= |r.steps| && rows[id] == FirstRow(r, id - r.nextId + 1)
    ensures Begin(r).comps == map[]
  {
    hide Begin, StartTxOf, FirstRows, FirstRow, Inv, PlanOf, Outputs;
    BeginKeeps(r);
    RowsWhileLive(Begin(r));
    RowsAtFirst(r, Begin(r).tasks);
  }

  /** What holds of an execution after any sequence of steps. */
  lemma AfterAnyRun(r: Request, acts: seq<Action>)
    requires WellFormed(r.steps)
    ensures Inv(Run(Begin(r), acts))
    ensures PlanOf(Run(Begin(r), acts)) == PlanFor(r)
  {
    BeginKeeps(r);
    RunKeeps(Begin(r), acts);
    RunFollows(Begin(r), acts);
  }

  /** The plan is fixed and the history only grows along a run. */
  lemma {:induction false} RunFollows(i: Instance, acts: seq<Action>)
    requires Inv(i)
    ensures PlanOf(Run(i, acts)) == PlanOf(i) && Grew(i.history, Run(i, acts).history)
    ensures i.nextId <= Run(i, acts).nextId
  {
    hide Inv, Next;
    if acts != [] {
      var before := Run(i, acts[..|acts| - 1]);
      RunFollows(i, acts[..|acts| - 1]);
      RunKeeps(i, acts[..|acts| - 1]);
      NextKeeps(before, acts[|acts| - 1]);
      GrewOn(i.history, before.history, Run(i, acts).history);
    }
  }
}
