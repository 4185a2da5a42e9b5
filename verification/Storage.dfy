/** The tables and the statements on them (infrastructure/persistence/). Rows of all executions share
    a table; ViewOf selects what belongs to one execution. */
module Storage {
  import opened StateMachine
  import opened Domain
  import opened Rows
  import opened Definitions
  import opened History
  import opened Instances

  datatype Workflow = Workflow(kind: WorkflowType, steps: seq<StepDef>)
  datatype ExecutionRow = ExecutionRow(definition: int, exec: Execution)
  datatype Owned = Owned(executionId: int, row: Row)
  datatype Entry = Entry(executionId: int, event: Event)

  /** sweeps is not a table: it says how far a running expiry sweep has come, and no query reads it. */
  datatype Tables = Tables(
    definitions: map<int, Workflow>,
    executions: map<int, ExecutionRow>,
    tasks: map<int, Owned>,
    comps: map<int, Owned>,
    history: seq<Entry>,
    checkpoints: map<int, map<int, Bytes>>,
    sweeps: map<int, Sweep>,
    now: int,
    nextExecution: int,
    nextId: int,
    nextEvent: int)

  // ---------------------------------------------------------------- one execution's share

  function RowsOf(table: map<int, Owned>, e: int): map<int, Row> {
    map id | id in table && table[id].executionId == e :: table[id].row
  }

  function EventsOf(history: seq<Entry>, e: int): seq<Event> {
    if history == [] then []
    else
      var rest := EventsOf(history[..|history| - 1], e);
      var last := history[|history| - 1];
      if last.executionId == e then rest + [last.event] else rest
  }

  function StepsOf(db: Tables, definition: int): seq<StepDef> {
    if definition in db.definitions then db.definitions[definition].steps else []
  }

  function ViewOf(db: Tables, e: int): (i: Instance)
    requires e in db.executions
    ensures i.now == db.now && i.nextId == db.nextId && i.nextEvent == db.nextEvent
  {
    Instance(StepsOf(db, db.executions[e].definition),
             db.executions[e].exec,
             RowsOf(db.tasks, e),
             RowsOf(db.comps, e),
             EventsOf(db.history, e),
             if e in db.checkpoints then db.checkpoints[e] else map[],
             if e in db.sweeps then db.sweeps[e] else Idle,
             db.now,
             db.nextId,
             db.nextEvent)
  }

  /** Foreign keys and fresh ids. */
  ghost predicate Sound(db: Tables) {
    && 0 <= db.nextEvent
    && (forall e :: e in db.executions ==> e < db.nextExecution)
    && (forall id :: id in db.tasks ==> id < db.nextId && db.tasks[id].executionId in db.executions)
    && (forall id :: id in db.comps ==> id < db.nextId && db.comps[id].executionId in db.executions)
    && (forall k :: 0 <= k < |db.history| ==> db.history[k].executionId in db.executions)
    && db.checkpoints.Keys <= db.executions.Keys && db.sweeps.Keys <= db.executions.Keys
  }

  /** The instance as it looks when others have moved the shared counters. */
  function At(i: Instance, db: Tables): Instance {
    i.(now := db.now, nextId := db.nextId, nextEvent := db.nextEvent)
  }

  /** From a to b nothing happened to any execution but e, and time stood still. */
  ghost predicate Only(a: Tables, b: Tables, e: int) {
    && Sound(b)
    && a.executions.Keys == b.executions.Keys && a.definitions == b.definitions
    && a.now == b.now && a.nextExecution == b.nextExecution
    && a.nextId <= b.nextId && a.nextEvent <= b.nextEvent
    && (forall o {:trigger ViewOf(b, o)} :: o in a.executions && o != e ==> ViewOf(b, o) == At(ViewOf(a, o), b))
    && SameOwners(a.tasks, b.tasks, e) && SameOwners(a.comps, b.comps, e)
  }

  /** A row that does not belong to e belongs to whom it belonged before. */
  ghost predicate SameOwners(a: map<int, Owned>, b: map<int, Owned>, e: int) {
    forall id {:trigger b[id]} :: id in b && b[id].executionId != e ==>
      id in a && a[id].executionId == b[id].executionId
  }

  lemma OnlyNothing(db: Tables, e: int)
    requires Sound(db)
    ensures Only(db, db, e)
  {
  }

  lemma OnlyTwice(a: Tables, b: Tables, c: Tables, e: int)
    requires Only(a, b, e) && Only(b, c, e)
    ensures Only(a, c, e)
  {
    hide ViewOf, Sound;
  }

  // ---------------------------------------------------------------- statements on a row table

  lemma RowSet(table: map<int, Owned>, id: int, e: int, r: Row, o: int)
    requires id in table ==> table[id].executionId == e
    ensures RowsOf(table[id := Owned(e, r)], o) == if o == e then RowsOf(table, o)[id := r] else RowsOf(table, o)
  {
  }

  lemma RowDeleted(table: map<int, Owned>, id: int, o: int)
    ensures RowsOf(table - {id}, o) == RowsOf(table, o) - {id}
    ensures id !in table || table[id].executionId != o ==> RowsOf(table, o) - {id} == RowsOf(table, o)
  {
  }

  /** UPDATE ... SET state = 'CANCELLED' WHERE workflow_execution_id = e AND state is active. */
  function CancelledRows(table: map<int, Owned>, e: int): map<int, Owned> {
    map id | id in table ::
      if table[id].executionId == e then table[id].(row := CancelRow(table[id].row)) else table[id]
  }

  lemma RowsCancelled(table: map<int, Owned>, e: int, o: int)
    ensures RowsOf(CancelledRows(table, e), o) == if o == e then CancelRows(RowsOf(table, o)) else RowsOf(table, o)
  {
  }

  /** The constraint UNIQUE (workflow_execution_id, step_index), looked up in the whole table. */
  predicate StepUnused(table: map<int, Owned>, e: int, step: int) {
    forall id :: id in table && table[id].executionId == e ==> table[id].row.stepIndex != step
  }

  lemma UnusedIsFree(table: map<int, Owned>, e: int, step: int)
    ensures StepUnused(table, e, step) <==> StepFree(RowsOf(table, e), step)
  {
    if StepFree(RowsOf(table, e), step) {
      forall id | id in table && table[id].executionId == e ensures table[id].row.stepIndex != step {
        assert id in RowsOf(table, e);
      }
    }
  }

  lemma ActiveSomewhere(table: map<int, Owned>, e: int)
    ensures (exists id :: id in table && table[id].executionId == e && Active(table[id].row))
            <==> (exists id :: id in RowsOf(table, e) && Active(RowsOf(table, e)[id]))
  {
    if id :| id in table && table[id].executionId == e && Active(table[id].row) {
      assert id in RowsOf(table, e);
    }
    if id :| id in RowsOf(table, e) && Active(RowsOf(table, e)[id]) {
      assert id in table;
    }
  }

  lemma EventAppended(history: seq<Entry>, entry: Entry, o: int)
    ensures EventsOf(history + [entry], o)
            == if entry.executionId == o then EventsOf(history, o) + [entry.event] else EventsOf(history, o)
  {
    assert (history + [entry])[..|history|] == history;
  }

  lemma NothingIn(s: set<int>)
    requires forall x :: x !in s
    ensures s == {}
  {
    var none: set<int> := {};
    assert forall x :: x in s <==> x in none;
  }

  lemma Inhabited(s: set<int>)
    requires s != {}
    ensures exists x :: x in s
  {
    if forall x :: x !in s {
      NothingIn(s);
    }
  }

  lemma NoRowsYet(table: map<int, Owned>, e: int)
    requires forall id :: id in table ==> table[id].executionId != e
    ensures RowsOf(table, e) == map[]
  {
    assert forall id :: id !in RowsOf(table, e);
  }

  lemma NoEvents(history: seq<Entry>, e: int)
    requires forall k :: 0 <= k < |history| ==> history[k].executionId != e
    ensures EventsOf(history, e) == []
  {
  }

  /** The rows that FindAndLockPending may pick. */
  predicate TaskPending(db: Tables, id: int, queue: string) {
    id in db.tasks && db.tasks[id].row.taskQueue == queue && Eligible(db.tasks[id].row, db.now)
  }

  predicate CompensationPending(db: Tables, id: int, queue: string) {
    id in db.comps && db.comps[id].row.taskQueue == queue && Eligible(db.comps[id].row, db.now)
  }

  lemma NoTaskPending(db: Tables, queue: string)
    requires forall id :: !TaskPending(db, id, queue)
    ensures forall id :: id in db.tasks && db.tasks[id].row.taskQueue == queue ==>
              && (db.tasks[id].row.state == Created ==> db.now < db.tasks[id].row.scheduledAt)
              && (db.tasks[id].row.state == Running && db.tasks[id].row.lockedUntil.Some? ==>
                    db.now <= db.tasks[id].row.lockedUntil.value)
  {
    forall id | id in db.tasks && db.tasks[id].row.taskQueue == queue ensures !Eligible(db.tasks[id].row, db.now) {
      assert !TaskPending(db, id, queue);
    }
  }

  lemma NoCompensationPending(db: Tables, queue: string)
    requires forall id :: !CompensationPending(db, id, queue)
    ensures forall id :: id in db.comps && db.comps[id].row.taskQueue == queue ==>
              && (db.comps[id].row.state == Created ==> db.now < db.comps[id].row.scheduledAt)
              && (db.comps[id].row.state == Running && db.comps[id].row.lockedUntil.Some? ==>
                    db.now <= db.comps[id].row.lockedUntil.value)
  {
    forall id | id in db.comps && db.comps[id].row.taskQueue == queue ensures !Eligible(db.comps[id].row, db.now) {
      assert !CompensationPending(db, id, queue);
    }
  }

  // ---------------------------------------------------------------- transactions

  /** What a rollback leaves: everything as it was saved, but checkpoints as they are. */
  function RolledBackTo(saved: Tables, db: Tables): Tables {
    saved.(checkpoints := map e | e in db.checkpoints && e in saved.executions :: db.checkpoints[e])
  }

  lemma RolledBackView(saved: Tables, db: Tables, o: int)
    requires o in saved.executions && o in db.executions
    ensures ViewOf(RolledBackTo(saved, db), o) == ViewOf(saved, o).(checkpoints := ViewOf(db, o).checkpoints)
  {
    hide RowsOf, EventsOf;
  }

  lemma RolledBackSound(saved: Tables, db: Tables)
    requires Sound(saved)
    ensures var r := RolledBackTo(saved, db); Sound(r) && r == saved.(checkpoints := r.checkpoints)
  {
  }

  lemma RolledBackViews(saved: Tables, db: Tables, e: int)
    requires Sound(saved) && Only(saved, db, e) && e in saved.executions
    ensures Only(saved, RolledBackTo(saved, db), e)
    ensures ViewOf(RolledBackTo(saved, db), e) == ViewOf(saved, e).(checkpoints := ViewOf(db, e).checkpoints)
  {
    hide ViewOf, Sound, RolledBackTo;
    RolledBackSound(saved, db);
    forall o | o in saved.executions {
      RolledBackView(saved, db, o);
    }
  }

  // ---------------------------------------------------------------- statements for one execution

  lemma ExecutionWritten(db: Tables, e: int, exec: Execution)
    requires Sound(db) && e in db.executions
    ensures var n := db.(executions := db.executions[e := db.executions[e].(exec := exec)]);
            Only(db, n, e) && ViewOf(n, e) == ViewOf(db, e).(exec := exec)
  {
    hide RowsOf, EventsOf;
  }

  lemma TaskWritten(db: Tables, id: int, r: Row)
    requires Sound(db) && id in db.tasks
    ensures var e := db.tasks[id].executionId;
            var n := db.(tasks := db.tasks[id := Owned(e, r)]);
            Only(db, n, e) && ViewOf(n, e) == ViewOf(db, e).(tasks := ViewOf(db, e).tasks[id := r])
  {
    hide RowsOf, EventsOf;
    forall o { RowSet(db.tasks, id, db.tasks[id].executionId, r, o); }
  }

  function WithTask(db: Tables, e: int, r: Row): Tables {
    db.(tasks := db.tasks[db.nextId := Owned(e, r)], nextId := db.nextId + 1)
  }

  lemma TaskAddedTo(db: Tables, n: Tables, e: int, r: Row, o: int)
    requires Sound(db) && o in db.executions && n == WithTask(db, e, r)
    ensures ViewOf(n, o) ==
              if o == e then ViewOf(db, e).(tasks := ViewOf(db, e).tasks[db.nextId := r], nextId := n.nextId)
              else At(ViewOf(db, o), n)
  {
    assert db.nextId !in db.tasks;
    hide EventsOf, RowsOf, Sound;
    RowSet(db.tasks, db.nextId, e, r, o);
  }

  lemma TaskAdded(db: Tables, e: int, r: Row)
    requires Sound(db) && e in db.executions
    ensures var n := WithTask(db, e, r);
            Only(db, n, e) && e in n.executions
            && ViewOf(n, e) == ViewOf(db, e).(tasks := ViewOf(db, e).tasks[db.nextId := r], nextId := db.nextId + 1)
  {
    var n := WithTask(db, e, r);
    assert Sound(n);
    forall o | o in db.executions {
      TaskAddedTo(db, n, e, r, o);
    }
    hide ViewOf, Sound;
  }

  lemma TaskDeleted(db: Tables, e: int, id: int)
    requires Sound(db) && e in db.executions && (id in db.tasks ==> db.tasks[id].executionId == e)
    ensures var n := db.(tasks := db.tasks - {id});
            Only(db, n, e) && ViewOf(n, e) == DropTask(ViewOf(db, e), id)
  {
    hide RowsOf, EventsOf;
    forall o { RowDeleted(db.tasks, id, o); }
  }

  lemma TasksCancelledOf(db: Tables, e: int)
    requires Sound(db) && e in db.executions
    ensures var n := db.(tasks := CancelledRows(db.tasks, e));
            Only(db, n, e) && ViewOf(n, e) == ViewOf(db, e).(tasks := CancelRows(ViewOf(db, e).tasks))
  {
    hide RowsOf, EventsOf;
    forall o { RowsCancelled(db.tasks, e, o); }
    assert Sound(db.(tasks := CancelledRows(db.tasks, e)));
    hide Sound, CancelledRows, CancelRows;
  }

  lemma CompensationWritten(db: Tables, id: int, r: Row)
    requires Sound(db) && id in db.comps
    ensures var e := db.comps[id].executionId;
            var n := db.(comps := db.comps[id := Owned(e, r)]);
            Only(db, n, e) && ViewOf(n, e) == ViewOf(db, e).(comps := ViewOf(db, e).comps[id := r])
  {
    hide RowsOf, EventsOf;
    forall o { RowSet(db.comps, id, db.comps[id].executionId, r, o); }
  }

  function WithCompensation(db: Tables, e: int, r: Row): Tables {
    db.(comps := db.comps[db.nextId := Owned(e, r)], nextId := db.nextId + 1)
  }

  lemma CompensationAddedTo(db: Tables, n: Tables, e: int, r: Row, o: int)
    requires Sound(db) && o in db.executions && n == WithCompensation(db, e, r)
    ensures ViewOf(n, o) ==
              if o == e then ViewOf(db, e).(comps := ViewOf(db, e).comps[db.nextId := r], nextId := n.nextId)
              else At(ViewOf(db, o), n)
  {
    assert db.nextId !in db.comps;
    hide EventsOf, RowsOf, Sound;
    RowSet(db.comps, db.nextId, e, r, o);
  }

  lemma CompensationAdded(db: Tables, e: int, r: Row)
    requires Sound(db) && e in db.executions
    ensures var n := WithCompensation(db, e, r);
            Only(db, n, e) && e in n.executions
            && ViewOf(n, e) == ViewOf(db, e).(comps := ViewOf(db, e).comps[db.nextId := r], nextId := db.nextId + 1)
  {
    var n := WithCompensation(db, e, r);
    assert Sound(n);
    forall o | o in db.executions {
      CompensationAddedTo(db, n, e, r, o);
    }
    hide ViewOf, Sound;
  }

  lemma CompensationDeleted(db: Tables, e: int, id: int)
    requires Sound(db) && e in db.executions && (id in db.comps ==> db.comps[id].executionId == e)
    ensures var n := db.(comps := db.comps - {id});
            Only(db, n, e) && ViewOf(n, e) == DropCompensation(ViewOf(db, e), id)
  {
    hide RowsOf, EventsOf;
    forall o { RowDeleted(db.comps, id, o); }
  }

  lemma CompensationsCancelledOf(db: Tables, e: int)
    requires Sound(db) && e in db.executions
    ensures var n := db.(comps := CancelledRows(db.comps, e));
            Only(db, n, e) && ViewOf(n, e) == ViewOf(db, e).(comps := CancelRows(ViewOf(db, e).comps))
  {
    hide RowsOf, EventsOf;
    forall o { RowsCancelled(db.comps, e, o); }
    assert Sound(db.(comps := CancelledRows(db.comps, e)));
    hide Sound, CancelledRows, CancelRows;
  }

  function WithEvent(db: Tables, e: int, kind: EventType, step: int, stepName: string, payload: Payload,
                     error: string): Tables {
    db.(history := db.history + [Entry(e, Event(db.nextEvent, kind, step, stepName, payload, error))],
        nextEvent := db.nextEvent + 1)
  }

  lemma EventAddedTo(db: Tables, n: Tables, e: int, event: Event, o: int)
    requires Sound(db) && e in db.executions && o in db.executions
    requires n == db.(history := db.history + [Entry(e, event)], nextEvent := db.nextEvent + 1)
    ensures ViewOf(n, o) ==
              if o == e then ViewOf(db, e).(history := EventsOf(db.history, e) + [event], nextEvent := n.nextEvent)
              else At(ViewOf(db, o), n)
  {
    hide EventsOf, RowsOf, Sound;
    EventAppended(db.history, Entry(e, event), o);
  }

  lemma EventWritten(db: Tables, e: int, kind: EventType, step: int, stepName: string, payload: Payload, error: string)
    requires Sound(db) && e in db.executions
    ensures var n := WithEvent(db, e, kind, step, stepName, payload, error);
            Only(db, n, e) && e in n.executions
            && ViewOf(n, e) == Log(ViewOf(db, e), kind, step, stepName, payload, error)
  {
    hide Outputs, Undone, Endings, RolledBack, Ordered, EventsOf, RowsOf;
    var n := WithEvent(db, e, kind, step, stepName, payload, error);
    assert Sound(n);
    forall o | o in db.executions {
      EventAddedTo(db, n, e, Event(db.nextEvent, kind, step, stepName, payload, error), o);
    }
    assert EventsOf(db.history, e) == ViewOf(db, e).history;
    hide ViewOf, Sound;
  }

  lemma CheckpointWritten(db: Tables, e: int, step: int, snapshot: Bytes)
    requires Sound(db) && e in db.executions
    ensures var mine := if e in db.checkpoints then db.checkpoints[e] else map[];
            var n := db.(checkpoints := db.checkpoints[e := mine[step := snapshot]]);
            Only(db, n, e) && ViewOf(n, e) == ViewOf(db, e).(checkpoints := ViewOf(db, e).checkpoints[step := snapshot])
  {
    hide RowsOf, EventsOf;
  }

  lemma SweepWritten(db: Tables, e: int, s: Sweep)
    requires Sound(db) && e in db.executions
    ensures var n := db.(sweeps := db.sweeps[e := s]);
            Only(db, n, e) && ViewOf(n, e) == ViewOf(db, e).(sweep := s)
  {
    hide RowsOf, EventsOf;
    assert Sound(db.(sweeps := db.sweeps[e := s]));
    hide Sound;
  }

  lemma TaskInView(db: Tables, id: int)
    requires Sound(db) && id in db.tasks
    ensures var e := db.tasks[id].executionId;
            e in db.executions && id in ViewOf(db, e).tasks && ViewOf(db, e).tasks[id] == db.tasks[id].row
  {
  }

  lemma CompensationInView(db: Tables, id: int)
    requires Sound(db) && id in db.comps
    ensures var e := db.comps[id].executionId;
            e in db.executions && id in ViewOf(db, e).comps && ViewOf(db, e).comps[id] == db.comps[id].row
  {
  }

  // ---------------------------------------------------------------- expiry

  /** WHERE deadline_at < NOW() AND state is not over. */
  predicate PastDeadline(x: Execution, now: int) {
    x.deadlineAt.Some? && now > x.deadlineAt.value && x.state in {Created, Running, Compensating}
  }

  lemma PastDeadlineIsOverdue(db: Tables, e: int)
    requires e in db.executions
    ensures var x := db.executions[e].exec;
            && (PastDeadline(x, db.now) <==> Overdue(ViewOf(db, e)))
            && Flip(ViewOf(db, e)).exec
               == (if PastDeadline(x, db.now) then x.(state := Failed, error := TIMED_OUT) else x)
  {
    hide RowsOf, EventsOf;
    TerminalByName(db.executions[e].exec.state);
  }

  lemma ExpiredRows(a: Tables, b: Tables)
    requires a.executions.Keys == b.executions.Keys
    requires forall e :: e in b.executions ==> ViewOf(b, e) == Flip(ViewOf(a, e))
    ensures forall e :: e in a.executions ==>
              var x := a.executions[e].exec;
              && (PastDeadline(x, a.now) <==> Overdue(ViewOf(a, e)))
              && b.executions[e].exec == if PastDeadline(x, a.now) then x.(state := Failed, error := TIMED_OUT) else x
  {
    hide Flip, Overdue, PastDeadline, RowsOf, EventsOf;
    forall e | e in a.executions
      ensures var x := a.executions[e].exec;
              && (PastDeadline(x, a.now) <==> Overdue(ViewOf(a, e)))
              && b.executions[e].exec == if PastDeadline(x, a.now) then x.(state := Failed, error := TIMED_OUT) else x
    {
      PastDeadlineIsOverdue(a, e);
      assert ViewOf(b, e).exec == b.executions[e].exec;
    }
  }

  // ---------------------------------------------------------------- the repositories

  /** A statement on behalf of one execution says what it does to that execution's share of the
      tables, and that it does nothing to any other. */
  class Database {
    var db: Tables
    ghost var start: Tables

    ghost predicate Valid()
      reads this
    {
      Sound(db)
    }

    /** Since Begin nothing was done but on behalf of e. */
    ghost predicate InTx(e: int)
      reads this
    {
      e in db.executions && Only(start, db, e)
    }

    ghost method Begin()
      requires Valid()
      modifies `start
      ensures start == db
      ensures forall e :: e in db.executions ==> InTx(e)
    {
      start := db;
      forall e | e in db.executions ensures Only(start, db, e) {
        OnlyNothing(db, e);
      }
    }

    constructor (definitions: map<int, Workflow>, now: int)
      ensures Valid() && db.executions == map[] && db.definitions == definitions && db.now == now
    {
      db := Tables(definitions, map[], map[], map[], [], map[], map[], now, 0, 0, 0);
      start := Tables(definitions, map[], map[], map[], [], map[], map[], now, 0, 0, 0);
    }

    // ------------------------------------------------------------ workflow_execution

    method CreateExecution(definition: int, exec: Execution) returns (e: int)
      requires Valid()
      modifies this
      ensures Valid() && e == old(db).nextExecution && e !in old(db).executions
      ensures db.executions.Keys == old(db).executions.Keys + {e} && db.definitions == old(db).definitions
      ensures forall o :: o in old(db).executions ==> ViewOf(db, o) == ViewOf(old(db), o)
      ensures ViewOf(db, e) == Instance(StepsOf(db, definition), exec, map[], map[], [], map[], Idle,
                                        old(db).now, old(db).nextId, old(db).nextEvent)
    {
      e := db.nextExecution;
      db := db.(executions := db.executions[e := ExecutionRow(definition, exec)], nextExecution := e + 1);
      NoEvents(db.history, e);
      NoRowsYet(db.tasks, e);
      NoRowsYet(db.comps, e);
    }

    method GetExecution(e: int) returns (exec: Option<Execution>)
      ensures exec == if e in db.executions then Some(ViewOf(db, e).exec) else None
    {
      exec := if e in db.executions then Some(db.executions[e].exec) else None;
    }

    /** UPDATE workflow_execution ... WHERE id = e. */
    method SetExecution(e: int, exec: Execution)
      requires InTx(e)
      modifies `db
      ensures InTx(e) && ViewOf(db, e) == ViewOf(old(db), e).(exec := exec)
      ensures db.nextId == old(db).nextId && db.nextEvent == old(db).nextEvent
    {
      ghost var before := db;
      assert Sound(db);
      hide ViewOf, Sound, SameOwners, Only;
      ExecutionWritten(db, e, exec);
      db := db.(executions := db.executions[e := db.executions[e].(exec := exec)]);
      OnlyTwice(start, before, db, e);
    }

    /** False is ErrConflict. */
    method UpdateState(e: int, state: State) returns (ok: bool)
      requires InTx(e)
      modifies `db
      ensures InTx(e)
      ensures ViewOf(db, e) == TrySetState(ViewOf(old(db), e), state)
      ensures ok == SetState(ViewOf(old(db), e), state).Some?
      ensures ok ==> Some(ViewOf(db, e)) == SetState(ViewOf(old(db), e), state)
    {
      var exec := db.executions[e].exec;
      TerminalByName(exec.state);
      if exec.state in {Completed, Failed, Cancelled} { return false; }
      SetExecution(e, exec.(state := state));
      return true;
    }

    method UpdateStepCursor(e: int, step: int)
      requires InTx(e)
      modifies `db
      ensures InTx(e)
      ensures ViewOf(db, e) == if IsTerminal(ViewOf(old(db), e).exec.state) then ViewOf(old(db), e)
                               else ViewOf(old(db), e).(exec := ViewOf(old(db), e).exec.(currentStep := step))
    {
      var exec := db.executions[e].exec;
      TerminalByName(exec.state);
      if exec.state !in {Completed, Failed, Cancelled} {
        SetExecution(e, exec.(currentStep := step));
      }
    }

    method SaveResult(e: int, result: Payload)
      requires InTx(e)
      modifies `db
      ensures InTx(e) && ViewOf(db, e) == Instances.SaveResult(ViewOf(old(db), e), result)
    {
      var exec := db.executions[e].exec;
      TerminalByName(exec.state);
      if exec.state !in {Completed, Failed, Cancelled} {
        SetExecution(e, exec.(result := Some(result)));
      }
    }

    method SaveError(e: int, error: string)
      requires InTx(e)
      modifies `db
      ensures InTx(e) && ViewOf(db, e) == Instances.SaveError(ViewOf(old(db), e), error)
    {
      SetExecution(e, db.executions[e].exec.(error := error));
    }

    method IncrementCompletedSteps(e: int) returns (count: int)
      requires InTx(e)
      modifies `db
      ensures InTx(e)
      ensures var exec := ViewOf(old(db), e).exec;
              ViewOf(db, e) == ViewOf(old(db), e).(exec := exec.(completedSteps := exec.completedSteps + 1))
      ensures count == ViewOf(db, e).exec.completedSteps
    {
      count := db.executions[e].exec.completedSteps + 1;
      SetExecution(e, db.executions[e].exec.(completedSteps := count));
    }

    method IncrementCompensationDone(e: int) returns (count: int)
      requires InTx(e)
      modifies `db
      ensures InTx(e)
      ensures var exec := ViewOf(old(db), e).exec;
              ViewOf(db, e) == ViewOf(old(db), e).(exec := exec.(compensationDone := exec.compensationDone + 1))
      ensures count == ViewOf(db, e).exec.compensationDone
    {
      count := db.executions[e].exec.compensationDone + 1;
      SetExecution(e, db.executions[e].exec.(compensationDone := count));
    }

    method SetCompensationTotal(e: int, total: int)
      requires InTx(e)
      modifies `db
      ensures InTx(e)
      ensures ViewOf(db, e) == ViewOf(old(db), e).(exec := ViewOf(old(db), e).exec.(compensationTotal := total))
    {
      SetExecution(e, db.executions[e].exec.(compensationTotal := total));
    }

    // ------------------------------------------------------------ task

    method GetTask(id: int) returns (found: Option<Owned>)
      requires Valid()
      ensures found.Some? <==> id in db.tasks
      ensures found.Some? ==> (
        var e := found.value.executionId;
        e == db.tasks[id].executionId && e in db.executions
        && id in ViewOf(db, e).tasks && found.value.row == ViewOf(db, e).tasks[id])
    {
      found := if id in db.tasks then Some(db.tasks[id]) else None;
    }

    /** UPDATE task ... WHERE id = id. */
    method SetTask(id: int, r: Row)
      requires id in db.tasks && InTx(db.tasks[id].executionId)
      modifies `db
      ensures var e := old(db).tasks[id].executionId;
              && InTx(e) && id in db.tasks && db.tasks[id].executionId == e
              && ViewOf(db, e) == ViewOf(old(db), e).(tasks := ViewOf(old(db), e).tasks[id := r])
    {
      ghost var before := db;
      assert Sound(db);
      hide ViewOf, Sound, SameOwners, Only;
      TaskWritten(db, id, r);
      db := db.(tasks := db.tasks[id := db.tasks[id].(row := r)]);
      OnlyTwice(start, before, db, db.tasks[id].executionId);
    }

    method UpdateTaskCompleted(id: int, output: Bytes, err: string)
      requires id in db.tasks ==> InTx(db.tasks[id].executionId)
      modifies `db
      ensures id !in old(db).tasks ==> db == old(db)
      ensures id in old(db).tasks ==> (
        var e := old(db).tasks[id].executionId;
        && InTx(e) && id in db.tasks && db.tasks[id].executionId == e
        && id in ViewOf(old(db), e).tasks
        && (var i := ViewOf(old(db), e);
            ViewOf(db, e) == i.(tasks := i.tasks[id := ReportRow(i.tasks[id], output, err)])))
    {
      if id in db.tasks {
        SetTask(id, ReportRow(db.tasks[id].row, output, err));
      }
    }

    /** False when a constraint refuses the row. */
    method CreateTask(e: int, r: Row) returns (ok: bool)
      requires InTx(e)
      modifies `db
      ensures InTx(e)
      ensures ok == InsertTask(ViewOf(old(db), e), r).Some?
      ensures ok <==>
                && r.maxAttempts > 0 && r.attempt >= 0
                && forall id :: id in old(db).tasks && old(db).tasks[id].executionId == e ==>
                     old(db).tasks[id].row.stepIndex != r.stepIndex
      ensures ok ==> Some(ViewOf(db, e)) == InsertTask(ViewOf(old(db), e), r)
      ensures !ok ==> ViewOf(db, e) == ViewOf(old(db), e)
    {
      assert StepUnused(db.tasks, e, r.stepIndex)
             <==> forall id :: id in db.tasks && db.tasks[id].executionId == e ==>
                    db.tasks[id].row.stepIndex != r.stepIndex;
      hide StepFree, StepUnused, Sound;
      UnusedIsFree(db.tasks, e, r.stepIndex);
      ok := r.maxAttempts > 0 && r.attempt >= 0 && StepUnused(db.tasks, e, r.stepIndex);
      if ok {
        hide RowsOf, EventsOf;
        AddTask(e, r);
      }
    }

    method AddTask(e: int, r: Row)
      requires InTx(e)
      modifies `db
      ensures InTx(e)
      ensures ViewOf(db, e) == ViewOf(old(db), e)
                               .(tasks := ViewOf(old(db), e).tasks[old(db).nextId := r], nextId := old(db).nextId + 1)
    {
      ghost var before := db;
      assert Sound(db);
      hide ViewOf, Sound, SameOwners, Only, WithTask;
      TaskAdded(db, e, r);
      db := WithTask(db, e, r);
      OnlyTwice(start, before, db, e);
    }

    method DeleteTask(ghost e: int, id: int)
      requires InTx(e) && id in start.tasks && start.tasks[id].executionId == e
      modifies `db
      ensures InTx(e) && ViewOf(db, e) == DropTask(ViewOf(old(db), e), id)
    {
      ghost var before := db;
      assert Sound(db);
      hide ViewOf, Sound, SameOwners, Only;
      TaskDeleted(db, e, id);
      db := db.(tasks := db.tasks - {id});
      OnlyTwice(start, before, db, e);
    }

    method CancelTasks(e: int)
      requires InTx(e)
      modifies `db
      ensures InTx(e)
      ensures ViewOf(db, e) == ViewOf(old(db), e).(tasks := CancelRows(ViewOf(old(db), e).tasks))
    {
      ghost var before := db;
      assert Sound(db);
      hide ViewOf, Sound, SameOwners, Only;
      TasksCancelledOf(db, e);
      db := db.(tasks := CancelledRows(db.tasks, e));
      OnlyTwice(start, before, db, e);
    }

    method HasActiveTasks(e: int) returns (found: bool)
      requires e in db.executions
      ensures found == Instances.HasActiveTasks(ViewOf(db, e))
    {
      ActiveSomewhere(db.tasks, e);
      found := exists id :: id in db.tasks && db.tasks[id].executionId == e && Active(db.tasks[id].row);
    }

    // ------------------------------------------------------------ compensation_task

    method GetCompensation(id: int) returns (found: Option<Owned>)
      requires Valid()
      ensures found.Some? <==> id in db.comps
      ensures found.Some? ==> (
        var e := found.value.executionId;
        e == db.comps[id].executionId && e in db.executions
        && id in ViewOf(db, e).comps && found.value.row == ViewOf(db, e).comps[id])
    {
      found := if id in db.comps then Some(db.comps[id]) else None;
    }

    method SetCompensation(id: int, r: Row)
      requires id in db.comps && InTx(db.comps[id].executionId)
      modifies `db
      ensures var e := old(db).comps[id].executionId;
              && InTx(e) && id in db.comps && db.comps[id].executionId == e
              && ViewOf(db, e) == ViewOf(old(db), e).(comps := ViewOf(old(db), e).comps[id := r])
    {
      ghost var before := db;
      assert Sound(db);
      hide ViewOf, Sound, SameOwners, Only;
      CompensationWritten(db, id, r);
      db := db.(comps := db.comps[id := db.comps[id].(row := r)]);
      OnlyTwice(start, before, db, db.comps[id].executionId);
    }

    method UpdateCompensationCompleted(id: int, output: Bytes, err: string)
      requires id in db.comps ==> InTx(db.comps[id].executionId)
      modifies `db
      ensures id !in old(db).comps ==> db == old(db)
      ensures id in old(db).comps ==> (
        var e := old(db).comps[id].executionId;
        && InTx(e) && id in db.comps && db.comps[id].executionId == e
        && id in ViewOf(old(db), e).comps
        && (var i := ViewOf(old(db), e);
            ViewOf(db, e) == i.(comps := i.comps[id := ReportRow(i.comps[id], output, err)])))
    {
      if id in db.comps {
        SetCompensation(id, ReportRow(db.comps[id].row, output, err));
      }
    }

    method CreateCompensation(e: int, r: Row) returns (ok: bool)
      requires InTx(e)
      modifies `db
      ensures InTx(e)
      ensures ok == InsertCompensation(ViewOf(old(db), e), r).Some?
      ensures ok <==> forall id :: id in old(db).comps && old(db).comps[id].executionId == e ==>
                        old(db).comps[id].row.stepIndex != r.stepIndex
      ensures ok ==> Some(ViewOf(db, e)) == InsertCompensation(ViewOf(old(db), e), r)
      ensures !ok ==> ViewOf(db, e) == ViewOf(old(db), e)
    {
      assert StepUnused(db.comps, e, r.stepIndex)
             <==> forall id :: id in db.comps && db.comps[id].executionId == e ==>
                    db.comps[id].row.stepIndex != r.stepIndex;
      hide StepFree, StepUnused, Sound;
      UnusedIsFree(db.comps, e, r.stepIndex);
      ok := StepUnused(db.comps, e, r.stepIndex);
      if ok {
        hide RowsOf, EventsOf;
        AddCompensation(e, r);
      }
    }

    method AddCompensation(e: int, r: Row)
      requires InTx(e)
      modifies `db
      ensures InTx(e)
      ensures ViewOf(db, e) == ViewOf(old(db), e)
                               .(comps := ViewOf(old(db), e).comps[old(db).nextId := r], nextId := old(db).nextId + 1)
    {
      ghost var before := db;
      assert Sound(db);
      hide ViewOf, Sound, SameOwners, Only, WithCompensation;
      CompensationAdded(db, e, r);
      db := WithCompensation(db, e, r);
      OnlyTwice(start, before, db, e);
    }

    method DeleteCompensation(ghost e: int, id: int)
      requires InTx(e) && id in start.comps && start.comps[id].executionId == e
      modifies `db
      ensures InTx(e) && ViewOf(db, e) == DropCompensation(ViewOf(old(db), e), id)
    {
      ghost var before := db;
      assert Sound(db);
      hide ViewOf, Sound, SameOwners, Only;
      CompensationDeleted(db, e, id);
      db := db.(comps := db.comps - {id});
      OnlyTwice(start, before, db, e);
    }

    method CancelCompensations(e: int)
      requires InTx(e)
      modifies `db
      ensures InTx(e)
      ensures ViewOf(db, e) == ViewOf(old(db), e).(comps := CancelRows(ViewOf(old(db), e).comps))
    {
      ghost var before := db;
      assert Sound(db);
      hide ViewOf, Sound, SameOwners, Only;
      CompensationsCancelledOf(db, e);
      db := db.(comps := CancelledRows(db.comps, e));
      OnlyTwice(start, before, db, e);
    }

    // ------------------------------------------------------------ history_event, checkpoint

    method AppendHistory(e: int, kind: EventType, step: int, stepName: string, payload: Payload, error: string)
      requires InTx(e)
      modifies `db
      ensures InTx(e)
      ensures ViewOf(db, e) == Log(ViewOf(old(db), e), kind, step, stepName, payload, error)
    {
      ghost var before := db;
      assert Sound(db);
      hide ViewOf, Sound, SameOwners, Only, WithEvent;
      EventWritten(db, e, kind, step, stepName, payload, error);
      db := WithEvent(db, e, kind, step, stepName, payload, error);
      OnlyTwice(start, before, db, e);
    }

    /** GetStepOutputs: ORDER BY step_index. */
    method GetStepOutputs(e: int) returns (outs: seq<TaskOutput>)
      requires e in db.executions
      ensures outs == StepOutputs(ViewOf(db, e).history)
    {
      outs := StepOutputs(EventsOf(db.history, e));
    }

    /** GetStepsByDefinitionID. */
    method GetSteps(e: int) returns (steps: seq<StepDef>)
      requires e in db.executions
      ensures steps == ViewOf(db, e).steps
    {
      steps := StepsOf(db, db.executions[e].definition);
    }

    method GetCompensationSteps(e: int, upTo: int) returns (steps: seq<StepDef>)
      requires e in db.executions
      ensures steps == CompensationSteps(ViewOf(db, e).steps, upTo)
    {
      steps := CompensationSteps(StepsOf(db, db.executions[e].definition), upTo);
    }

    method GetByDefinitionAndIndex(e: int, index: int) returns (step: Option<StepDef>)
      requires e in db.executions
      ensures step == StepAt(ViewOf(db, e).steps, index)
    {
      step := StepAt(StepsOf(db, db.executions[e].definition), index);
    }

    method SaveCheckpoint(e: int, step: int, snapshot: Bytes)
      requires InTx(e)
      modifies `db
      ensures InTx(e)
      ensures ViewOf(db, e) == ViewOf(old(db), e).(checkpoints := ViewOf(old(db), e).checkpoints[step := snapshot])
    {
      ghost var before := db;
      assert Sound(db);
      hide ViewOf, Sound, SameOwners, Only;
      CheckpointWritten(db, e, step, snapshot);
      var mine := if e in db.checkpoints then db.checkpoints[e] else map[];
      db := db.(checkpoints := db.checkpoints[e := mine[step := snapshot]]);
      OnlyTwice(start, before, db, e);
    }

    // ------------------------------------------------------------ polling and leases

    /** ORDER BY scheduled_at LIMIT 1, over the whole table. */
    method FirstPending(queue: string) returns (found: Option<int>)
      ensures found.None? ==> forall id :: !TaskPending(db, id, queue)
      ensures found.None? ==> forall id :: id in db.tasks && db.tasks[id].row.taskQueue == queue ==>
                && (db.tasks[id].row.state == Created ==> db.now < db.tasks[id].row.scheduledAt)
                && (db.tasks[id].row.state == Running && db.tasks[id].row.lockedUntil.Some? ==>
                      db.now <= db.tasks[id].row.lockedUntil.value)
      ensures found.Some? ==> TaskPending(db, found.value, queue)
      ensures found.Some? ==> found.value in db.tasks && db.tasks[found.value].row.taskQueue == queue
      ensures found.Some? ==> forall id :: TaskPending(db, id, queue) ==>
                db.tasks[found.value].row.scheduledAt <= db.tasks[id].row.scheduledAt
    {
      found := None;
      var todo := db.tasks.Keys;
      while todo != {}
        invariant todo <= db.tasks.Keys
        invariant found.None? ==> forall id :: TaskPending(db, id, queue) ==> id in todo
        invariant found.Some? ==> TaskPending(db, found.value, queue)
        invariant found.Some? ==> forall id :: TaskPending(db, id, queue) ==>
                    id in todo || db.tasks[found.value].row.scheduledAt <= db.tasks[id].row.scheduledAt
        decreases todo
      {
        Inhabited(todo);
        var id :| id in todo;
        todo := todo - {id};
        if TaskPending(db, id, queue)
           && (found.None? || db.tasks[id].row.scheduledAt < db.tasks[found.value].row.scheduledAt) {
          found := Some(id);
        }
      }
      if found.None? { NoTaskPending(db, queue); }
    }

    method FirstPendingCompensation(queue: string) returns (found: Option<int>)
      ensures found.None? ==> forall id :: !CompensationPending(db, id, queue)
      ensures found.None? ==> forall id :: id in db.comps && db.comps[id].row.taskQueue == queue ==>
                && (db.comps[id].row.state == Created ==> db.now < db.comps[id].row.scheduledAt)
                && (db.comps[id].row.state == Running && db.comps[id].row.lockedUntil.Some? ==>
                      db.now <= db.comps[id].row.lockedUntil.value)
      ensures found.Some? ==> CompensationPending(db, found.value, queue)
      ensures found.Some? ==> found.value in db.comps && db.comps[found.value].row.taskQueue == queue
      ensures found.Some? ==> forall id :: CompensationPending(db, id, queue) ==>
                db.comps[found.value].row.scheduledAt <= db.comps[id].row.scheduledAt
    {
      found := None;
      var todo := db.comps.Keys;
      while todo != {}
        invariant todo <= db.comps.Keys
        invariant found.None? ==> forall id :: CompensationPending(db, id, queue) ==> id in todo
        invariant found.Some? ==> CompensationPending(db, found.value, queue)
        invariant found.Some? ==> forall id :: CompensationPending(db, id, queue) ==>
                    id in todo || db.comps[found.value].row.scheduledAt <= db.comps[id].row.scheduledAt
        decreases todo
      {
        Inhabited(todo);
        var id :| id in todo;
        todo := todo - {id};
        if CompensationPending(db, id, queue)
           && (found.None? || db.comps[id].row.scheduledAt < db.comps[found.value].row.scheduledAt) {
          found := Some(id);
        }
      }
      if found.None? { NoCompensationPending(db, queue); }
    }

    // ------------------------------------------------------------ transactions, expiry, recovery

    method Elapse(seconds: nat)
      modifies this
      ensures db == old(db).(now := old(db).now + seconds)
    {
      db := db.(now := db.now + seconds);
    }

    method Rollback(saved: Tables)
      modifies this
      ensures db == RolledBackTo(saved, old(db))
    {
      db := RolledBackTo(saved, db);
    }

    method SetSweep(e: int, s: Sweep)
      requires InTx(e)
      modifies `db
      ensures InTx(e) && ViewOf(db, e) == ViewOf(old(db), e).(sweep := s)
      ensures db.nextId == old(db).nextId && db.nextEvent == old(db).nextEvent
    {
      ghost var before := db;
      assert Sound(db);
      hide ViewOf, Sound, SameOwners, Only;
      SweepWritten(db, e, s);
      db := db.(sweeps := db.sweeps[e := s]);
      OnlyTwice(start, before, db, e);
    }

    method FlipOne(e: int)
      requires Valid() && e in db.executions
      modifies this
      ensures Only(old(db), db, e) && ViewOf(db, e) == Flip(ViewOf(old(db), e))
      ensures db.nextId == old(db).nextId && db.nextEvent == old(db).nextEvent
    {
      var exec := db.executions[e].exec;
      Begin();
      assert exec == ViewOf(db, e).exec;
      hide ViewOf, Sound, SameOwners;
      PastDeadlineIsOverdue(db, e);
      if PastDeadline(exec, db.now) {
        SetExecution(e, exec.(state := Failed, error := TIMED_OUT));
        SetSweep(e, Flipped);
      }
    }

    /** The UPDATE ... RETURNING id at the head of the sweep, over all executions. */
    method ExpireOverdue() returns (ids: seq<int>)
      requires Valid()
      modifies this
      ensures Valid() && db.executions.Keys == old(db).executions.Keys && db.definitions == old(db).definitions
      ensures db.nextId == old(db).nextId && db.nextEvent == old(db).nextEvent && db.now == old(db).now
      ensures forall e :: e in db.executions ==> ViewOf(db, e) == Flip(ViewOf(old(db), e))
      ensures forall e :: e in ids <==> e in old(db).executions && PastDeadline(old(db).executions[e].exec, old(db).now)
      ensures forall e :: e in old(db).executions ==>
                var x := old(db).executions[e].exec;
                db.executions[e].exec == if e in ids then x.(state := Failed, error := TIMED_OUT) else x
      ensures forall j, k :: 0 <= j < k < |ids| ==> ids[j] != ids[k]
    {
      hide ViewOf, Flip, Overdue, Sound, SameOwners, PastDeadline;
      ids := [];
      var todo := db.executions.Keys;
      while todo != {}
        invariant Valid() && todo <= old(db).executions.Keys == db.executions.Keys
                  && db.definitions == old(db).definitions
        invariant db.nextId == old(db).nextId && db.nextEvent == old(db).nextEvent && db.now == old(db).now
        invariant forall e :: e in db.executions ==>
                    ViewOf(db, e) == if e in todo then ViewOf(old(db), e) else Flip(ViewOf(old(db), e))
        invariant forall e :: e in ids <==> e in old(db).executions - todo && Overdue(ViewOf(old(db), e))
        invariant forall j, k :: 0 <= j < k < |ids| ==> ids[j] != ids[k]
        decreases todo
      {
        Inhabited(todo);
        var e :| e in todo;
        todo := todo - {e};
        var overdue := IsOverdue(e);
        if overdue {
          FlipOne(e);
          ids := ids + [e];
        }
      }
      ExpiredRows(old(db), db);
    }

    method IsOverdue(e: int) returns (overdue: bool)
      requires e in db.executions
      ensures overdue == Overdue(ViewOf(db, e))
      ensures !overdue ==> Flip(ViewOf(db, e)) == ViewOf(db, e)
    {
      var exec := db.executions[e].exec;
      PastDeadlineIsOverdue(db, e);
      overdue := PastDeadline(exec, db.now);
    }

    /** GetActiveExecutions. */
    method GetActiveExecutions() returns (ids: seq<int>)
      ensures forall k :: 0 <= k < |ids| ==> ids[k] in db.executions
      ensures forall e :: e in ids <==> e in db.executions && db.executions[e].exec.state in {Running, Compensating}
    {
      ids := [];
      var todo := db.executions.Keys;
      while todo != {}
        invariant todo <= db.executions.Keys
        invariant forall k :: 0 <= k < |ids| ==> ids[k] in db.executions
        invariant forall e :: e in ids <==>
                    e in db.executions && e !in todo && db.executions[e].exec.state in {Running, Compensating}
        decreases todo
      {
        Inhabited(todo);
        var e :| e in todo;
        todo := todo - {e};
        if db.executions[e].exec.state in {Running, Compensating} {
          ids := ids + [e];
        }
      }
    }

    /** GetLatest: the checkpoint of this very step, if there is one. */
    method GetLatest(e: int, step: int) returns (snapshot: Option<Bytes>)
      requires e in db.executions
      ensures var saved := ViewOf(db, e).checkpoints; snapshot == if step in saved then Some(saved[step]) else None
    {
      snapshot := if e in db.checkpoints && step in db.checkpoints[e] then Some(db.checkpoints[e][step]) else None;
    }
  }
}
